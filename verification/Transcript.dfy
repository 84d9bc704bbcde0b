/** The incremental reading of a worker's transcript (`dispatch/jobs.py`, `read_events`): resumed at a
    byte offset, a line at a time, never past a line still being written. */
module Transcript {
  import opened Prelude
  import opened Utf8

  // --- lines ------------------------------------------------------------------------------------------

  /** What `str.splitlines` takes for the end of a line -- far more than `\n`. */
  predicate Separates(c: char) {
    c in {'\n', '\r', 0x0B as char, 0x0C as char, 0x1C as char, 0x1D as char, 0x1E as char, 0x85 as char,
          0x2028 as char, 0x2029 as char}
  }

  /** Where the first line ends, its separator included (`\r\n` is one separator). */
  function LineEnd(t: string): (n: nat)
    requires t != []
    ensures 1 <= n <= |t|
  {
    if t[0] == '\r' && |t| > 1 && t[1] == '\n' then 2
    else if Separates(t[0]) || |t| == 1 then 1
    else 1 + LineEnd(t[1..])
  }

  /** `splitlines(keepends=True)`. */
  function SplitLines(t: string): seq<string> {
    if t == [] then [] else [t[..LineEnd(t)]] + SplitLines(t[LineEnd(t)..])
  }

  /** The first line is complete for the reader: it ends with `\n`. */
  predicate Complete(t: string) {
    t != [] && t[LineEnd(t) - 1] == '\n'
  }

  /** How many characters one reading consumes: the complete lines, up to the first that is not. */
  function Taken(t: string): (n: nat)
    ensures n <= |t|
  {
    if Complete(t) then LineEnd(t) + Taken(t[LineEnd(t)..]) else 0
  }

  function Events<E>(t: string, norm: string -> Option<E>): seq<E> {
    if Complete(t)
    then (match norm(t[..LineEnd(t)]) case Some(e) => [e] case None => []) + Events(t[LineEnd(t)..], norm)
    else []
  }

  // --- one reading --------------------------------------------------------------------------------------

  datatype File = File(inode: nat, bytes: seq<Byte>)
  datatype Reading<E> = Reading(events: seq<E>, offset: nat, inode: Option<nat>)

  function From(bytes: seq<Byte>, start: nat): seq<Byte> {
    if start <= |bytes| then bytes[start..] else []
  }

  function Read<E>(file: Option<File>, offset: nat, inode: Option<nat>, norm: string -> Option<E>): Reading<E> {
    match file
    case None => Reading([], offset, inode)
    case Some(f) =>
      var start := if inode.Some? && inode.value != f.inode then 0 else offset;
      var text := Decode(From(f.bytes, start));
      Reading(Events(text, norm), start + |Encode(text[..Taken(text)])|, Some(f.inode))
  }

  /** `read_events`. */
  method ReadEvents<E>(file: Option<File>, offset: nat, inode: Option<nat>, norm: string -> Option<E>)
    returns (r: Reading<E>)
    ensures r == Read(file, offset, inode, norm)
  {
    if file.None? {
      return Reading([], offset, inode);
    }
    var f := file.value;
    var start := if inode.Some? && inode.value != f.inode then 0 else offset;
    var consumed, events := ReadLines(Decode(From(f.bytes, start)), norm);
    r := Reading(events, start + consumed, Some(f.inode));
  }

  /** Its loop: line after line, until one is still being written. */
  method ReadLines<E>(text: string, norm: string -> Option<E>) returns (consumed: nat, events: seq<E>)
    ensures consumed == |Encode(text[..Taken(text)])| && events == Events(text, norm)
  {
    hide LineEnd, Encode, Decode, SplitLines, Taken, Events, Complete;
    var lines := SplitLines(text);
    consumed, events := 0, [];
    ghost var done: nat := 0;
    assert text[0..] == text && text[..0] == [];
    NothingEncoded();
    for i := 0 to |lines|
      invariant done <= |text| && lines[i..] == SplitLines(text[done..])
      invariant Taken(text) == done + Taken(text[done..])
      invariant Events(text, norm) == events + Events(text[done..], norm)
      invariant consumed == |Encode(text[..done])|
    {
      NextLine(text, done, norm);
      var line := lines[i];
      assert lines[i..][0] == line && lines[i..][1..] == lines[i+1..];
      if line[|line| - 1] != '\n' {
        return;
      }
      consumed := consumed + |Encode(line)|;
      match norm(line) {
        case Some(e) => events := events + [e];
        case None =>
      }
      done := done + |line|;
    }
    NoMoreLines(text, done, norm);
  }

  lemma NothingEncoded()
    ensures Encode([]) == []
  {
  }

  lemma NextLine<E>(text: string, done: nat, norm: string -> Option<E>)
    requires done <= |text| && SplitLines(text[done..]) != []
    ensures var rest := text[done..];
            rest != [] && done + LineEnd(rest) <= |text|
    ensures var rest := text[done..];
            var n := LineEnd(rest);
            SplitLines(rest) == [rest[..n]] + SplitLines(text[done + n..])
            && (Complete(rest) <==> rest[..n][n - 1] == '\n')
            && (Complete(rest) ==>
                  Taken(rest) == n + Taken(text[done + n..])
                  && Events(rest, norm) == (match norm(rest[..n]) case Some(e) => [e] case None => [])
                                           + Events(text[done + n..], norm))
            && (!Complete(rest) ==> Taken(rest) == 0 && Events(rest, norm) == [])
            && |Encode(text[..done + n])| == |Encode(text[..done])| + |Encode(rest[..n])|
  {
    hide LineEnd;
    var rest := text[done..];
    var n := LineEnd(rest);
    assert text[..done] + rest[..n] == text[..done + n];
    EncodeConcat(text[..done], rest[..n]);
    assert rest[n..] == text[done + n..];
  }

  lemma NoMoreLines<E>(text: string, done: nat, norm: string -> Option<E>)
    requires done <= |text| && SplitLines(text[done..]) == []
    ensures Taken(text[done..]) == 0 && Events(text[done..], norm) == []
  {
  }

  // --- what a longer text changes -----------------------------------------------------------------------

  lemma {:induction false} LineEndIsLocal(t: string, u: string)
    requires Complete(t) && LineEnd(t) <= |u| && u[..LineEnd(t)] == t[..LineEnd(t)]
    ensures u != [] && LineEnd(u) == LineEnd(t) && Complete(u)
  {
    assert t[0] == u[0] by {
      assert t[..LineEnd(t)][0] == u[..LineEnd(t)][0];
    }
    if LineEnd(t) > 1 {
      assert t[1] == u[1] by {
        assert t[..LineEnd(t)][1] == u[..LineEnd(t)][1];
      }
      if !(t[0] == '\r' && t[1] == '\n') {
        assert t[1..][..LineEnd(t) - 1] == t[..LineEnd(t)][1..];
        assert u[1..][..LineEnd(t) - 1] == u[..LineEnd(t)][1..];
        LineEndIsLocal(t[1..], u[1..]);
      }
    }
  }

  lemma {:induction false} TakenEndsALine(t: string)
    ensures Taken(t) > 0 ==> t[Taken(t) - 1] == '\n'
  {
    if Complete(t) {
      TakenEndsALine(t[LineEnd(t)..]);
    }
  }

  lemma {:induction false} NothingLeft<E>(t: string, norm: string -> Option<E>)
    ensures Taken(t[Taken(t)..]) == 0 && Events(t[Taken(t)..], norm) == []
  {
    if Complete(t) {
      NothingLeft(t[LineEnd(t)..], norm);
      assert t[LineEnd(t)..][Taken(t[LineEnd(t)..])..] == t[Taken(t)..];
    } else {
      assert t[0..] == t;
    }
  }

  /** `t` and `u` share `i` characters, and `t` holds no `\n` after them. */
  ghost predicate Extends(t: string, u: string, i: nat) {
    i <= |t| && i <= |u| && t[..i] == u[..i] && forall k :: i <= k < |t| ==> t[k] != '\n'
  }

  lemma ExtendsPastALine(t: string, u: string, i: nat)
    requires Extends(t, u, i) && Complete(t)
    ensures LineEnd(t) <= i && Complete(u) && LineEnd(u) == LineEnd(t) && t[..LineEnd(t)] == u[..LineEnd(t)]
    ensures Extends(t[LineEnd(t)..], u[LineEnd(t)..], i - LineEnd(t))
  {
    hide LineEnd;
    var n := LineEnd(t);
    assert n <= i;
    assert t[..n] == t[..i][..n] && u[..n] == u[..i][..n];
    LineEndIsLocal(t, u);
    assert t[n..][..i - n] == t[..i][n..] && u[n..][..i - n] == u[..i][n..];
  }

  /** What `t` consumed stays consumed, and the reading of `u` goes on from there. */
  lemma {:induction false} ReadingGoesOn<E>(t: string, u: string, i: nat, norm: string -> Option<E>)
    requires Extends(t, u, i)
    ensures Taken(t) <= i
    ensures Taken(u) == Taken(t) + Taken(u[Taken(t)..])
    ensures Events(u, norm) == Events(t, norm) + Events(u[Taken(t)..], norm)
    decreases |t|
  {
    hide LineEnd, Extends, Complete;
    if Complete(t) {
      ExtendsPastALine(t, u, i);
      var n := LineEnd(t);
      ReadingGoesOn(t[n..], u[n..], i - n, norm);
      assert u[n..][Taken(t[n..])..] == u[Taken(t)..];
    } else {
      assert u[0..] == u;
    }
  }

  // --- a whole follow-up ----------------------------------------------------------------------------------

  /** Every reading sees between `low` and `high` bytes. */
  ghost predicate Within(seen: seq<nat>, low: nat, high: nat) {
    forall i :: 0 <= i < |seen| ==> low <= seen[i] <= high
  }

  /** Successive readings of a file that grows to `final`, offset and inode fed back. `seen` is its
      length at each reading: the cuts fall anywhere, in the middle of a line or of a character. */
  ghost function Follow<E>(final: seq<Byte>, node: nat, seen: seq<nat>, offset: nat, inode: Option<nat>,
                           norm: string -> Option<E>): (seq<E>, nat)
    requires Within(seen, 0, |final|)
  {
    if seen == [] then ([], offset)
    else
      var r := Read(Some(File(node, final[..seen[0]])), offset, inode, norm);
      var (events, last) := Follow(final, node, seen[1..], r.offset, r.inode, norm);
      (r.events + events, last)
  }

  ghost predicate Growing(seen: seq<nat>) {
    forall i, j :: 0 <= i < j < |seen| ==> seen[i] <= seen[j]
  }

  lemma Later(seen: seq<nat>, low: nat, high: nat)
    requires Growing(seen) && seen != [] && Within(seen, 0, high) && low <= seen[0]
    ensures Growing(seen[1..]) && Within(seen[1..], low, high) && Within(seen[1..], 0, high)
    ensures |seen| == 1 || seen[1..][|seen[1..]| - 1] == seen[|seen| - 1]
  {
  }

  /** Position `k` begins a line. */
  predicate BeginsALine(s: string, k: nat) {
    k <= |s| && (k > 0 ==> s[k - 1] == '\n')
  }

  /** Reading the first `n` bytes of what is left of a file. */
  lemma ReadTail<E>(tail: seq<Byte>, n: nat, norm: string -> Option<E>) returns (taken: nat)
    requires n <= |tail|
    ensures var text, u := Decode(tail[..n]), Decode(tail);
            taken == Taken(text) && taken <= |u| && text[..taken] == u[..taken] && Span(tail, taken) <= n
            && (taken > 0 ==> u[taken - 1] == '\n')
            && Taken(u) == taken + Taken(u[taken..])
            && Events(u, norm) == Events(text, norm) + Events(u[taken..], norm)
            && (n == |tail| ==> Events(u[taken..], norm) == [])
  {
    hide Decode, Taken, Events, Complete, Extends, Span;
    var i := CutIsShared(tail, n);
    var text, u := Decode(tail[..n]), Decode(tail);
    ReadingGoesOn(text, u, i, norm);
    TakenEndsALine(text);
    taken := Taken(text);
    SharedPrefix(text, u, i, taken);
    SpanAdds(tail, taken, i - taken);
    if n == |tail| {
      assert tail[..n] == tail;
      NothingLeft(u, norm);
    }
  }

  lemma CutIsShared(tail: seq<Byte>, n: nat) returns (i: nat)
    requires n <= |tail|
    ensures i <= |Decode(tail)| && Extends(Decode(tail[..n]), Decode(tail), i) && Span(tail, i) <= n
  {
    i := CutDecodes(tail, n);
    hide Decode, Span;
    assert Decode(tail[..n])[..i] == Decode(tail)[..i];
  }

  lemma SharedPrefix(text: string, u: string, i: nat, taken: nat)
    requires Extends(text, u, i) && taken <= i
    ensures taken <= |text| && taken <= |u| && text[..taken] == u[..taken]
    ensures taken > 0 ==> text[taken - 1] == u[taken - 1]
  {
    assert text[..taken] == text[..i][..taken] && u[..taken] == u[..i][..taken];
    if taken > 0 {
      assert text[..i][taken - 1] == u[..i][taken - 1];
    }
  }

  // --- what the offset means ------------------------------------------------------------------------------

  /** Each of the first `k` characters takes as many bytes re-encoded as it took in the file. */
  predicate Faithful(bs: seq<Byte>, k: nat)
    requires k <= |Decode(bs)|
    decreases k
  {
    k == 0 || (|EncodeChar(Unit(bs).0)| == Unit(bs).1 && Faithful(bs[Unit(bs).1..], k - 1))
  }

  /** DRIFT, exactly. The offset is computed by RE-ENCODING what was decoded: it never lags behind the
      bytes really read, and it is right if and only if no consumed character stands for an ill-formed
      subpart of another length than U+FFFD's own. */
  lemma {:induction false} OffsetNeverLags(bs: seq<Byte>, k: nat)
    requires k <= |Decode(bs)|
    ensures |Encode(Decode(bs)[..k])| >= Span(bs, k)
    ensures |Encode(Decode(bs)[..k])| == Span(bs, k) <==> Faithful(bs, k)
    decreases k
  {
    if k > 0 {
      var u := Unit(bs);
      var rest := bs[u.1..];
      ReencodedIsNoShorter(bs);
      OffsetNeverLags(rest, k - 1);
      hide Unit, EncodeChar;
      assert Decode(bs)[..k] == [u.0] + Decode(rest)[..k - 1];
      EncodeConcat([u.0], Decode(rest)[..k - 1]);
      assert [u.0][1..] == [];
      assert Encode([u.0]) == EncodeChar(u.0) + Encode([]);
    }
  }

  lemma {:induction false} FaithfulSplits(bs: seq<Byte>, j: nat, k: nat)
    requires j + k <= |Decode(bs)| && Faithful(bs, j + k)
    ensures Faithful(bs, j) && k <= |Decode(bs[Span(bs, j)..])| && Faithful(bs[Span(bs, j)..], k)
    decreases j
  {
    hide Unit, EncodeChar;
    if j == 0 {
      assert bs[0..] == bs;
    } else {
      var u := Unit(bs).1;
      FaithfulSplits(bs[u..], j - 1, k);
      assert bs[u..][Span(bs[u..], j - 1)..] == bs[Span(bs, j)..];
    }
  }

  lemma {:induction false} EncodedIsFaithful(s: string, k: nat)
    requires k <= |s|
    ensures Decode(Encode(s)) == s && Faithful(Encode(s), k) && Span(Encode(s), k) == |Encode(s[..k])|
    decreases |s|
  {
    DecodesBack(s);
    if k > 0 {
      UnitOfEncoded(s[0], Encode(s[1..]));
      assert Encode(s)[|EncodeChar(s[0])|..] == Encode(s[1..]);
      EncodedIsFaithful(s[1..], k - 1);
      assert s[..k][0] == s[0] && s[..k][1..] == s[1..][..k - 1];
    }
  }

  // --- the readings, put end to end -----------------------------------------------------------------------

  /** The first `k` characters of `whole` are what its complete lines begin with, `m` of them being read. */
  ghost predicate OnTheWay(whole: seq<Byte>, m: nat) {
    var t := Decode(whole);
    BeginsALine(t, m) && Taken(t) == m + Taken(t[m..])
  }

  /** One reading of a growing file moves the offset from the bytes of a whole number of characters to those
      of another, at the beginning of a line, as long as what is consumed is faithful. */
  lemma OneReading<E>(whole: seq<Byte>, m: nat, n: nat, node: nat, inode: Option<nat>, norm: string -> Option<E>)
    returns (k: nat)
    requires OnTheWay(whole, m) && Faithful(whole, Taken(Decode(whole)))
    requires Span(whole, m) <= n <= |whole| && (inode.Some? ==> inode.value == node)
    ensures var r := Read(Some(File(node, whole[..n])), Span(whole, m), inode, norm);
            var t := Decode(whole);
            m <= k && OnTheWay(whole, k) && r.offset == Span(whole, k) <= n && r.inode == Some(node)
            && Events(t[m..], norm) == r.events + Events(t[k..], norm)
            && (n == |whole| ==> Events(t[k..], norm) == [])
  {
    hide Decode, Encode, Taken, Events, Complete, Span, Faithful;
    var t, start := Decode(whole), Span(whole, m);
    var tail := whole[start..];
    SpanLeaves(whole, m);
    assert From(whole[..n], start) == tail[..n - start];
    var taken := ReadTail(tail, n - start, norm);
    k := m + taken;
    assert t[m..][taken..] == t[k..] && (taken > 0 ==> t[m..][taken - 1] == t[k - 1]);
    FaithfulSplits(whole, m, Taken(t) - m);
    FaithfulSplits(tail, taken, Taken(t) - m - taken);
    OffsetNeverLags(tail, taken);
    SpanAdds(whole, m, taken);
  }

  lemma FollowStep<E>(final: seq<Byte>, node: nat, seen: seq<nat>, offset: nat, inode: Option<nat>,
                      norm: string -> Option<E>)
    requires seen != [] && Within(seen, 0, |final|)
    ensures seen[0] <= |final| && Within(seen[1..], 0, |final|)
    ensures var r := Read(Some(File(node, final[..seen[0]])), offset, inode, norm);
            var rest := Follow(final, node, seen[1..], r.offset, r.inode, norm);
            Follow(final, node, seen, offset, inode, norm) == (r.events + rest.0, rest.1)
  {
  }

  lemma {:induction false} FollowFrom<E>(whole: seq<Byte>, m: nat, node: nat, seen: seq<nat>, inode: Option<nat>,
                                         norm: string -> Option<E>) returns (k: nat)
    requires OnTheWay(whole, m) && Faithful(whole, Taken(Decode(whole)))
    requires Growing(seen) && Within(seen, Span(whole, m), |whole|)
    requires inode.Some? ==> inode.value == node
    ensures Within(seen, 0, |whole|)
    ensures var (events, last) := Follow(whole, node, seen, Span(whole, m), inode, norm);
            m <= k && OnTheWay(whole, k) && last == Span(whole, k)
            && Events(Decode(whole)[m..], norm) == events + Events(Decode(whole)[k..], norm)
    ensures seen == [] ==> k == m
    ensures seen != [] && seen[|seen| - 1] == |whole| ==> Events(Decode(whole)[k..], norm) == []
    decreases seen
  {
    assert Within(seen, 0, |whole|);
    if seen == [] {
      k := m;
    } else {
      var low := seen[0];
      assert Span(whole, m) <= low <= |whole|;
      hide Read, Decode, Events, Follow, Within, Growing, Span, Faithful, OnTheWay, BeginsALine;
      var j := OneReading(whole, m, low, node, inode, norm);
      FollowStep(whole, node, seen, Span(whole, m), inode, norm);
      Later(seen, Span(whole, j), |whole|);
      Bounded(whole, j);
      k := FollowFrom(whole, j, node, seen[1..], Some(node), norm);
      var r := Read(Some(File(node, whole[..low])), Span(whole, m), inode, norm);
      var rest := Follow(whole, node, seen[1..], r.offset, r.inode, norm);
      Bounded(whole, k);
      Bounded(whole, m);
      Regrouped(r.events, rest.0, Events(Decode(whole)[k..], norm));
    }
  }

  lemma Bounded(whole: seq<Byte>, k: nat)
    requires OnTheWay(whole, k)
    ensures k <= |Decode(whole)|
  {
  }

  lemma Regrouped<E>(a: seq<E>, b: seq<E>, c: seq<E>)
    ensures a + (b + c) == (a + b) + c
  {
  }

  /** INCREMENTAL = ONE SHOT, on any bytes. For any file, well formed or not, written in any pieces, the
      events of the successive readings, put end to end, are those of a single reading of the final file, as
      long as every character of its complete lines takes as many bytes re-encoded as it took. */
  lemma FaithfulIncremental<E>(whole: seq<Byte>, node: nat, seen: seq<nat>, norm: string -> Option<E>)
    requires Growing(seen) && seen != [] && Within(seen, 0, |whole|) && seen[|seen| - 1] == |whole|
    requires Faithful(whole, Taken(Decode(whole)))
    ensures var (events, last) := Follow(whole, node, seen, 0, None, norm);
            events == Read(Some(File(node, whole)), 0, None, norm).events
            && exists k: nat :: BeginsALine(Decode(whole), k) && last == Span(whole, k)
  {
    hide Events, Decode, Taken, Follow, Faithful;
    var t := Decode(whole);
    assert t[0..] == t && Span(whole, 0) == 0;
    var k := FollowFrom(whole, 0, node, seen, None, norm);
    assert From(whole, 0) == whole;
    assert BeginsALine(t, k) && Follow(whole, node, seen, 0, None, norm).1 == Span(whole, k);
  }

  /** INCREMENTAL = ONE SHOT. For any well-formed text, written in any pieces, the events of the
      successive readings, put end to end, are those of a single reading of the final file. A partial
      line is never consumed: the offset always stands at the beginning of a line. */
  lemma IncrementalEqualsOneShot<E>(s: string, node: nat, seen: seq<nat>, norm: string -> Option<E>)
    requires Growing(seen) && seen != [] && seen[|seen| - 1] == |Encode(s)|
    ensures Within(seen, 0, |Encode(s)|)
    ensures var (events, last) := Follow(Encode(s), node, seen, 0, None, norm);
            events == Read(Some(File(node, Encode(s))), 0, None, norm).events
            && exists k: nat :: BeginsALine(s, k) && last == |Encode(s[..k])|
  {
    hide Events, Decode, Taken, Follow, Faithful, Encode, Read;
    DecodesBack(s);
    EncodedIsFaithful(s, Taken(s));
    FaithfulIncremental(Encode(s), node, seen, norm);
    var k: nat :| BeginsALine(s, k) && Follow(Encode(s), node, seen, 0, None, norm).1 == Span(Encode(s), k);
    EncodedIsFaithful(s, k);
  }

  lemma DecodesBack(s: string)
    ensures Decode(Encode(s)) == s
  {
    DecodeEncoded(s, []);
    assert Encode(s) + [] == Encode(s) && s + [] == s;
  }

  // --- when the reader stalls -------------------------------------------------------------------------------

  /** A separator of `splitlines` that does not end a line for the reader. */
  predicate Foreign(t: string, f: nat) {
    f < |t| && Separates(t[f]) && t[f] != '\n' && !(t[f] == '\r' && f + 1 < |t| && t[f + 1] == '\n')
  }

  /** No foreign separator before `end`. */
  ghost predicate Clean(t: string, end: nat) {
    forall f: nat :: f < end ==> !Foreign(t, f)
  }

  /** The first line ends at the first separator, which it takes whole. */
  lemma {:induction false} LineEndIsFirst(t: string)
    requires t != []
    ensures var n := LineEnd(t);
            (Separates(t[n - 1]) || n == |t|)
            && !(t[n - 1] == '\r' && n < |t| && t[n] == '\n')
            && forall k :: 0 <= k < n - 1 && Separates(t[k]) ==> k == n - 2 && t[k] == '\r' && t[n - 1] == '\n'
  {
    if !(t[0] == '\r' && |t| > 1 && t[1] == '\n') && !Separates(t[0]) && |t| > 1 {
      LineEndIsFirst(t[1..]);
    }
  }

  /** STALL, exactly. The reader consumes every complete line -- up to `end`, just after the last `\n`
      -- if and only if none of them holds a foreign separator. */
  lemma {:induction false} ConsumesAllUnlessForeign(t: string, end: nat)
    requires end <= |t| && (end > 0 ==> t[end - 1] == '\n') && forall k :: end <= k < |t| ==> t[k] != '\n'
    ensures Taken(t) == end <==> Clean(t, end)
    decreases |t|
  {
    if t != [] {
      hide LineEnd, Separates, Clean;
      var n := LineEnd(t);
      LineEndIsFirst(t);
      NewlineSeparates();
      if Complete(t) {
        assert n <= end;
        ConsumesAllUnlessForeign(t[n..], end - n);
        CleanBeyond(t, n, end);
      } else if end > 0 {
        assert t[end - 1] == '\n' && Separates(t[end - 1]);
        assert n < end;
        NotClean(t, n - 1, end);
      } else {
        CleanNowhere(t);
      }
    } else {
      CleanNowhere(t);
    }
  }

  lemma NewlineSeparates()
    ensures Separates('\n')
  {
  }

  lemma NotClean(t: string, f: nat, end: nat)
    requires f < end && Foreign(t, f)
    ensures !Clean(t, end)
  {
  }

  lemma CleanNowhere(t: string)
    ensures Clean(t, 0)
  {
  }

  lemma CleanBeyond(t: string, n: nat, end: nat)
    requires t != [] && n == LineEnd(t) && Complete(t) && n <= end <= |t|
    ensures Clean(t, end) <==> Clean(t[n..], end - n)
  {
    hide LineEnd, Separates;
    LineEndIsFirst(t);
    forall f: nat ensures Foreign(t[n..], f) <==> Foreign(t, f + n) {
    }
    if Clean(t[n..], end - n) {
      forall f: nat | f < end ensures !Foreign(t, f) {
        if f >= n {
          assert !Foreign(t[n..], f - n);
        }
      }
    }
  }

  /** And a stall is for ever: whatever is appended, nothing more is consumed and no event comes out.
      (A `\r` that ends the file so far may still become `\r\n`.) */
  lemma {:induction false} StallIsPermanent<E>(t: string, more: string, f: nat, norm: string -> Option<E>)
    requires Foreign(t, f) && (t[f] == '\r' ==> f + 1 < |t|)
    ensures Taken(t + more) == Taken(t) <= f && Events(t + more, norm) == Events(t, norm)
    decreases |t|
  {
    hide LineEnd, Separates;
    var u := t + more;
    var n := LineEnd(t);
    LineEndIsFirst(t);
    if Complete(t) {
      assert u[..n] == t[..n];
      LineEndIsLocal(t, u);
      assert n <= f;
      assert u[n..] == t[n..] + more;
      StallIsPermanent(t[n..], more, f - n, norm);
    } else {
      LineEndIsFirst(u);
      assert t[n - 1] == u[n - 1] && f >= n - 1 && Separates(t[n - 1]);
      StalledLine(t, more, n);
    }
  }

  lemma StalledLine(t: string, more: string, n: nat)
    requires t != [] && n == LineEnd(t) && Separates(t[n - 1]) && t[n - 1] != '\n' && (t[n - 1] == '\r' ==> n < |t|)
    ensures !Complete(t + more)
    decreases |t|
  {
    if n > 1 {
      assert (t + more)[1..] == t[1..] + more;
      StalledLine(t[1..], more, n - 1);
    }
  }

  // --- when the offset drifts ---------------------------------------------------------------------------------

  /** One stray byte is enough to lose a line: after a reading of `FF 0A` the offset stands at 4
      instead of 2, and the line of two bytes written next is never read. */
  lemma AStrayByteLosesALine<E>(node: nat, norm: string -> Option<E>)
    requires norm([REPLACEMENT, '\n']).None? && norm("a\n").Some?
    ensures var whole: seq<Byte> := [0xFF, 0x0A, 0x61, 0x0A];
            Within([2, 4], 0, |whole|)
            && Follow(whole, node, [2, 4], 0, None, norm).0 == []
            && Read(Some(File(node, whole)), 0, None, norm).events == [norm("a\n").value]
  {
    var whole: seq<Byte> := [0xFF, 0x0A, 0x61, 0x0A];
    StrayReadings(node, whole, norm);
    TwoReadings(whole, node, norm);
  }

  lemma TwoReadings<E>(whole: seq<Byte>, node: nat, norm: string -> Option<E>)
    requires |whole| == 4
    requires Read(Some(File(node, whole[..2])), 0, None, norm) == Reading([], 4, Some(node))
    requires Read(Some(File(node, whole)), 4, Some(node), norm) == Reading([], 4, Some(node))
    ensures Within([2, 4], 0, 4) && Follow(whole, node, [2, 4], 0, None, norm).0 == []
  {
    hide Read;
    var seen, last := [2, 4], [4];
    assert seen[1..] == last && last[1..] == [] && whole[..4] == whole;
    FollowStep(whole, node, last, 4, Some(node), norm);
    FollowStep(whole, node, seen, 0, None, norm);
  }

  lemma StrayReadings<E>(node: nat, whole: seq<Byte>, norm: string -> Option<E>)
    requires norm([REPLACEMENT, '\n']).None? && norm("a\n").Some? && whole == [0xFF, 0x0A, 0x61, 0x0A]
    ensures Read(Some(File(node, whole[..2])), 0, None, norm) == Reading([], 4, Some(node))
    ensures Read(Some(File(node, whole)), 4, Some(node), norm) == Reading([], 4, Some(node))
    ensures Read(Some(File(node, whole)), 0, None, norm).events == [norm("a\n").value]
  {
    hide Read;
    assert whole[..2] == [0xFF, 0x0A];
    FirstStrayReading(node, norm);
    PastTheEnd(node, whole, norm);
    WholeStrayReading(node, norm);
  }

  lemma FirstStrayReading<E>(node: nat, norm: string -> Option<E>)
    requires norm([REPLACEMENT, '\n']).None?
    ensures Read(Some(File(node, [0xFF, 0x0A])), 0, None, norm) == Reading([], 4, Some(node))
  {
    StrayLine(norm);
    hide Decode, Encode, Taken, Events;
    assert From([0xFF, 0x0A], 0) == [0xFF, 0x0A];
  }

  lemma PastTheEnd<E>(node: nat, bytes: seq<Byte>, norm: string -> Option<E>)
    ensures Read(Some(File(node, bytes)), |bytes|, Some(node), norm) == Reading([], |bytes|, Some(node))
  {
    NothingThere(norm);
    hide Decode, Encode, Taken, Events;
    assert From(bytes, |bytes|) == [] && Decode([])[..0] == [];
  }

  lemma WholeStrayReading<E>(node: nat, norm: string -> Option<E>)
    requires norm([REPLACEMENT, '\n']).None? && norm("a\n").Some?
    ensures Read(Some(File(node, [0xFF, 0x0A, 0x61, 0x0A])), 0, None, norm).events == [norm("a\n").value]
  {
    StrayFile(norm);
    hide Decode, Encode, Taken, Events;
    assert From([0xFF, 0x0A, 0x61, 0x0A], 0) == [0xFF, 0x0A, 0x61, 0x0A];
  }

  lemma NothingThere<E>(norm: string -> Option<E>)
    ensures Decode([]) == [] && Taken([]) == 0 && Events([], norm) == [] && Encode([]) == []
  {
  }

  lemma AsciiFirst(b: Byte, rest: seq<Byte>)
    requires b < 0x80
    ensures Decode([b] + rest) == [b as char] + Decode(rest)
  {
    assert ([b] + rest)[1..] == rest;
  }

  lemma StrayFirst(rest: seq<Byte>)
    ensures Decode([0xFF] + rest) == [REPLACEMENT] + Decode(rest)
  {
    var bs: seq<Byte> := [0xFF] + rest;
    assert bs[1..] == rest;
  }

  /** A line of one character. */
  lemma ShortLine<E>(c: char, rest: string, norm: string -> Option<E>)
    requires !Separates(c)
    ensures var t := [c, '\n'] + rest;
            Taken(t) == 2 + Taken(rest)
            && Events(t, norm) == (match norm([c, '\n']) case Some(e) => [e] case None => []) + Events(rest, norm)
  {
    var t := [c, '\n'] + rest;
    assert t[1..][0] == '\n' && LineEnd(t[1..]) == 1 && LineEnd(t) == 2;
    assert t[..2] == [c, '\n'] && t[2..] == rest;
  }

  lemma StrayLine<E>(norm: string -> Option<E>)
    requires norm([REPLACEMENT, '\n']).None?
    ensures var t := Decode([0xFF, 0x0A]);
            t == [REPLACEMENT, '\n'] && Taken(t) == 2 && Events(t, norm) == [] && |Encode(t[..2])| == 4
  {
    var bs: seq<Byte> := [0xFF, 0x0A];
    AsciiFirst(0x0A, []);
    StrayFirst([0x0A]);
    assert bs == [0xFF] + ([0x0A] + []) && [0x0A as Byte] + [] == [0x0A];
    var t := [REPLACEMENT, '\n'];
    NothingThere(norm);
    ShortLine(REPLACEMENT, [], norm);
    assert t + [] == t && t[..2] == t;
    hide Decode, LineEnd, Taken, Events;
    assert t[1..] == ['\n'] && ['\n'][1..] == [];
    assert Encode(t) == EncodeChar(REPLACEMENT) + Encode(t[1..]) && Encode(t[1..]) == EncodeChar('\n') + Encode([]);
  }

  lemma StrayFile<E>(norm: string -> Option<E>)
    requires norm([REPLACEMENT, '\n']).None? && norm("a\n").Some?
    ensures Events(Decode([0xFF, 0x0A, 0x61, 0x0A]), norm) == [norm("a\n").value]
  {
    hide Decode, Events, LineEnd, Taken;
    var bs: seq<Byte> := [0xFF, 0x0A, 0x61, 0x0A];
    var line, rest: seq<Byte> := [0x0A], [0x61, 0x0A];
    NothingThere(norm);
    AsciiFirst(0x0A, []);
    AsciiFirst(0x61, line);
    AsciiFirst(0x0A, rest);
    StrayFirst([0x0A] + rest);
    assert line == [0x0A] + [] && rest == [0x61] + line && bs == [0xFF] + ([0x0A] + rest);
    assert ['\n'] + [] == ['\n'] && ['a'] + ['\n'] == "a\n";
    assert Decode(rest) == "a\n";
    assert Decode(bs) == [REPLACEMENT, '\n'] + "a\n";
    ShortLine(REPLACEMENT, "a\n", norm);
    ShortLine('a', [], norm);
    assert ['a', '\n'] + [] == "a\n" && ['a', '\n'] == "a\n";
  }

  // --- a text, line by line -----------------------------------------------------------------------------------

  /** The ten characters that end a line for Python: LF, VT, FF, CR, FS, GS, RS, NEL, LS and PS. */
  lemma TenSeparators(c: char)
    ensures Separates(c) <==> c as int in {10, 11, 12, 13, 28, 29, 30, 133, 8232, 8233}
  {
  }

  /** Nothing up to the last character of the line ends one. */
  ghost predicate Unbroken(line: string) {
    forall k :: 0 <= k < |line| ==> !Separates(line[k])
  }

  lemma {:induction false} EndOfUnbroken(line: string, rest: string)
    requires Unbroken(line) && rest != [] && Separates(rest[0])
    ensures LineEnd(line + rest) == |line| + LineEnd(rest)
    decreases |line|
  {
    hide Separates;
    var t := line + rest;
    if line == [] {
      assert t == rest;
    } else {
      NewlineSeparates();
      assert t[0] == line[0] && t[1..] == line[1..] + rest;
      assert '\r' != line[0] by {
        ReturnSeparates();
      }
      EndOfUnbroken(line[1..], rest);
    }
  }

  lemma ReturnSeparates()
    ensures Separates('\r')
  {
  }

  /** THE LINES, one by one. A line ended by `\n`, or by `\r\n`, is consumed with its end, normalised, and the
      reading goes on behind it; one ended by another separator stops it there; and so does a line that is
      not ended yet. Every text is one of these. */
  lemma LineByLine<E>(line: string, rest: string, norm: string -> Option<E>)
    requires Unbroken(line)
    ensures var lf := line + ['\n'];
            Taken(lf + rest) == |lf| + Taken(rest)
            && Events(lf + rest, norm) == (match norm(lf) case Some(e) => [e] case None => []) + Events(rest, norm)
    ensures var crlf := line + ['\r', '\n'];
            Taken(crlf + rest) == |crlf| + Taken(rest)
            && Events(crlf + rest, norm) == (match norm(crlf) case Some(e) => [e] case None => []) + Events(rest, norm)
    ensures Taken(line) == 0 && Events(line, norm) == []
    ensures forall c :: Separates(c) && c != '\n' && !(c == '\r' && rest != [] && rest[0] == '\n') ==>
              Taken(line + [c] + rest) == 0 && Events(line + [c] + rest, norm) == []
  {
    hide Separates, LineEnd, Taken, Events;
    NewlineSeparates();
    ReturnSeparates();
    EndedLine(line, ['\n'], rest, norm);
    EndedLine(line, ['\r', '\n'], rest, norm);
    WaitingLine(line, norm);
    forall c | Separates(c) && c != '\n' && !(c == '\r' && rest != [] && rest[0] == '\n')
      ensures Taken(line + [c] + rest) == 0 && Events(line + [c] + rest, norm) == []
    {
      StoppedLine(line, c, rest, norm);
    }
  }

  lemma EndedLine<E>(line: string, end: string, rest: string, norm: string -> Option<E>)
    requires Unbroken(line) && end in {['\n'], ['\r', '\n']}
    ensures var l := line + end;
            Taken(l + rest) == |l| + Taken(rest)
            && Events(l + rest, norm) == (match norm(l) case Some(e) => [e] case None => []) + Events(rest, norm)
  {
    var l := line + end;
    var t := l + rest;
    assert t == line + (end + rest);
    NewlineSeparates();
    ReturnSeparates();
    EndOfUnbroken(line, end + rest);
    assert LineEnd(end + rest) == |end|;
    hide LineEnd, Separates;
    assert t[..|l|] == l && t[|l|..] == rest && t[|l| - 1] == '\n';
  }

  lemma {:induction false} WaitingLine<E>(line: string, norm: string -> Option<E>)
    requires Unbroken(line)
    ensures Taken(line) == 0 && Events(line, norm) == []
  {
    if line != [] {
      NewlineSeparates();
      assert !Separates(line[LineEnd(line) - 1]);
    }
  }

  lemma StoppedLine<E>(line: string, c: char, rest: string, norm: string -> Option<E>)
    requires Unbroken(line) && Separates(c) && c != '\n' && !(c == '\r' && rest != [] && rest[0] == '\n')
    ensures Taken(line + [c] + rest) == 0 && Events(line + [c] + rest, norm) == []
  {
    var t := line + [c] + rest;
    assert t == line + ([c] + rest);
    EndOfUnbroken(line, [c] + rest);
    assert LineEnd([c] + rest) == 1;
    hide LineEnd, Separates;
    assert t[LineEnd(t) - 1] == c;
  }

  /** ROTATION. A file that is missing changes nothing; another file than the one last read is read from its
      first byte, as if nothing ever had been; the same one, from where the last reading stopped. */
  lemma ARotationStartsOver<E>(f: File, offset: nat, inode: nat, norm: string -> Option<E>)
    ensures Read(None, offset, Some(inode), norm) == Reading([], offset, Some(inode))
    ensures inode != f.inode ==> Read(Some(f), offset, Some(inode), norm) == Read(Some(f), 0, None, norm)
    ensures var text := Decode(f.bytes);
            Read(Some(f), 0, None, norm) == Reading(Events(text, norm), |Encode(text[..Taken(text)])|, Some(f.inode))
    ensures offset <= |f.bytes| ==>
              var text := Decode(f.bytes[offset..]);
              Read(Some(f), offset, Some(f.inode), norm)
              == Reading(Events(text, norm), offset + |Encode(text[..Taken(text)])|, Some(f.inode))
    ensures offset > |f.bytes| ==> Read(Some(f), offset, Some(f.inode), norm) == Reading([], offset, Some(f.inode))
  {
    hide Events, Taken, Encode, Decode;
    assert f.bytes[0..] == f.bytes;
    NothingThere(norm);
    assert Decode([])[..0] == [];
  }

  ghost function Joined(lines: seq<string>): string {
    if lines == [] then [] else lines[0] + Joined(lines[1..])
  }

  /** No character of the text is lost by the cut into lines. */
  lemma {:induction false} LinesAreTheText(t: string)
    ensures Joined(SplitLines(t)) == t
    decreases |t|
  {
    hide LineEnd;
    if t != [] {
      var n := LineEnd(t);
      LinesAreTheText(t[n..]);
      assert SplitLines(t)[1..] == SplitLines(t[n..]);
    }
  }
}
