/** The verdict read in the output of a headless worker (`dispatch/jobs.py`, `parse_headless_result`
    and its line scanners) and, without an exit code, in the log of an interrupted one
    (`dispatch/reconcile.py`, `_terminal_result`).

    JSON text is abstracted: a line is what `json.loads` makes of it, plus whether its RAW text holds
    the two literals the scanners look for before parsing. */
module Headless {
  import opened Prelude

  datatype Tag = ResultTag | RateLimitTag | UserTag | OtherTag
  datatype Limit = NoInfo | Info(rejected: bool)

  /** A block of a message. `Unsearchable` is a text block whose `text` is a truthy number: looking
      for a marker in it raises. */
  datatype Block = NoText | TextBlock(marked: bool) | Unsearchable
  datatype Message = NoMessage | Plain(marked: bool) | Blocks(blocks: seq<Block>)

  datatype Usage = Usage(input: Option<int>, output: Option<int>, cacheRead: Option<int>,
                         cacheCreation: Option<int>, model: Option<nat>)
  datatype Figures = Figures(session: Option<nat>, turns: Option<int>, cost: Option<real>,
                             durationMs: Option<real>, usage: Usage)

  /** `bare` is the empty object, which Python takes for false. */
  datatype Obj = Obj(tag: Tag, limit: Limit, message: Message, isError: bool, apiError: bool,
                     bare: bool, figures: Figures)
  datatype Json = Illegible | NotObject | Object(obj: Obj)
  datatype Line = Line(blank: bool, namesRateLimit: bool, namesMarker: bool, json: Json)

  /** A stripped output: its lines, what parses as a whole, and the object that ends it, if any. */
  datatype Output = Output(lines: seq<Line>, whole: Json, trailing: Option<Obj>)

  datatype Why = RateLimit | Interruption(rc: int) | ExitCode(rc: int) | Empty | NotJson | Flagged | Preflight
  datatype Parsed = Parsed(ok: bool, rateLimited: bool, interrupted: bool, error: Option<Why>, figures: Figures)

  /** An exception that escapes the parser. */
  datatype Escape = AttributeError | TypeError

  const NO_FIGURES := Figures(None, None, None, None, Usage(None, None, None, None, None))

  // --- the result event ---------------------------------------------------------------------------

  predicate IsObject(line: Line) {
    !line.blank && line.json.Object?
  }

  predicate IsResult(line: Line) {
    IsObject(line) && line.json.obj.tag == ResultTag
  }

  /** The last line that `keep` holds of. */
  function LastLine(lines: seq<Line>, keep: Line -> bool): (r: Option<Line>)
    ensures r.Some? ==> keep(r.value)
  {
    if lines == [] then None
    else if keep(lines[|lines| - 1]) then Some(lines[|lines| - 1])
    else LastLine(lines[..|lines| - 1], keep)
  }

  lemma {:induction false} LastLineIsAmong(lines: seq<Line>, keep: Line -> bool)
    ensures LastLine(lines, keep).Some? ==> LastLine(lines, keep).value in lines
    ensures LastLine(lines, keep).None? <==> forall l :: l in lines ==> !keep(l)
  {
    if lines != [] {
      LastLineIsAmong(lines[..|lines| - 1], keep);
      assert forall l :: l in lines ==> l in lines[..|lines| - 1] || l == lines[|lines| - 1];
    }
  }

  lemma LastLineGrows(lines: seq<Line>, i: nat, keep: Line -> bool)
    requires i < |lines|
    ensures LastLine(lines[..i+1], keep) == if keep(lines[i]) then Some(lines[i]) else LastLine(lines[..i], keep)
  {
    assert lines[..i+1][..i] == lines[..i];
  }

  function ResultOf(out: Output): Option<Obj> {
    if out.whole.Object? then Some(out.whole.obj)
    else
      var verdict := LastLine(out.lines, IsResult);
      var last := LastLine(out.lines, IsObject);
      if verdict.Some? then Some(verdict.value.json.obj)
      else if last.Some? && !last.value.json.obj.bare then Some(last.value.json.obj)
      else out.trailing
  }

  /** `_result_event`. */
  method ResultEvent(out: Output) returns (event: Option<Obj>)
    ensures event == ResultOf(out)
  {
    if out.whole.Object? {
      return Some(out.whole.obj);
    }
    var verdict, last: Option<Line> := None, None;
    for i := 0 to |out.lines|
      invariant verdict == LastLine(out.lines[..i], IsResult) && last == LastLine(out.lines[..i], IsObject)
    {
      LastLineGrows(out.lines, i, IsResult);
      LastLineGrows(out.lines, i, IsObject);
      if IsObject(out.lines[i]) {
        last := Some(out.lines[i]);
        if out.lines[i].json.obj.tag == ResultTag {
          verdict := Some(out.lines[i]);
        }
      }
    }
    assert out.lines[..|out.lines|] == out.lines;
    if verdict.Some? {
      return Some(verdict.value.json.obj);
    }
    event := if last.Some? && !last.value.json.obj.bare then Some(last.value.json.obj) else out.trailing;
  }

  // --- the rate limit -------------------------------------------------------------------------------

  predicate Searched(line: Line) {
    !line.blank && line.namesRateLimit && !line.json.Illegible?
  }

  predicate IsRejection(line: Line) {
    Searched(line) && line.json.Object? && line.json.obj.tag == RateLimitTag && line.json.obj.limit == Info(true)
  }

  /** `_rate_limit_rejection`: a searched line that is JSON but not an object has no `get`. */
  method RateLimitRejection(lines: seq<Line>) returns (rejected: Result<bool, Escape>)
    ensures rejected == Err(AttributeError) <==> exists l :: l in lines && Searched(l) && l.json.NotObject?
    ensures rejected.Err? ==> rejected == Err(AttributeError)
    ensures rejected.Ok? ==> (rejected.value <==> exists l :: l in lines && IsRejection(l))
  {
    var hit := false;
    for i := 0 to |lines|
      invariant hit <==> exists j :: 0 <= j < i && IsRejection(lines[j])
      invariant forall j :: 0 <= j < i ==> !(Searched(lines[j]) && lines[j].json.NotObject?)
    {
      if Searched(lines[i]) {
        if lines[i].json.NotObject? {
          return Err(AttributeError);
        }
        hit := hit || (lines[i].json.obj.tag == RateLimitTag && lines[i].json.obj.limit == Info(true));
      }
    }
    return Ok(hit);
  }

  // --- the interruption -------------------------------------------------------------------------------

  datatype Scan = Nothing | Marked | Raises

  /** `any(...)` over the blocks: the first marked one wins, an unsearchable one before it raises. */
  function ScanBlocks(blocks: seq<Block>): Scan {
    if blocks == [] then Nothing
    else match blocks[0]
         case TextBlock(true) => Marked
         case Unsearchable => Raises
         case _ => ScanBlocks(blocks[1..])
  }

  function ScanLine(line: Line): Scan {
    if line.blank || !line.namesMarker || !line.json.Object? || line.json.obj.tag != UserTag then Nothing
    else match line.json.obj.message
         case NoMessage => Nothing
         case Plain(marked) => if marked then Marked else Nothing
         case Blocks(blocks) => ScanBlocks(blocks)
  }

  function ScanLines(lines: seq<Line>): Scan {
    if lines == [] then Nothing
    else if ScanLine(lines[0]) != Nothing then ScanLine(lines[0])
    else ScanLines(lines[1..])
  }

  /** `_signal_interruption`. */
  method SignalInterruption(lines: seq<Line>) returns (found: Result<bool, Escape>)
    ensures found == match ScanLines(lines)
                     case Nothing => Ok(false)
                     case Marked => Ok(true)
                     case Raises => Err(TypeError)
  {
    for i := 0 to |lines|
      invariant ScanLines(lines) == ScanLines(lines[i..])
    {
      assert lines[i..][1..] == lines[i+1..];
      match ScanLine(lines[i]) {
        case Marked => return Ok(true);
        case Raises => return Err(TypeError);
        case Nothing =>
      }
    }
    return Ok(false);
  }

  // --- the verdict --------------------------------------------------------------------------------------

  function Failure(why: Why): Parsed {
    Parsed(false, false, false, Some(why), NO_FIGURES)
  }

  function Parse(out: Output, rc: int): Result<Parsed, Escape> {
    if exists l :: l in out.lines && Searched(l) && l.json.NotObject? then Err(AttributeError)
    else if exists l :: l in out.lines && IsRejection(l) then Ok(Failure(RateLimit).(rateLimited := true))
    else
      match ScanLines(out.lines)
      case Raises => Err(TypeError)
      case Marked => Ok(Failure(Interruption(rc)).(interrupted := true))
      case Nothing =>
        if rc != 0 then Ok(Failure(ExitCode(rc)))
        else if out.lines == [] then Ok(Failure(Empty))
        else
          match ResultOf(out)
          case None => Ok(Failure(NotJson))
          case Some(obj) =>
            var bad := obj.isError || obj.apiError;
            Ok(Parsed(!bad, false, false, if bad then Some(Flagged) else None, obj.figures))
  }

  /** `parse_headless_result`. */
  method ParseHeadlessResult(out: Output, rc: int) returns (parsed: Result<Parsed, Escape>)
    ensures parsed == Parse(out, rc)
  {
    var rejected := RateLimitRejection(out.lines);
    if rejected.Err? {
      return Err(AttributeError);
    }
    if rejected.value {
      return Ok(Failure(RateLimit).(rateLimited := true));
    }
    var interrupted := SignalInterruption(out.lines);
    if interrupted.Err? {
      return Err(TypeError);
    }
    if interrupted.value {
      return Ok(Failure(Interruption(rc)).(interrupted := true));
    }
    if rc != 0 {
      return Ok(Failure(ExitCode(rc)));
    }
    if out.lines == [] {
      return Ok(Failure(Empty));
    }
    var event := ResultEvent(out);
    if event.None? {
      return Ok(Failure(NotJson));
    }
    var bad := event.value.isError || event.value.apiError;
    return Ok(Parsed(!bad, false, false, if bad then Some(Flagged) else None, event.value.figures));
  }

  /** At most one of the three verdicts; and what is not a plain verdict carries no figures. */
  predicate Exclusive(p: Parsed) {
    && !(p.ok && p.rateLimited) && !(p.ok && p.interrupted) && !(p.rateLimited && p.interrupted)
    && (p.ok <==> p.error.None?)
    && (p.rateLimited || p.interrupted ==> p.figures == NO_FIGURES)
  }

  lemma VerdictsAreExclusive(out: Output, rc: int)
    ensures Parse(out, rc).Ok? ==> Exclusive(Parse(out, rc).value)
  {
  }

  /** The two held verdicts live in the text, not in the exit code: the reconciliation, which has no
      exit code, reads them the same. */
  lemma HeldVerdictsNeedNoExitCode(out: Output, rc: int, other: int)
    requires Parse(out, rc).Ok? && Parse(out, other).Ok?
    ensures Parse(out, rc).value.rateLimited == Parse(out, other).value.rateLimited
    ensures Parse(out, rc).value.interrupted == Parse(out, other).value.interrupted
  {
  }

  // --- the log of an interrupted worker -------------------------------------------------------------------

  predicate HasResult(log: Output) {
    exists l :: l in log.lines && IsResult(l)
  }

  /** `_terminal_result`: only a log that holds a terminal event has a verdict. */
  function Terminal(log: Option<Output>): Option<Result<Parsed, Escape>> {
    if log.None? || !HasResult(log.value) then None else Some(Parse(log.value, 0))
  }

  /** A log cut before its verdict is never read as a success -- while the same text, read as the
      output of a worker that exited with 0, may well be. */
  lemma ACutLogIsNeverGreen(log: Output, cut: nat)
    requires cut <= |log.lines| && forall i :: 0 <= i < cut ==> !IsResult(log.lines[i])
    ensures Terminal(Some(log.(lines := log.lines[..cut]))).None?
  {
    var short := log.(lines := log.lines[..cut]);
    forall l | l in short.lines ensures !IsResult(l) {
      var i :| 0 <= i < |short.lines| && short.lines[i] == l;
      assert log.lines[i] == l;
    }
  }

  /** Line `i` is the last object among the lines. */
  ghost predicate LastObject(lines: seq<Line>, i: nat) {
    i < |lines| && IsObject(lines[i]) && forall k :: i < k < |lines| ==> !IsObject(lines[k])
  }

  /** What stands in for the result event of an output that has none: the whole output if it is one
      object, else the last object among its lines unless it is empty, else the object that ends it. */
  ghost predicate StandsIn(out: Output, obj: Obj) {
    if out.whole.Object? then out.whole.obj == obj
    else if exists i: nat :: LastObject(out.lines, i) && !out.lines[i].json.obj.bare
         then exists i: nat :: LastObject(out.lines, i) && out.lines[i].json.obj == obj
    else out.trailing == Some(obj)
  }

  /** No line raises, rejects or interrupts. */
  ghost predicate Quiet(lines: seq<Line>) {
    forall l :: l in lines ==> !(Searched(l) && l.json.NotObject?) && !IsRejection(l) && ScanLine(l) == Nothing
  }

  /** GREEN WITHOUT A VERDICT, exactly. An output that holds no result event is nevertheless a success if
      and only if the worker exited with 0 after saying something, no line raises, rejects or interrupts,
      and any object at all stands in for the event, without either error flag. */
  lemma GreenWithoutVerdictExactly(out: Output, rc: int)
    requires !HasResult(out)
    ensures Parse(out, rc).Ok? && Parse(out, rc).value.ok <==>
              rc == 0 && out.lines != [] && Quiet(out.lines)
              && exists obj :: StandsIn(out, obj) && !obj.isError && !obj.apiError
  {
    hide ScanLine, ScanLines, StandsIn, ResultOf;
    NothingInEachLine(out.lines);
    if ResultOf(out).Some? {
      StandInIsRead(out, ResultOf(out).value);
    }
    if obj :| StandsIn(out, obj) && !obj.isError && !obj.apiError {
      StandInIsRead(out, obj);
    }
  }

  lemma StandInIsRead(out: Output, obj: Obj)
    requires !HasResult(out)
    ensures StandsIn(out, obj) <==> ResultOf(out) == Some(obj)
  {
    forall i: nat | LastObject(out.lines, i) ensures LastLine(out.lines, IsObject) == Some(out.lines[i]) {
      LastLineIsLast(out.lines, i);
    }
    LastLineIsAmong(out.lines, IsResult);
    if LastLine(out.lines, IsObject).Some? {
      var i := LastObjectExists(out.lines);
    }
  }

  lemma {:induction false} LastLineIsLast(lines: seq<Line>, i: nat)
    requires LastObject(lines, i)
    ensures LastLine(lines, IsObject) == Some(lines[i])
  {
    hide IsObject;
    if i < |lines| - 1 {
      LastLineIsLast(lines[..|lines| - 1], i);
    }
  }

  lemma {:induction false} LastObjectExists(lines: seq<Line>) returns (i: nat)
    requires LastLine(lines, IsObject).Some?
    ensures LastObject(lines, i)
  {
    hide IsObject;
    i := |lines| - 1;
    if !IsObject(lines[i]) {
      i := LastObjectExists(lines[..i]);
    }
  }

  lemma {:induction false} NothingInEachLine(lines: seq<Line>)
    ensures ScanLines(lines) == Nothing <==> forall l :: l in lines ==> ScanLine(l) == Nothing
  {
    hide ScanLine;
    if lines != [] {
      NothingInEachLine(lines[1..]);
      assert forall l :: l in lines <==> l == lines[0] || l in lines[1..];
    }
  }

  // --- each verdict, read off the lines -------------------------------------------------------------------

  /** JSON that names the event and is not an object. */
  predicate Strays(l: Line) {
    !l.blank && l.namesRateLimit && l.json == NotObject
  }

  predicate Rejects(l: Line) {
    !l.blank && l.namesRateLimit && l.json.Object? && l.json.obj.tag == RateLimitTag && l.json.obj.limit == Info(true)
  }

  /** Block `k` settles the line: it bears the marker, or cannot be searched, and no block before it does. */
  ghost predicate Settles(blocks: seq<Block>, k: nat) {
    k < |blocks| && blocks[k] in {TextBlock(true), Unsearchable}
    && forall j :: 0 <= j < k ==> blocks[j] !in {TextBlock(true), Unsearchable}
  }

  predicate FromUser(l: Line) {
    !l.blank && l.namesMarker && l.json.Object? && l.json.obj.tag == UserTag
  }

  /** A message of the user bears the marker. */
  ghost predicate Stops(l: Line) {
    FromUser(l)
    && (l.json.obj.message == Plain(true)
        || (l.json.obj.message.Blocks?
            && exists k: nat :: Settles(l.json.obj.message.blocks, k)
                                && l.json.obj.message.blocks[k] == TextBlock(true)))
  }

  /** A message of the user cannot be searched. */
  ghost predicate Chokes(l: Line) {
    FromUser(l) && l.json.obj.message.Blocks?
    && exists k: nat :: Settles(l.json.obj.message.blocks, k) && l.json.obj.message.blocks[k] == Unsearchable
  }

  lemma {:induction false} FirstBlockSettles(blocks: seq<Block>)
    ensures ScanBlocks(blocks) == Marked <==> exists k: nat :: Settles(blocks, k) && blocks[k] == TextBlock(true)
    ensures ScanBlocks(blocks) == Raises <==> exists k: nat :: Settles(blocks, k) && blocks[k] == Unsearchable
  {
    if blocks != [] {
      var rest := blocks[1..];
      FirstBlockSettles(rest);
      if blocks[0] in {TextBlock(true), Unsearchable} {
        assert Settles(blocks, 0);
        assert forall k: nat :: Settles(blocks, k) ==> k == 0;
      } else {
        forall k: nat ensures Settles(rest, k) <==> Settles(blocks, k + 1) {
          assert forall j :: 0 <= j < |rest| ==> rest[j] == blocks[j + 1];
          if Settles(rest, k) {
            forall j | 0 <= j < k + 1 ensures blocks[j] !in {TextBlock(true), Unsearchable} {
              assert j == 0 || rest[j - 1] == blocks[j];
            }
          }
          if Settles(blocks, k + 1) {
            assert rest[k] == blocks[k + 1];
          }
        }
        forall k: nat | Settles(blocks, k) ensures k > 0 && Settles(rest, k - 1) && rest[k - 1] == blocks[k] {
          assert Settles(rest, k - 1) <==> Settles(blocks, k - 1 + 1);
        }
      }
    }
  }

  lemma LineSettles(l: Line)
    ensures ScanLine(l) == Marked <==> Stops(l)
    ensures ScanLine(l) == Raises <==> Chokes(l)
  {
    hide Settles, ScanBlocks;
    if l.json.Object? && l.json.obj.message.Blocks? {
      FirstBlockSettles(l.json.obj.message.blocks);
    }
  }

  /** Line `i` is the first of the user's that settles anything. */
  ghost predicate Interrupts(lines: seq<Line>, i: nat) {
    i < |lines| && (Stops(lines[i]) || Chokes(lines[i]))
    && forall j :: 0 <= j < i ==> !Stops(lines[j]) && !Chokes(lines[j])
  }

  lemma {:induction false} FirstLineSettles(lines: seq<Line>) returns (i: nat)
    ensures if ScanLines(lines) == Nothing then i == |lines| && forall l :: l in lines ==> !Stops(l) && !Chokes(l)
            else Interrupts(lines, i) && ScanLines(lines) == ScanLine(lines[i])
  {
    hide Stops, Chokes, ScanLine;
    if lines == [] {
      i := 0;
    } else {
      LineSettles(lines[0]);
      if ScanLine(lines[0]) != Nothing {
        i := 0;
      } else {
        var k := FirstLineSettles(lines[1..]);
        i := k + 1;
        assert forall j :: 0 <= j < |lines[1..]| ==> lines[1..][j] == lines[j + 1];
        assert forall l :: l in lines ==> l == lines[0] || l in lines[1..];
        if ScanLines(lines) != Nothing {
          forall j | 0 <= j < i ensures !Stops(lines[j]) && !Chokes(lines[j]) {
            assert j == 0 || lines[1..][j - 1] == lines[j];
          }
        }
      }
    }
  }

  /** THE HELD VERDICTS, exactly. A line that strays raises before anything is read; else a rejected event
      holds the feature; else the first message of the user that settles anything does, one way or the
      other; and only then does the exit code count. */
  lemma HeldExactly(out: Output, rc: int)
    ensures Parse(out, rc) == Err(AttributeError) <==> exists l :: l in out.lines && Strays(l)
    ensures Parse(out, rc).Ok? && Parse(out, rc).value.rateLimited <==>
              (forall l :: l in out.lines ==> !Strays(l)) && exists l :: l in out.lines && Rejects(l)
    ensures Parse(out, rc).Ok? && Parse(out, rc).value.interrupted <==>
              (forall l :: l in out.lines ==> !Strays(l) && !Rejects(l))
              && exists i: nat :: Interrupts(out.lines, i) && Stops(out.lines[i])
    ensures Parse(out, rc) == Err(TypeError) <==>
              (forall l :: l in out.lines ==> !Strays(l) && !Rejects(l))
              && exists i: nat :: Interrupts(out.lines, i) && Chokes(out.lines[i])
  {
    hide Stops, Chokes, ScanLine, ResultOf;
    assert forall l :: l in out.lines ==> (Strays(l) <==> Searched(l) && l.json.NotObject?);
    assert forall l :: l in out.lines ==> (Rejects(l) <==> IsRejection(l));
    var first := FirstLineSettles(out.lines);
    if first < |out.lines| {
      LineSettles(out.lines[first]);
    }
    forall i: nat | Interrupts(out.lines, i) ensures i == first {
      assert out.lines[i] in out.lines;
    }
  }

  /** Line `i` is the last result event among the lines. */
  ghost predicate LastResult(lines: seq<Line>, i: nat) {
    i < |lines| && IsEvent(lines[i]) && forall k :: i < k < |lines| ==> !IsEvent(lines[k])
  }

  predicate IsEvent(l: Line) {
    !l.blank && l.json.Object? && l.json.obj.tag == ResultTag
  }

  lemma {:induction false} LastResultIsRead(lines: seq<Line>, i: nat)
    requires LastResult(lines, i)
    ensures LastLine(lines, IsResult) == Some(lines[i])
  {
    if i < |lines| - 1 {
      LastResultIsRead(lines[..|lines| - 1], i);
    }
  }

  /** THE PLAIN VERDICT, exactly. When no verdict is held and the worker exited with 0, an output whose last
      result event is `obj` -- or which is that object, alone -- is a success if and only if neither error
      flag is up, and its figures are those of `obj` in both cases; any other exit code is a failure without
      figures, whatever was printed. */
  lemma PlainExactly(out: Output, rc: int, obj: Obj)
    requires Parse(out, rc).Ok? && !Parse(out, rc).value.rateLimited && !Parse(out, rc).value.interrupted
    requires out.lines != []
    requires out.whole == Object(obj)
             || (!out.whole.Object?
                 && exists i: nat :: LastResult(out.lines, i) && out.lines[i].json == Object(obj))
    ensures var p := Parse(out, rc).value;
            (p.ok <==> rc == 0 && !obj.isError && !obj.apiError)
            && p.figures == (if rc == 0 then obj.figures else NO_FIGURES)
            && p.error == (if p.ok then None else if rc == 0 then Some(Flagged) else Some(ExitCode(rc)))
  {
    if !out.whole.Object? {
      var i: nat :| LastResult(out.lines, i) && out.lines[i].json == Object(obj);
      LastResultIsRead(out.lines, i);
    }
  }

  /** Why a held verdict, or an output with nothing to read, is not a success. */
  lemma OtherFailures(out: Output, rc: int)
    requires Parse(out, rc).Ok?
    ensures var p := Parse(out, rc).value;
            (p.rateLimited ==> p == Parsed(false, true, false, Some(RateLimit), NO_FIGURES))
            && (p.interrupted ==> p == Parsed(false, false, true, Some(Interruption(rc)), NO_FIGURES))
            && (!p.rateLimited && !p.interrupted && rc == 0 && out.lines == [] ==>
                  p == Parsed(false, false, false, Some(Empty), NO_FIGURES))
            && (!p.rateLimited && !p.interrupted && rc == 0 && out.lines != [] && !out.whole.Object?
                && out.trailing.None? && (forall l :: l in out.lines ==> l.blank || !l.json.Object?) ==>
                  p == Parsed(false, false, false, Some(NotJson), NO_FIGURES))
  {
    LastLineIsAmong(out.lines, IsResult);
    LastLineIsAmong(out.lines, IsObject);
  }

  /** Two lines of chatter are enough. */
  lemma AnOutputWithoutVerdictCanBeGreen() returns (out: Output)
    ensures !HasResult(out) && Parse(out, 0).Ok? && Parse(out, 0).value.ok
  {
    var chatter := Obj(OtherTag, NoInfo, NoMessage, false, false, false, NO_FIGURES);
    var line := Line(false, false, false, Object(chatter));
    out := Output([line, line], Illegible, None);
    assert LastObject(out.lines, 1);
    assert StandsIn(out, chatter);
    GreenWithoutVerdictExactly(out, 0);
  }

  /** One JSON line that is not an object but quotes the name of the event makes the parser raise,
      whatever surrounds it. */
  lemma AStrayArrayRaises(before: seq<Line>, after: seq<Line>, rc: int)
    ensures var stray := Line(false, true, false, NotObject);
            Parse(Output(before + [stray] + after, Illegible, None), rc) == Err(AttributeError)
  {
    var stray := Line(false, true, false, NotObject);
    assert (before + [stray] + after)[|before|] == stray;
  }
}
