/** What a restoration never does, wherever it stops: lose a displaced file, or leave half of one under
    a final name. */
module HomeSafety {
  import opened Prelude
  import opened HomeFiles

  // --- what the two loops leave at each place ---------------------------------------------------

  lemma {:induction false} MovedAt(home: Home, displaced: seq<Name>, aside: nat, l: Loc)
    requires forall p :: p in displaced ==> InHome(p) in home
    requires forall x :: x in home && x.InAside? ==> x.aside != aside
    ensures var h := Moved(home, displaced, aside);
            if l.InHome? && l.name in displaced then l !in h
            else if l.InAside? && l.aside == aside then
              (l in h <==> l.name in displaced) && (l in h ==> h[l] == home[InHome(l.name)])
            else (l in h <==> l in home) && (l in h ==> h[l] == home[l])
  {
    if displaced != [] {
      var init, p := displaced[..|displaced| - 1], displaced[|displaced| - 1];
      assert displaced == init + [p];
      MovedAt(home, init, aside, l);
      MovedAt(home, init, aside, InHome(p));
    }
  }

  /** The four names a restoration of `n` may touch. */
  predicate Touches(n: Name, p: Name) {
    Companion(n, p) || p == n + TMP
  }

  /** Two declared files that could get in each other's way. */
  ghost predicate Clash(a: Name, b: Name) {
    exists p :: Touches(a, p) && Touches(b, p)
  }

  /** No two declared files share a name, a journal or a temporary name. */
  ghost predicate Separated(names: seq<Name>) {
    forall i, j :: 0 <= i < j < |names| ==> !Clash(names[i], names[j])
  }

  lemma Apart(a: Name, b: Name, p: Name)
    requires !Clash(a, b)
    requires Touches(a, p)
    ensures p != b && p != b + TMP && p != b + WAL && p != b + SHM
    ensures !Clash(b, a)
  {
    assert !Touches(b, p);
    if q :| Touches(b, q) && Touches(a, q) {
    }
  }

  ghost predicate Replaced(entries: seq<Entry>, p: Name) {
    exists e :: e in entries && e.restoreTo == p
  }

  ghost predicate Temporary(entries: seq<Entry>, p: Name) {
    exists e :: e in entries && e.restoreTo + TMP == p
  }

  lemma {:induction false} PlacedElsewhere(home: Home, files: map<Name, File>, entries: seq<Entry>, l: Loc)
    requires forall e :: e in entries ==> e.name in files
    requires l.InHome? ==> !Replaced(entries, l.name) && !Temporary(entries, l.name)
    ensures var h := Placed(home, files, entries);
            (l in h <==> l in home) && (l in h ==> h[l] == home[l])
  {
    if entries != [] {
      var init, e := entries[..|entries| - 1], entries[|entries| - 1];
      assert e in entries && forall x :: x in init ==> x in entries;
      PlacedElsewhere(home, files, init, l);
    }
  }

  lemma {:induction false} PlacedAt(home: Home, files: map<Name, File>, entries: seq<Entry>, i: nat)
    requires forall e :: e in entries ==> e.name in files
    requires Separated(Targets(entries))
    requires i < |entries|
    ensures var h := Placed(home, files, entries);
            InHome(entries[i].restoreTo) in h
            && h[InHome(entries[i].restoreTo)] == File(files[entries[i].name].content, entries[i].mode)
            && InHome(entries[i].restoreTo + TMP) !in h
  {
    var init, last := entries[..|entries| - 1], entries[|entries| - 1];
    var t := Targets(entries);
    if i < |init| {
      assert Separated(Targets(init)) by {
        assert Targets(init) == t[..|init|];
      }
      PlacedAt(home, files, init, i);
      assert !Clash(t[i], t[|init|]);
      Apart(t[i], t[|init|], t[i]);
      Apart(t[i], t[|init|], t[i] + TMP);
    }
  }

  // --- crash safety -------------------------------------------------------------------------------

  /** A place a restoration has no business with. */
  ghost predicate Outside(m: Manifest, aside: nat, l: Loc) {
    if l.InHome? then !InScope(Names(m), l.name) && !Temporary(m.entries, l.name) else l.aside != aside
  }

  /** What holds at EVERY point of a restoration: each displaced file is intact, at its place or in
      the fresh aside directory; and nothing outside the scope, the temporary names and that
      directory has moved. */
  ghost predicate NothingLost(home: Home, m: Manifest, aside: nat, h: Home) {
    (forall p :: p in Displaced(home, Names(m)) ==>
       (InHome(p) in h && h[InHome(p)] == home[InHome(p)])
       || (InAside(aside, p) in h && h[InAside(aside, p)] == home[InHome(p)]))
    && (forall l: Loc :: Outside(m, aside, l) ==> (l in h <==> l in home) && (l in h ==> h[l] == home[l]))
  }

  /** No final name ever holds anything but the old file or the complete restored one. */
  ghost predicate NoHalfFile(home: Home, snap: SnapshotDir, m: Manifest, h: Home)
    requires forall e :: e in m.entries ==> e.name in snap.files
  {
    forall e :: e in m.entries && InHome(e.restoreTo) in h ==>
      h[InHome(e.restoreTo)] == File(snap.files[e.name].content, e.mode)
      || (InHome(e.restoreTo) in home && h[InHome(e.restoreTo)] == home[InHome(e.restoreTo)])
  }

  lemma MovesLoseNothing(home: Home, m: Manifest, aside: nat, i: nat)
    requires forall x :: x in home && x.InAside? ==> x.aside != aside
    requires i <= |Displaced(home, Names(m))|
    ensures NothingLost(home, m, aside, Moved(home, Displaced(home, Names(m))[..i], aside))
  {
    var all := Displaced(home, Names(m));
    var h := Moved(home, all[..i], aside);
    forall p | p in all
      ensures (InHome(p) in h && h[InHome(p)] == home[InHome(p)])
              || (InAside(aside, p) in h && h[InAside(aside, p)] == home[InHome(p)])
    {
      MovedAt(home, all[..i], aside, InHome(p));
      MovedAt(home, all[..i], aside, InAside(aside, p));
    }
    forall l: Loc | Outside(m, aside, l) ensures (l in h <==> l in home) && (l in h ==> h[l] == home[l]) {
      assert l.InHome? ==> l.name !in all;
      MovedAt(home, all[..i], aside, l);
    }
  }

  lemma TargetsInScope(m: Manifest, e: Entry)
    requires e in m.entries
    ensures InScope(Names(m), e.restoreTo)
  {
    var i :| 0 <= i < |m.entries| && m.entries[i] == e;
    assert Names(m)[i] == e.restoreTo;
    assert Companion(e.restoreTo, e.restoreTo);
  }

  lemma CopiesLoseNothing(home: Home, snap: SnapshotDir, m: Manifest, aside: nat, k: nat, h: Home)
    requires forall e :: e in m.entries ==> e.name in snap.files
    requires forall x :: x in home && x.InAside? ==> x.aside != aside
    requires k <= |m.entries|
    requires AtEntry(Moved(home, Displaced(home, Names(m)), aside), snap.files, m.entries, k, h)
    ensures NothingLost(home, m, aside, h)
  {
    var d := Displaced(home, Names(m));
    var base := Moved(home, d, aside);
    var done := m.entries[..k];
    assert forall e :: e in done ==> e in m.entries;
    forall e | e in m.entries ensures InScope(Names(m), e.restoreTo) {
      TargetsInScope(m, e);
    }
    forall p | p in d ensures InAside(aside, p) in h && h[InAside(aside, p)] == home[InHome(p)] {
      MovedAt(home, d, aside, InAside(aside, p));
      PlacedElsewhere(base, snap.files, done, InAside(aside, p));
    }
    forall l: Loc | Outside(m, aside, l)
      ensures (l in h <==> l in home) && (l in h ==> h[l] == home[l])
    {
      MovedAt(home, d, aside, l);
      PlacedElsewhere(base, snap.files, done, l);
      if k < |m.entries| {
        assert m.entries[k] in m.entries;
      }
    }
  }

  /** Restoring loses nothing, wherever it stops. */
  lemma RestoreLosesNothing(home: Home, snap: SnapshotDir, m: Manifest, aside: nat, h: Home)
    requires forall e :: e in m.entries ==> e.name in snap.files
    requires forall x :: x in home && x.InAside? ==> x.aside != aside
    requires Midway(home, snap, m, aside, h) || h == Restored(home, snap, m, aside)
    ensures NothingLost(home, m, aside, h)
  {
    var d := Displaced(home, Names(m));
    if i :| 0 <= i <= |d| && h == Moved(home, d[..i], aside) {
      MovesLoseNothing(home, m, aside, i);
    } else {
      if h == Restored(home, snap, m, aside) {
        assert m.entries[..|m.entries|] == m.entries;
        assert AtEntry(Moved(home, d, aside), snap.files, m.entries, |m.entries|, h);
      }
      var k :| 0 <= k <= |m.entries| && AtEntry(Moved(home, d, aside), snap.files, m.entries, k, h);
      CopiesLoseNothing(home, snap, m, aside, k, h);
    }
  }

  // --- no half-written file -----------------------------------------------------------------------

  lemma NotYetPlaced(entries: seq<Entry>, k: nat, i: nat, p: Name)
    requires k <= i < |entries|
    requires Separated(Targets(entries)) && Touches(entries[i].restoreTo, p)
    ensures !Replaced(entries[..k], p) && !Temporary(entries[..k], p)
  {
    var t := Targets(entries);
    forall j | 0 <= j < k ensures entries[j].restoreTo != p && entries[j].restoreTo + TMP != p {
      assert !Clash(t[j], t[i]);
      Apart(t[j], t[i], t[j]);
      Apart(t[i], t[j], p);
    }
  }

  /** At any crash point no final name holds a half-written file. */
  lemma NoFinalNameIsTorn(home: Home, snap: SnapshotDir, m: Manifest, aside: nat, h: Home)
    requires forall e :: e in m.entries ==> e.name in snap.files
    requires forall x :: x in home && x.InAside? ==> x.aside != aside
    requires Separated(Targets(m.entries))
    requires Midway(home, snap, m, aside, h)
    ensures NoHalfFile(home, snap, m, h)
  {
    var d := Displaced(home, Names(m));
    forall e | e in m.entries && InHome(e.restoreTo) in h
      ensures h[InHome(e.restoreTo)] == File(snap.files[e.name].content, e.mode)
              || (InHome(e.restoreTo) in home && h[InHome(e.restoreTo)] == home[InHome(e.restoreTo)])
    {
      var i :| 0 <= i < |m.entries| && m.entries[i] == e;
      if n :| 0 <= n <= |d| && h == Moved(home, d[..n], aside) {
        MovedAt(home, d[..n], aside, InHome(e.restoreTo));
      } else {
        var k :| 0 <= k <= |m.entries| && AtEntry(Moved(home, d, aside), snap.files, m.entries, k, h);
        FinalNameWhole(Moved(home, d, aside), snap.files, m.entries, k, h, i);
        MovedAt(home, d, aside, InHome(e.restoreTo));
      }
    }
  }

  lemma FinalNameWhole(base: Home, files: map<Name, File>, entries: seq<Entry>, k: nat, h: Home, i: nat)
    requires forall e :: e in entries ==> e.name in files
    requires Separated(Targets(entries)) && i < |entries| && k <= |entries|
    requires AtEntry(base, files, entries, k, h)
    ensures var l := InHome(entries[i].restoreTo);
            l in h ==> h[l] == File(files[entries[i].name].content, entries[i].mode) || (l in base && h[l] == base[l])
  {
    var t := Targets(entries);
    var at := Placed(base, files, entries[..k]);
    var l := InHome(entries[i].restoreTo);
    if k < |entries| && i != k {
      assert !Clash(t[if i < k then i else k], t[if i < k then k else i]);
      Apart(t[if i < k then i else k], t[if i < k then k else i], t[if i < k then i else k]);
      Apart(t[i], t[k], t[i]);
    }
    assert l in h ==> l in at && h[l] == at[l];
    if i < k {
      assert Targets(entries[..k]) == t[..k];
      PlacedAt(base, files, entries[..k], i);
      assert entries[..k][i] == entries[i];
    } else {
      NotYetPlaced(entries, k, i, entries[i].restoreTo);
      PlacedElsewhere(base, files, entries[..k], l);
    }
  }

  // --- the database, wherever it stops -------------------------------------------------------------

  /** A database leaves before its journal `p`. */
  lemma {:induction false} DatabaseLeavesFirst(home: Home, names: seq<Name>, n: Name, p: Name, i: nat)
    requires Separated(names) && n in names && InHome(n) in home && Companion(n, p)
    requires i <= |Displaced(home, names)| && p in Displaced(home, names)[..i]
    ensures n in Displaced(home, names)[..i]
  {
    hide Companion, WithSidecars, Displaced, InScope;
    var init, last := names[..|names| - 1], names[|names| - 1];
    assert names == init + [last];
    assert Separated(init) by {
      assert forall j :: 0 <= j < |init| ==> init[j] == names[j];
    }
    hide Separated;
    var before, tail := Displaced(home, init), WithSidecars(home, last);
    DisplacedUnfolds(home, names);
    if i <= |before| {
      assert (before + tail)[..i] == before[..i];
      if n in init {
        DatabaseLeavesFirst(home, init, n, p, i);
      } else {
        JournalOfTheLast(home, init, last, p);
        assert false;
      }
    } else if n in init {
      InScopeOfItself(home, init, n);
      var k :| 0 <= k < |before| && before[k] == n;
      assert (before + tail)[..i][k] == n;
    } else {
      assert (before + tail)[..i][|before|] == last;
    }
  }

  lemma DisplacedUnfolds(home: Home, names: seq<Name>)
    requires names != []
    ensures Displaced(home, names) == Displaced(home, names[..|names| - 1]) + WithSidecars(home, names[|names| - 1])
    ensures InHome(names[|names| - 1]) in home ==>
              WithSidecars(home, names[|names| - 1]) != []
              && WithSidecars(home, names[|names| - 1])[0] == names[|names| - 1]
  {
  }

  lemma InScopeOfItself(home: Home, names: seq<Name>, n: Name)
    requires n in names && InHome(n) in home
    ensures n in Displaced(home, names)
  {
    assert Companion(n, n) && InScope(names, n);
  }

  lemma JournalOfTheLast(home: Home, init: seq<Name>, last: Name, p: Name)
    requires Separated(init + [last]) && Companion(last, p)
    ensures p !in Displaced(home, init)
  {
    var names := init + [last];
    forall j | 0 <= j < |init| ensures !Companion(init[j], p) {
      assert names[j] == init[j] && names[|init|] == last && !Clash(names[j], names[|init|]);
      assert Touches(last, p);
    }
  }

  /** THE DATABASE, wherever a restoration stops: untouched, gone, or the snapshot's -- never a mixture
      of one database and the journal of another. */
  lemma CrashedDatabase(home: Home, snap: SnapshotDir, m: Manifest, aside: nat, h: Home, i: nat)
    requires forall e :: e in m.entries ==> e.name in snap.files
    requires forall x :: x in home && x.InAside? ==> x.aside != aside
    requires Separated(Names(m)) && i < |m.entries|
    requires Midway(home, snap, m, aside, h)
    ensures var e := m.entries[i];
            var now := Value(h, e.restoreTo, VacuumInto);
            now == Value(home, e.restoreTo, VacuumInto) || now == None || now == Some(snap.files[e.name].content)
  {
    var n := m.entries[i].restoreTo;
    var d := Displaced(home, Names(m));
    assert Names(m)[i] == n && n in Names(m);
    if k :| 0 <= k <= |d| && h == Moved(home, d[..k], aside) {
      MovingDatabase(home, Names(m), aside, n, k);
    } else {
      var k :| 0 <= k <= |m.entries| && AtEntry(Moved(home, d, aside), snap.files, m.entries, k, h);
      NoJournalComesBack(home, snap, m, aside, k, h, i);
      FinalNameWhole(Moved(home, d, aside), snap.files, m.entries, k, h, i);
    }
  }

  /** While the files are moved aside, a database reads as before or is gone: it leaves before its journal. */
  lemma MovingDatabase(home: Home, names: seq<Name>, aside: nat, n: Name, k: nat)
    requires forall x :: x in home && x.InAside? ==> x.aside != aside
    requires Separated(names) && n in names && k <= |Displaced(home, names)|
    ensures var now := Value(Moved(home, Displaced(home, names)[..k], aside), n, VacuumInto);
            now == Value(home, n, VacuumInto) || now == None
  {
    var d := Displaced(home, names);
    MovedAt(home, d[..k], aside, InHome(n));
    MovedAt(home, d[..k], aside, InHome(n + WAL));
    if n !in d[..k] && InHome(n) in home && n + WAL in d[..k] {
      DatabaseLeavesFirst(home, names, n, n + WAL, k);
    }
  }

  /** A database that the snapshot says was absent, wherever a restoration stops: untouched, or gone. */
  lemma CrashedAbsentDatabase(home: Home, snap: SnapshotDir, m: Manifest, aside: nat, h: Home, i: nat)
    requires forall e :: e in m.entries ==> e.name in snap.files
    requires forall x :: x in home && x.InAside? ==> x.aside != aside
    requires Separated(Names(m)) && i < |m.absent|
    requires Midway(home, snap, m, aside, h)
    ensures var now := Value(h, m.absent[i], VacuumInto);
            now == Value(home, m.absent[i], VacuumInto) || now == None
  {
    var n := m.absent[i];
    var d := Displaced(home, Names(m));
    assert Names(m)[|m.entries| + i] == n && n in Names(m);
    if k :| 0 <= k <= |d| && h == Moved(home, d[..k], aside) {
      MovingDatabase(home, Names(m), aside, n, k);
    } else {
      var k :| 0 <= k <= |m.entries| && AtEntry(Moved(home, d, aside), snap.files, m.entries, k, h);
      forall j | 0 <= j < |m.entries| ensures m.entries[j].restoreTo != n && m.entries[j].restoreTo + TMP != n {
        assert Names(m)[j] == m.entries[j].restoreTo && !Clash(Names(m)[j], Names(m)[|m.entries| + i]);
        Apart(m.entries[j].restoreTo, n, m.entries[j].restoreTo);
        Apart(m.entries[j].restoreTo, n, m.entries[j].restoreTo + TMP);
      }
      assert Companion(n, n);
      if InHome(n) in home {
        InScopeOfItself(home, Names(m), n);
      }
      MovedAt(home, d, aside, InHome(n));
      PlacedElsewhere(Moved(home, d, aside), snap.files, m.entries[..k], InHome(n));
    }
  }

  lemma NoJournalComesBack(home: Home, snap: SnapshotDir, m: Manifest, aside: nat, k: nat, h: Home, i: nat)
    requires forall e :: e in m.entries ==> e.name in snap.files
    requires forall x :: x in home && x.InAside? ==> x.aside != aside
    requires Separated(Names(m)) && i < |m.entries| && k <= |m.entries|
    requires AtEntry(Moved(home, Displaced(home, Names(m)), aside), snap.files, m.entries, k, h)
    ensures var n := m.entries[i].restoreTo;
            InHome(n + WAL) !in h && InHome(n) !in Moved(home, Displaced(home, Names(m)), aside)
            && Separated(Targets(m.entries))
  {
    var n := m.entries[i].restoreTo;
    var d := Displaced(home, Names(m));
    var base := Moved(home, d, aside);
    assert Targets(m.entries) == Names(m)[..|m.entries|];
    assert Names(m)[i] == n && n in Names(m) && Companion(n, n) && Companion(n, n + WAL);
    MovedAt(home, d, aside, InHome(n));
    MovedAt(home, d, aside, InHome(n + WAL));
    forall j | 0 <= j < |m.entries|
      ensures m.entries[j].restoreTo != n + WAL && m.entries[j].restoreTo + TMP != n + WAL
    {
      JournalIsNobodys(m, i, j);
    }
    PlacedElsewhere(base, snap.files, m.entries[..k], InHome(n + WAL));
  }

  lemma JournalIsNobodys(m: Manifest, i: nat, j: nat)
    requires Separated(Names(m)) && i < |m.entries| && j < |m.entries|
    ensures m.entries[j].restoreTo != m.entries[i].restoreTo + WAL
            && m.entries[j].restoreTo + TMP != m.entries[i].restoreTo + WAL
  {
    var a, b := m.entries[i].restoreTo, m.entries[j].restoreTo;
    assert Names(m)[i] == a && Names(m)[j] == b;
    if i == j {
      assert |a + WAL| == |a| + 4 && (a + WAL)[|a| + 1] == 'w' && (a + TMP)[|a| + 1] == 't';
    } else {
      assert !Clash(Names(m)[if i < j then i else j], Names(m)[if i < j then j else i]);
      Apart(Names(m)[if i < j then i else j], Names(m)[if i < j then j else i], Names(m)[if i < j then i else j]);
      Apart(a, b, a + WAL);
    }
  }
}
