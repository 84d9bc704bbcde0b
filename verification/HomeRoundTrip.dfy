/** A snapshot and its restoration undo each other (`snapshot.create`, `restore.restore`), journals
    included; and exactly what a restoration destroys. */
module HomeRoundTrip {
  import opened Prelude
  import opened HomeFiles
  import opened HomeSafety

  // --- the round trip -----------------------------------------------------------------------------

  function ScopeNames(scope: seq<Declared>): (names: seq<Name>)
    ensures |names| == |scope| && forall i :: 0 <= i < |names| ==> names[i] == scope[i].name
  {
    seq(|scope|, i requires 0 <= i < |scope| => scope[i].name)
  }

  /** Two names that differ at a position they both have cannot clash. */
  lemma DifferentPrefixes(a: Name, b: Name, i: nat)
    requires i < |a| && i < |b| && a[i] != b[i]
    ensures !Clash(a, b)
  {
    forall p ensures Touches(a, p) ==> |p| > i && p[i] == a[i] {
    }
    forall p ensures Touches(b, p) ==> |p| > i && p[i] == b[i] {
    }
  }

  /** The real scope is separated: none of its twelve names collide. */
  lemma EntriesAreSeparated()
    ensures Separated(ScopeNames(ENTRIES))
  {
    var names := ScopeNames(ENTRIES);
    DifferentPrefixes(names[0], names[1], 12);
    DifferentPrefixes(names[0], names[2], 0);
    DifferentPrefixes(names[1], names[2], 0);
  }

  ghost predicate FromScope(scope: seq<Declared>, n: Name) {
    exists j :: 0 <= j < |scope| && scope[j].name == n
  }

  lemma FromLonger(scope: seq<Declared>, n: Name)
    requires |scope| > 0
    ensures FromScope(scope, n) <==> FromScope(scope[..|scope| - 1], n) || n == scope[|scope| - 1].name
  {
    var init := scope[..|scope| - 1];
    if FromScope(init, n) {
      var j :| 0 <= j < |init| && init[j].name == n;
      assert scope[j].name == n;
    }
    if FromScope(scope, n) {
      var j :| 0 <= j < |scope| && scope[j].name == n;
      if j < |init| {
        assert init[j].name == n;
      }
    }
    assert scope[|init|].name == scope[|scope| - 1].name;
  }

  lemma LastIsApart(scope: seq<Declared>, n: Name)
    requires |scope| > 0 && Separated(ScopeNames(scope))
    requires FromScope(scope[..|scope| - 1], n)
    ensures !Clash(n, scope[|scope| - 1].name) && n != scope[|scope| - 1].name
  {
    var names := ScopeNames(scope);
    var j :| 0 <= j < |scope| - 1 && scope[..|scope| - 1][j].name == n;
    assert names[j] == n && names[|scope| - 1] == scope[|scope| - 1].name;
    Apart(n, scope[|scope| - 1].name, n);
  }

  /** Every name of a capture comes from the scope, and every entry is sound. */
  ghost predicate WellCaptured(c: Capture, scope: seq<Declared>, sha: Content -> Digest) {
    (forall e :: e in c.entries ==> e.name == e.restoreTo && FromScope(scope, e.name) && e.name in c.files
                                    && e.digest == sha(c.files[e.name].content))
    && (forall n :: n in c.absent ==> FromScope(scope, n))
    && (forall n :: n in c.files ==> FromScope(scope, n))
  }

  lemma {:induction false} CaptureIsSound(home: Home, scope: seq<Declared>, sha: Content -> Digest)
    requires Separated(ScopeNames(scope))
    ensures WellCaptured(CaptureOf(home, scope, sha), scope, sha)
  {
    if scope != [] {
      var init, d := scope[..|scope| - 1], scope[|scope| - 1];
      assert ScopeNames(init) == ScopeNames(scope)[..|init|];
      CaptureIsSound(home, init, sha);
      forall n {:trigger FromScope(init, n)} | FromScope(init, n) ensures FromScope(scope, n) && n != d.name {
        FromLonger(scope, n);
        LastIsApart(scope, n);
      }
      FromLonger(scope, d.name);
    }
  }

  lemma Inserted(names: seq<Name>, k: nat, x: Name)
    requires Separated(names) && k <= |names| && forall n :: n in names ==> !Clash(n, x)
    ensures Separated(names[..k] + [x] + names[k..])
  {
    hide Clash;
    var more := names[..k] + [x] + names[k..];
    forall i, j | 0 <= i < j < |more| ensures !Clash(more[i], more[j]) {
      if i == k {
        assert more[j] == names[j - 1] && names[j - 1] in names;
        ClashIsMutual(x, names[j - 1]);
      } else if j == k {
        assert more[i] == names[i] && names[i] in names;
      } else {
        assert more[i] == names[if i < k then i else i - 1] && more[j] == names[if j < k then j else j - 1];
      }
    }
  }

  lemma ClashIsMutual(a: Name, b: Name)
    ensures Clash(a, b) <==> Clash(b, a)
  {
    if p :| Touches(a, p) && Touches(b, p) {
      assert Clash(a, b) && Clash(b, a);
    }
  }

  /** All the names of a capture, those found absent included, are separated. */
  lemma {:induction false} CaptureIsSeparated(home: Home, scope: seq<Declared>, sha: Content -> Digest)
    requires Separated(ScopeNames(scope))
    ensures Separated(Names(ManifestOf(CaptureOf(home, scope, sha))))
    ensures Separated(Targets(CaptureOf(home, scope, sha).entries))
  {
    if scope != [] {
      var init, d := scope[..|scope| - 1], scope[|scope| - 1];
      assert ScopeNames(init) == ScopeNames(scope)[..|init|];
      CaptureIsSeparated(home, init, sha);
      NamesOfCapture(home, init, sha);
      var before := CaptureOf(home, init, sha);
      var names := Names(ManifestOf(before));
      hide Clash, CaptureOf;
      forall n | n in names ensures !Clash(n, d.name) {
        LastIsApart(scope, n);
      }
      var k := if Value(home, d.name, d.via).Some? then |before.entries| else |names|;
      Inserted(names, k, d.name);
      NamesGrow(home, scope, sha);
    }
    hide Separated;
    PrefixIsSeparated(Names(ManifestOf(CaptureOf(home, scope, sha))), |CaptureOf(home, scope, sha).entries|);
    assert Targets(CaptureOf(home, scope, sha).entries)
        == Names(ManifestOf(CaptureOf(home, scope, sha)))[..|CaptureOf(home, scope, sha).entries|];
  }

  lemma NamesGrow(home: Home, scope: seq<Declared>, sha: Content -> Digest)
    requires scope != []
    ensures var d := scope[|scope| - 1];
            var before := CaptureOf(home, scope[..|scope| - 1], sha);
            var names := Names(ManifestOf(before));
            var k := if Value(home, d.name, d.via).Some? then |before.entries| else |names|;
            Names(ManifestOf(CaptureOf(home, scope, sha))) == names[..k] + [d.name] + names[k..]
  {
    var d := scope[|scope| - 1];
    var before, after := CaptureOf(home, scope[..|scope| - 1], sha), CaptureOf(home, scope, sha);
    var kept := Targets(before.entries);
    if Value(home, d.name, d.via).Some? {
      assert Targets(after.entries) == kept + [d.name] && after.absent == before.absent;
    } else {
      assert after.entries == before.entries && after.absent == before.absent + [d.name];
    }
    hide Value, CaptureOf;
    assert Names(ManifestOf(before)) == kept + before.absent;
  }

  lemma PrefixIsSeparated(names: seq<Name>, k: nat)
    requires Separated(names) && k <= |names|
    ensures Separated(names[..k])
  {
  }

  lemma NamesOfCapture(home: Home, scope: seq<Declared>, sha: Content -> Digest)
    requires Separated(ScopeNames(scope))
    ensures forall n :: n in Names(ManifestOf(CaptureOf(home, scope, sha))) ==> FromScope(scope, n)
  {
    var c := CaptureOf(home, scope, sha);
    CaptureIsSound(home, scope, sha);
    forall n | n in Names(ManifestOf(c)) ensures FromScope(scope, n) {
      var k :| 0 <= k < |Names(ManifestOf(c))| && Names(ManifestOf(c))[k] == n;
      if k < |c.entries| {
        assert c.entries[k] in c.entries;
      }
    }
  }

  /** Entry `j` of the scope is captured with its logical value, or listed as absent. */
  lemma {:induction false} CapturedAt(home: Home, scope: seq<Declared>, sha: Content -> Digest, j: nat)
    requires Separated(ScopeNames(scope)) && j < |scope|
    ensures var c, d := CaptureOf(home, scope, sha), scope[j];
            match Value(home, d.name, d.via)
            case None => d.name in c.absent && !Replaced(c.entries, d.name)
            case Some(v) =>
              Entry(d.name, d.name, sha(v), d.mode, d.via) in c.entries && d.name in c.files
              && c.files[d.name] == File(v, d.mode)
  {
    var init, last := scope[..|scope| - 1], scope[|scope| - 1];
    assert ScopeNames(init) == ScopeNames(scope)[..|init|];
    CaptureIsSound(home, init, sha);
    if j < |init| {
      CapturedAt(home, init, sha, j);
      assert init[j].name == scope[j].name;
      LastIsApart(scope, scope[j].name);
    } else if FromScope(init, last.name) {
      LastIsApart(scope, last.name);
      assert false;
    }
  }

  /** Everything `restore` needs to know about a snapshot taken by `create`. */
  lemma CaptureIsRestorable(home: Home, scope: seq<Declared>, sha: Content -> Digest)
    requires Separated(ScopeNames(scope))
    ensures var c := CaptureOf(home, scope, sha);
            (forall e :: e in c.entries ==> e.name in c.files && Sound(SnapshotOf(c), e, sha))
            && Separated(Targets(c.entries))
  {
    CaptureIsSound(home, scope, sha);
    CaptureIsSeparated(home, scope, sha);
  }

  /** A snapshot taken by `create` is refused for one reason only: the linked binary could not
      read its database, or could not be asked. And not even for that when the version of the snapshot's
      database cannot be read: the guard takes it for a snapshot without a database, and lets it through
      under any binary. */
  lemma OnlyTheBinaryCanRefuse(home: Home, scope: seq<Declared>, sha: Content -> Digest, legible: bool,
                               installed: Option<nat>, allow: bool)
    requires Separated(ScopeNames(scope))
    ensures var c := CaptureOf(home, scope, sha);
            Passes(SnapshotOf(c), sha, legible, installed, allow) <==>
              !legible || match SnapshotSchema(c.files, c.entries, true)
              case None => true
              case Some(s) => if installed.Some? then s <= installed.value else allow
  {
    CaptureIsRestorable(home, scope, sha);
    IllegibleHasNoSchema(CaptureOf(home, scope, sha).files, CaptureOf(home, scope, sha).entries);
  }

  lemma {:induction false} IllegibleHasNoSchema(files: map<Name, File>, entries: seq<Entry>)
    ensures SnapshotSchema(files, entries, false) == None
  {
    if entries != [] {
      IllegibleHasNoSchema(files, entries[1..]);
    }
  }

  lemma ApartFromCaptured(home: Home, scope: seq<Declared>, sha: Content -> Digest, j: nat, p: Name)
    requires Separated(ScopeNames(scope)) && j < |scope|
    requires Companion(scope[j].name, p)
    ensures var c := CaptureOf(home, scope, sha);
            !Temporary(c.entries, p) && (p != scope[j].name ==> !Replaced(c.entries, p))
  {
    var c := CaptureOf(home, scope, sha);
    CaptureIsSound(home, scope, sha);
    forall e | e in c.entries ensures e.restoreTo + TMP != p && (p != scope[j].name ==> e.restoreTo != p) {
      var i :| 0 <= i < |scope| && scope[i].name == e.restoreTo;
      OtherNamesAreApart(scope, i, j);
      if i != j {
        Apart(scope[j].name, scope[i].name, p);
      } else {
        assert (e.restoreTo + TMP)[|e.restoreTo|] == '.';
      }
    }
  }

  lemma OtherNamesAreApart(scope: seq<Declared>, i: nat, j: nat)
    requires Separated(ScopeNames(scope)) && i < |scope| && j < |scope|
    ensures i != j ==> !Clash(scope[j].name, scope[i].name)
  {
    var names := ScopeNames(scope);
    if i < j {
      assert !Clash(names[i], names[j]);
      Apart(names[i], names[j], names[i]);
    } else if j < i {
      assert !Clash(names[j], names[i]);
    }
  }

  lemma CapturedNamesInScope(home: Home, scope: seq<Declared>, sha: Content -> Digest, j: nat, p: Name)
    requires Separated(ScopeNames(scope)) && j < |scope| && Companion(scope[j].name, p)
    ensures InScope(Names(ManifestOf(CaptureOf(home, scope, sha))), p)
  {
    var c := CaptureOf(home, scope, sha);
    CapturedAt(home, scope, sha, j);
    if Value(home, scope[j].name, scope[j].via).Some? {
      var e :| e in c.entries && e.restoreTo == scope[j].name;
      var i :| 0 <= i < |c.entries| && c.entries[i] == e;
      assert Targets(c.entries)[i] == scope[j].name;
      assert Names(ManifestOf(c))[i] == scope[j].name;
    }
    assert scope[j].name in Names(ManifestOf(c));
  }

  /** What a restoration leaves at a file of the scope, or at one of its journals. */
  lemma RestoredCompanion(home: Home, later: Home, scope: seq<Declared>, sha: Content -> Digest,
                          aside: nat, j: nat, p: Name)
    requires Separated(ScopeNames(scope)) && j < |scope| && Companion(scope[j].name, p)
    requires forall x :: x in later && x.InAside? ==> x.aside != aside
    ensures var c := CaptureOf(home, scope, sha);
            (forall e :: e in c.entries ==> e.name in c.files)
            && (!Replaced(c.entries, p) ==> InHome(p) !in Restored(later, SnapshotOf(c), ManifestOf(c), aside))
  {
    var c := CaptureOf(home, scope, sha);
    var m := ManifestOf(c);
    CaptureIsRestorable(home, scope, sha);
    ApartFromCaptured(home, scope, sha, j, p);
    CapturedNamesInScope(home, scope, sha, j, p);
    if !Replaced(c.entries, p) {
      var d := Displaced(later, Names(m));
      MovedAt(later, d, aside, InHome(p));
      PlacedElsewhere(Moved(later, d, aside), c.files, c.entries, InHome(p));
    }
  }

  /** THE ROUND TRIP. Take a snapshot, let the instance change in any way whatsoever, restore it:
      every declared file has its logical value of then, absent ones are absent again, and no
      journal of the replaced database is left to replay over the restored one. */
  lemma RoundTrip(home: Home, later: Home, scope: seq<Declared>, sha: Content -> Digest, aside: nat, j: nat)
    requires Separated(ScopeNames(scope)) && j < |scope|
    requires forall x :: x in later && x.InAside? ==> x.aside != aside
    ensures var c := CaptureOf(home, scope, sha);
            (forall e :: e in c.entries ==> e.name in c.files)
            && var after := Restored(later, SnapshotOf(c), ManifestOf(c), aside);
            Value(after, scope[j].name, scope[j].via) == Value(home, scope[j].name, scope[j].via)
            && InHome(scope[j].name + WAL) !in after && InHome(scope[j].name + SHM) !in after
            && (InHome(scope[j].name) in after ==> after[InHome(scope[j].name)].mode == scope[j].mode)
  {
    var c := CaptureOf(home, scope, sha);
    var d := scope[j];
    CaptureIsRestorable(home, scope, sha);
    CapturedAt(home, scope, sha, j);
    forall p | p == d.name + WAL || p == d.name + SHM ensures !Replaced(c.entries, p) {
      ApartFromCaptured(home, scope, sha, j, p);
    }
    RestoredCompanion(home, later, scope, sha, aside, j, d.name);
    RestoredCompanion(home, later, scope, sha, aside, j, d.name + WAL);
    RestoredCompanion(home, later, scope, sha, aside, j, d.name + SHM);
    if Value(home, d.name, d.via).Some? {
      var v := Value(home, d.name, d.via).value;
      var e := Entry(d.name, d.name, sha(v), d.mode, d.via);
      var i :| 0 <= i < |c.entries| && c.entries[i] == e;
      PlacedAt(Moved(later, Displaced(later, Names(ManifestOf(c))), aside), c.files, c.entries, i);
    }
  }

  lemma TemporariesAreOutOfScope(home: Home, scope: seq<Declared>, sha: Content -> Digest, p: Name)
    requires Separated(ScopeNames(scope))
    requires Temporary(CaptureOf(home, scope, sha).entries, p)
    ensures !InScope(Names(ManifestOf(CaptureOf(home, scope, sha))), p)
  {
    var c := CaptureOf(home, scope, sha);
    CaptureIsSound(home, scope, sha);
    if InScope(Names(ManifestOf(c)), p) {
      var n :| n in Names(ManifestOf(c)) && Companion(n, p);
      var k :| 0 <= k < |Names(ManifestOf(c))| && Names(ManifestOf(c))[k] == n;
      if k < |c.entries| {
        assert c.entries[k] in c.entries;
      } else {
        assert n in c.absent;
      }
      var j :| 0 <= j < |scope| && scope[j].name == n;
      ApartFromCaptured(home, scope, sha, j, p);
      assert false;
    }
  }

  /** Exactly which files of the instance a restoration destroys: a leftover `<entry>.tmp` in the
      home, overwritten by the copy and consumed by the rename. Everything else is where it was, or
      in the aside directory. */
  lemma OnlyTemporariesAreConsumed(home: Home, later: Home, scope: seq<Declared>, sha: Content -> Digest,
                                   aside: nat, l: Loc)
    requires Separated(ScopeNames(scope)) && l in later
    requires forall x :: x in later && x.InAside? ==> x.aside != aside
    ensures var c := CaptureOf(home, scope, sha);
            (forall e :: e in c.entries ==> e.name in c.files)
            && var after := Restored(later, SnapshotOf(c), ManifestOf(c), aside);
            (((l in after && after[l] == later[l])
              || (l.InHome? && InAside(aside, l.name) in after && after[InAside(aside, l.name)] == later[l]))
             <==> !(l.InHome? && Temporary(c.entries, l.name)))
  {
    var c := CaptureOf(home, scope, sha);
    var m := ManifestOf(c);
    CaptureIsRestorable(home, scope, sha);
    var d := Displaced(later, Names(m));
    RestoreLosesNothing(later, SnapshotOf(c), m, aside, Restored(later, SnapshotOf(c), m, aside));
    if l.InHome? && Temporary(c.entries, l.name) {
      TemporariesAreOutOfScope(home, scope, sha, l.name);
      var e :| e in c.entries && e.restoreTo + TMP == l.name;
      var i :| 0 <= i < |c.entries| && c.entries[i] == e;
      PlacedAt(Moved(later, d, aside), c.files, c.entries, i);
      MovedAt(later, d, aside, InAside(aside, l.name));
      PlacedElsewhere(Moved(later, d, aside), c.files, c.entries, InAside(aside, l.name));
    } else if l.InHome? && InScope(Names(m), l.name) {
      assert l.name in d;
    }
  }

  /** Leaving the old journal beside the restored database would undo the restoration: unless that
      journal is empty, the database no longer has the snapshot's value. */
  lemma KeepingTheJournalUndoesTheRestore(after: Home, name: Name, journal: File)
    requires InHome(name) in after && InHome(name + WAL) !in after
    ensures Value(after[InHome(name + WAL) := journal], name, VacuumInto) == Value(after, name, VacuumInto)
            <==> journal.content == []
  {
    var restored := after[InHome(name)].content;
    assert |name + WAL| != |name|;
    assert |restored + journal.content| == |restored| + |journal.content|;
    assert journal.content == [] ==> restored + journal.content == restored;
  }

  // --- in terms of the files alone ------------------------------------------------------------------------

  /** What a reader of the live database sees: its file, then its journal, if there is one. */
  function Live(home: Home): Content
    requires InHome("forgemaster.db") in home
  {
    home[InHome("forgemaster.db")].content
    + if InHome("forgemaster.db-wal") in home then home[InHome("forgemaster.db-wal")].content else []
  }

  /** THE INSTANCE IS BACK. Whatever happened between the snapshot and the restoration: the database holds
      what its readers saw, journal included, and no journal is beside it; the environment and the secrets
      are byte for byte what they were, readable by their owner alone; and what was absent is absent. */
  lemma TheInstanceIsBack(home: Home, later: Home, sha: Content -> Digest, aside: nat)
    requires forall x :: x in later && x.InAside? ==> x.aside != aside
    ensures var c := CaptureOf(home, ENTRIES, sha);
            (forall e :: e in c.entries ==> e.name in c.files)
            && var after := Restored(later, SnapshotOf(c), ManifestOf(c), aside);
            var db, env, sec := InHome("forgemaster.db"), InHome("forgemaster.env"), InHome("secrets/store.enc");
            (if db in home then db in after && after[db] == File(Live(home), 0x1A4) else db !in after)
            && InHome("forgemaster.db-wal") !in after && InHome("forgemaster.db-shm") !in after
            && (if env in home then env in after && after[env] == File(home[env].content, 0x180) else env !in after)
            && (if sec in home then sec in after && after[sec] == File(home[sec].content, 0x180) else sec !in after)
  {
    EntriesAreSeparated();
    hide CaptureOf, Restored, Separated;
    RoundTrip(home, later, ENTRIES, sha, aside, 0);
    RoundTrip(home, later, ENTRIES, sha, aside, 1);
    RoundTrip(home, later, ENTRIES, sha, aside, 2);
    assert "forgemaster.db" + WAL == "forgemaster.db-wal" && "forgemaster.db" + SHM == "forgemaster.db-shm";
  }

  /** `v` is the last version that a log sets, or zero if it sets none. */
  ghost predicate LastSet(c: Content, v: nat) {
    if exists i :: 0 <= i < |c| && c[i].SetVersion?
    then exists i :: 0 <= i < |c| && c[i] == SetVersion(v) && forall j :: i < j < |c| ==> c[j].Row?
    else v == 0
  }

  lemma {:induction false} VersionIsLastSet(c: Content, v: nat)
    ensures UserVersion(c) == v <==> LastSet(c, v)
  {
    if c != [] {
      var init, last := c[..|c| - 1], c[|c| - 1];
      VersionIsLastSet(init, v);
      if last.SetVersion? {
        assert c[|c| - 1] == SetVersion(last.schema);
        if i :| 0 <= i < |c| && c[i] == SetVersion(v) && forall j :: i < j < |c| ==> c[j].Row? {
          assert i == |c| - 1;
        }
      } else {
        LastIsARow(c, v);
      }
    }
  }

  lemma LastIsARow(c: Content, v: nat)
    requires c != [] && c[|c| - 1].Row?
    ensures LastSet(c, v) <==> LastSet(c[..|c| - 1], v)
  {
    var init := c[..|c| - 1];
    assert forall i :: 0 <= i < |init| ==> init[i] == c[i];
    if i :| 0 <= i < |c| && c[i].SetVersion? {
      assert init[i].SetVersion?;
    }
    if i :| 0 <= i < |c| && c[i] == SetVersion(v) && forall j :: i < j < |c| ==> c[j].Row? {
      assert init[i] == SetVersion(v);
    }
  }

  /** When only the first declared file is a database, only the first entry can be one. */
  lemma {:induction false} FirstIsTheDatabase(home: Home, scope: seq<Declared>, sha: Content -> Digest)
    requires scope != [] && Separated(ScopeNames(scope))
    requires forall k :: 0 < k < |scope| ==> !IsDatabase(scope[k].name)
    ensures var c, d := CaptureOf(home, scope, sha), scope[0];
            match Value(home, d.name, d.via)
            case Some(v) => c.entries != [] && c.entries[0].name == c.entries[0].restoreTo == d.name
                            && d.name in c.files && c.files[d.name].content == v
            case None => forall e :: e in c.entries ==> !IsDatabase(e.restoreTo)
  {
    hide IsDatabase, Value;
    var init, last := scope[..|scope| - 1], scope[|scope| - 1];
    if init == [] {
      assert CaptureOf(home, init, sha) == Capture(map[], [], []);
    } else {
      assert ScopeNames(init) == ScopeNames(scope)[..|init|];
      PrefixIsSeparated(ScopeNames(scope), |init|);
      FirstIsTheDatabase(home, init, sha);
      assert init[0].name == scope[0].name && FromScope(init, scope[0].name);
      LastIsApart(scope, scope[0].name);
    }
  }

  /** The only database of a capture of the instance is its own, and it comes first. */
  lemma SchemaOfTheCapture(home: Home, sha: Content -> Digest, legible: bool)
    ensures var c := CaptureOf(home, ENTRIES, sha);
            SnapshotSchema(c.files, c.entries, legible)
            == if legible && InHome("forgemaster.db") in home then Some(UserVersion(Live(home))) else None
  {
    var c := CaptureOf(home, ENTRIES, sha);
    hide UserVersion, CaptureOf;
    EntriesAreSeparated();
    NotDatabases();
    FirstIsTheDatabase(home, ENTRIES, sha);
    assert "forgemaster.db" + WAL == "forgemaster.db-wal";
    hide IsDatabase;
    if InHome("forgemaster.db") in home {
      assert Value(home, "forgemaster.db", VacuumInto) == Some(Live(home)) by {
        assert home[InHome("forgemaster.db")].content + [] == home[InHome("forgemaster.db")].content;
      }
    } else {
      NoDatabaseNoSchema(c.files, c.entries, legible);
    }
  }

  lemma NotDatabases()
    ensures IsDatabase("forgemaster.db") && !IsDatabase("forgemaster.env") && !IsDatabase("secrets/store.enc")
  {
    assert "forgemaster.db"[11..] == ".db";
    assert "forgemaster.env"[12..][0] == 'e' && "secrets/store.enc"[14..][0] == 'e';
  }

  lemma {:induction false} NoDatabaseNoSchema(files: map<Name, File>, entries: seq<Entry>, legible: bool)
    requires forall e :: e in entries ==> !IsDatabase(e.restoreTo)
    ensures SnapshotSchema(files, entries, legible) == None
  {
    if entries != [] {
      assert entries[0] in entries;
      NoDatabaseNoSchema(files, entries[1..], legible);
    }
  }

  /** REFUSED, exactly. A snapshot taken by `create` is refused as unreadable if and only if it holds the
      database, SQLite reads its version, and the last one set, journal included, is beyond what the linked
      binary answers; as undetermined, if and only if that binary does not answer and no flag lifts the doubt;
      and for nothing else. */
  lemma RefusedExactly(home: Home, sha: Content -> Digest, legible: bool, installed: Option<nat>, allow: bool)
    ensures var o := Objection(SnapshotOf(CaptureOf(home, ENTRIES, sha)), sha, legible, installed, allow);
            var judged := legible && InHome("forgemaster.db") in home;
            (o == Some(Unreadable) <==>
               judged && installed.Some? && exists v: nat :: LastSet(Live(home), v) && v > installed.value)
            && (o == Some(Undetermined) <==> judged && installed.None? && !allow)
            && o in {None, Some(Unreadable), Some(Undetermined)}
  {
    EntriesAreSeparated();
    CaptureIsRestorable(home, ENTRIES, sha);
    SchemaOfTheCapture(home, sha, legible);
    hide CaptureOf, UserVersion, LastSet, SnapshotSchema, Live;
    if InHome("forgemaster.db") in home {
      VersionIsLastSet(Live(home), UserVersion(Live(home)));
      forall v: nat | LastSet(Live(home), v) ensures v == UserVersion(Live(home)) {
        VersionIsLastSet(Live(home), v);
      }
    }
  }

  /** The other objections, on any snapshot: an incomplete one; one of another schema; one of whose entries is
      missing, or has another digest than it had. */
  lemma ObjectionsInOrder(snap: SnapshotDir, sha: Content -> Digest, legible: bool, installed: Option<nat>, allow: bool)
    ensures var o := Objection(snap, sha, legible, installed, allow);
            (o == Some(Incomplete) <==> snap.manifest.None?)
            && (o == Some(UnknownSchema) <==> snap.manifest.Some? && snap.manifest.value.schema != 1)
            && (o == Some(Damaged) <==>
                  snap.manifest.Some? && snap.manifest.value.schema == 1
                  && exists e :: e in snap.manifest.value.entries
                                 && (e.name !in snap.files || sha(snap.files[e.name].content) != e.digest))
  {
    hide SnapshotSchema;
  }

  /** Entry `i` is the first of the manifest that goes back to a name ending in `.db`. */
  ghost predicate FirstDatabase(entries: seq<Entry>, i: nat) {
    i < |entries| && Ends(entries[i].restoreTo) && forall j :: 0 <= j < i ==> !Ends(entries[j].restoreTo)
  }

  ghost predicate Ends(name: Name) {
    exists p: Name :: name == p + ".db"
  }

  lemma EndsExactly(name: Name)
    ensures Ends(name) <==> IsDatabase(name)
  {
    if IsDatabase(name) {
      assert name == name[..|name| - 3] + ".db";
    }
    if p: Name :| name == p + ".db" {
      assert name[|name| - 3..] == ".db";
    }
  }

  /** The first database of the manifest is in the snapshot, and `v` is its version. */
  ghost predicate Reads(files: map<Name, File>, entries: seq<Entry>, v: nat) {
    exists i: nat :: FirstDatabase(entries, i) && entries[i].name in files && LastSet(files[entries[i].name].content, v)
  }

  lemma {:induction false} SchemaOfTheFirst(files: map<Name, File>, entries: seq<Entry>, legible: bool, v: nat)
    ensures SnapshotSchema(files, entries, legible) == Some(v) <==> legible && Reads(files, entries, v)
  {
    hide LastSet, UserVersion, IsDatabase, Ends;
    if entries != [] {
      EndsExactly(entries[0].restoreTo);
      if Ends(entries[0].restoreTo) {
        assert FirstDatabase(entries, 0);
        if entries[0].name in files {
          VersionIsLastSet(files[entries[0].name].content, v);
        }
      } else {
        SchemaOfTheFirst(files, entries[1..], legible, v);
        FirstIsFurther(files, entries, v);
      }
    }
  }

  lemma FirstIsFurther(files: map<Name, File>, entries: seq<Entry>, v: nat)
    requires entries != [] && !Ends(entries[0].restoreTo)
    ensures Reads(files, entries, v) <==> Reads(files, entries[1..], v)
  {
    hide Ends, LastSet;
    var rest := entries[1..];
    assert forall i :: 0 < i < |entries| ==> entries[i] == rest[i - 1];
    if i: nat :| FirstDatabase(entries, i) && entries[i].name in files
                 && LastSet(files[entries[i].name].content, v) {
      assert FirstDatabase(rest, i - 1) && rest[i - 1] == entries[i];
    }
    if i: nat :| FirstDatabase(rest, i) && rest[i].name in files && LastSet(files[rest[i].name].content, v) {
      assert entries[i + 1] == rest[i] && FirstDatabase(entries, i + 1);
    }
  }

  /** And the last two, on any snapshot that is whole: they compare the version of the FIRST database of the
      manifest, when it can be read, with what the linked binary answers. */
  lemma SchemaObjections(snap: SnapshotDir, sha: Content -> Digest, legible: bool, installed: Option<nat>, allow: bool)
    requires snap.manifest.Some? && snap.manifest.value.schema == 1
    requires forall e :: e in snap.manifest.value.entries ==>
                           e.name in snap.files && sha(snap.files[e.name].content) == e.digest
    ensures var o := Objection(snap, sha, legible, installed, allow);
            var entries := snap.manifest.value.entries;
            (o == Some(Unreadable) <==>
               legible && installed.Some? && exists v: nat :: Reads(snap.files, entries, v) && v > installed.value)
            && (o == Some(Undetermined) <==>
                  legible && installed.None? && !allow && exists v: nat :: Reads(snap.files, entries, v))
            && o in {None, Some(Unreadable), Some(Undetermined)}
  {
    var entries := snap.manifest.value.entries;
    hide SnapshotSchema, Reads;
    forall v: nat ensures SnapshotSchema(snap.files, entries, legible) == Some(v) <==>
                            legible && Reads(snap.files, entries, v)
    {
      SchemaOfTheFirst(snap.files, entries, legible, v);
    }
  }

  /** The damages are named in the order of the manifest, each as often as its entry. */
  lemma {:induction false} DamagesInOrder(snap: SnapshotDir, a: seq<Entry>, e: Entry, b: seq<Entry>,
                                          sha: Content -> Digest)
    ensures Damages(snap, a + [e] + b, sha)
         == Damages(snap, a, sha)
            + (if e.name in snap.files && sha(snap.files[e.name].content) == e.digest then [] else [e.name])
            + Damages(snap, b, sha)
    decreases |b|
  {
    hide Sound;
    var all := a + [e] + b;
    if b == [] {
      assert all[..|all| - 1] == a && all[|all| - 1] == e;
      SoundExactly(snap, e, sha);
    } else {
      assert all[..|all| - 1] == a + [e] + b[..|b| - 1] && all[|all| - 1] == b[|b| - 1];
      DamagesInOrder(snap, a, e, b[..|b| - 1], sha);
    }
  }

  /** What leaves the home: of each name of the manifest, in order, the file, its journal and its index. */
  lemma DisplacedInOrder(home: Home, a: seq<Name>, n: Name, b: seq<Name>)
    ensures Displaced(home, a + [n] + b)
         == Displaced(home, a)
            + ((if InHome(n) in home then [n] else [])
               + (if InHome(n + "-wal") in home then [n + "-wal"] else [])
               + (if InHome(n + "-shm") in home then [n + "-shm"] else []))
            + Displaced(home, b)
    ensures Displaced(home, []) == []
  {
    SidecarsInOrder(home, n);
    DisplacedAround(home, a, n, b);
    hide WithSidecars;
  }

  lemma {:induction false} DisplacedAround(home: Home, a: seq<Name>, n: Name, b: seq<Name>)
    ensures Displaced(home, a + [n] + b) == Displaced(home, a) + WithSidecars(home, n) + Displaced(home, b)
    decreases |b|
  {
    hide WithSidecars, InScope;
    var all := a + [n] + b;
    if b == [] {
      assert all[..|all| - 1] == a && all[|all| - 1] == n;
    } else {
      assert all[..|all| - 1] == a + [n] + b[..|b| - 1] && all[|all| - 1] == b[|b| - 1];
      DisplacedAround(home, a, n, b[..|b| - 1]);
    }
  }

  /** A snapshot taken by `create` lists no file twice, so that a restoration of it that nothing interrupts is
      not cut short by a file that has already left. */
  lemma NothingLeavesTwice(home: Home, later: Home, scope: seq<Declared>, sha: Content -> Digest)
    requires Separated(ScopeNames(scope))
    ensures Distinct(Displaced(later, Names(ManifestOf(CaptureOf(home, scope, sha)))))
  {
    CaptureIsSeparated(home, scope, sha);
    hide CaptureOf, Separated, Distinct;
    DisplacedOnce(later, Names(ManifestOf(CaptureOf(home, scope, sha))));
  }

  lemma {:induction false} DisplacedOnce(home: Home, names: seq<Name>)
    requires Separated(names)
    ensures Distinct(Displaced(home, names))
  {
    if names != [] {
      var init, last := names[..|names| - 1], names[|names| - 1];
      PrefixIsSeparated(names, |init|);
      DisplacedOnce(home, init);
      forall p | p in Displaced(home, init) ensures p !in WithSidecars(home, last) {
        var n :| n in init && Companion(n, p);
        assert !Clash(n, last);
        assert Touches(n, p);
      }
      SidecarsOnce(home, last);
      hide Separated, WithSidecars, Clash;
      var a, b := Displaced(home, init), WithSidecars(home, last);
      assert Displaced(home, names) == a + b;
      forall i, j | 0 <= i < j < |a + b| ensures (a + b)[i] != (a + b)[j] {
        assert i < |a| <= j ==> a[i] in a && b[j - |a|] in b;
      }
    }
  }

  lemma SidecarsOnce(home: Home, n: Name)
    ensures Distinct(WithSidecars(home, n))
  {
    assert |n + WAL| > |n| && |n + SHM| > |n|;
    assert (n + WAL)[|n|..] == WAL && (n + SHM)[|n|..] == SHM;
    assert WAL[1] != SHM[1];
  }

  lemma SidecarsInOrder(home: Home, n: Name)
    ensures WithSidecars(home, n)
         == (if InHome(n) in home then [n] else [])
            + (if InHome(n + "-wal") in home then [n + "-wal"] else [])
            + (if InHome(n + "-shm") in home then [n + "-shm"] else [])
  {
  }

  lemma SoundExactly(snap: SnapshotDir, e: Entry, sha: Content -> Digest)
    ensures Sound(snap, e, sha) <==> e.name in snap.files && sha(snap.files[e.name].content) == e.digest
  {
  }
}
