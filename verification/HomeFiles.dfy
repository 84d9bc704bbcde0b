/** The instance's files: taking a snapshot (`snapshot.create`) and putting one back
    (`restore.restore`), down to the moves and copies a crash can separate. */
module HomeFiles {
  import opened Prelude

  /** A file is a log. For a database it is its committed transactions, some of which set the
      schema (`PRAGMA user_version`); its `-wal` neighbour holds the transactions not yet
      merged, which SQLite replays on top of it at the next opening. */
  datatype Record = Row(value: int) | SetVersion(schema: nat)
  type Content = seq<Record>
  datatype File = File(content: Content, mode: nat)

  type Name = string
  datatype Loc = InHome(name: Name) | InAside(aside: nat, name: Name)
  type Home = map<Loc, File>

  const WAL: Name := "-wal"
  const SHM: Name := "-shm"
  const TMP: Name := ".tmp"
  const SCHEMA: int := 1

  datatype Via = VacuumInto | Copy
  datatype Declared = Declared(name: Name, via: Via, mode: nat)

  /** The declared scope of a snapshot (modes 0644, 0600, 0600). */
  const ENTRIES: seq<Declared> := [
    Declared("forgemaster.db", VacuumInto, 420),
    Declared("forgemaster.env", Copy, 384),
    Declared("secrets/store.enc", Copy, 384)
  ]

  type Digest = int
  datatype Entry = Entry(name: Name, restoreTo: Name, digest: Digest, mode: nat, via: Via)
  datatype Manifest = Manifest(schema: int, entries: seq<Entry>, absent: seq<Name>)
  datatype SnapshotDir = SnapshotDir(files: map<Name, File>, script: Option<File>, manifest: Option<Manifest>)

  /** The restoration script, copied beside the manifest and at a stable place of the home. Its text is of
      no concern here; its mode is 0755. */
  const RESTORE: Name := "restore.py"
  const SCRIPT: File := File([], 493)

  /** The LOGICAL value of a declared file: for a database, what a reader of the live file sees. */
  function Value(home: Home, name: Name, via: Via): Option<Content> {
    if InHome(name) !in home then None
    else if via == VacuumInto && InHome(name + WAL) in home then
      Some(home[InHome(name)].content + home[InHome(name + WAL)].content)
    else Some(home[InHome(name)].content)
  }

  /** `PRAGMA user_version`: the last one set, 0 if none ever was. */
  function UserVersion(c: Content): nat {
    if c == [] then 0
    else if c[|c| - 1].SetVersion? then c[|c| - 1].schema
    else UserVersion(c[..|c| - 1])
  }

  // --- taking -------------------------------------------------------------------------------

  datatype Capture = Capture(files: map<Name, File>, entries: seq<Entry>, absent: seq<Name>)

  function CaptureOf(home: Home, scope: seq<Declared>, sha: Content -> Digest): Capture {
    if scope == [] then Capture(map[], [], []) else
    var d := scope[|scope| - 1];
    var c := CaptureOf(home, scope[..|scope| - 1], sha);
    match Value(home, d.name, d.via)
    case None => c.(absent := c.absent + [d.name])
    case Some(v) => Capture(c.files[d.name := File(v, d.mode)],
                            c.entries + [Entry(d.name, d.name, sha(v), d.mode, d.via)], c.absent)
  }

  function ManifestOf(c: Capture): Manifest {
    Manifest(SCHEMA, c.entries, c.absent)
  }

  function SnapshotOf(c: Capture): SnapshotDir {
    SnapshotDir(c.files, Some(SCRIPT), Some(ManifestOf(c)))
  }

  /** Everything of the home but the script and its temporary copy is as it was, and the script is the old
      one or the whole new one. */
  ghost predicate OnlyTheScriptMoved(before: Home, after: Home) {
    (forall l :: l != InHome(RESTORE) && l != InHome(RESTORE + TMP) ==>
       (l in before <==> l in after) && (l in before ==> after[l] == before[l]))
    && (InHome(RESTORE) in before ==> InHome(RESTORE) in after)
    && (InHome(RESTORE) in after ==>
          (InHome(RESTORE) in before && after[InHome(RESTORE)] == before[InHome(RESTORE)])
          || after[InHome(RESTORE)].content == SCRIPT.content)
  }

  // --- reading back, no write ------------------------------------------------------------------

  /** `verify`, for one entry: it is there and its digest is the declared one. */
  predicate Sound(snap: SnapshotDir, e: Entry, sha: Content -> Digest) {
    e.name in snap.files && sha(snap.files[e.name].content) == e.digest
  }

  /** Every missing or damaged entry, in the order of the manifest. */
  function Damages(snap: SnapshotDir, entries: seq<Entry>, sha: Content -> Digest): (problems: seq<Name>)
    ensures problems == [] <==> forall e :: e in entries ==> Sound(snap, e, sha)
    ensures forall p :: p in problems <==> exists e :: e in entries && e.name == p && !Sound(snap, e, sha)
  {
    if entries == [] then [] else
    var init, last := entries[..|entries| - 1], entries[|entries| - 1];
    assert entries == init + [last];
    Damages(snap, init, sha) + if Sound(snap, last, sha) then [] else [last.name]
  }

  predicate IsDatabase(name: Name) {
    |name| >= 3 && name[|name| - 3..] == ".db"
  }

  /** `snapshot_schema`: the schema of the first database entry. `legible`: SQLite opens that file and reads
      its version. */
  function SnapshotSchema(files: map<Name, File>, entries: seq<Entry>, legible: bool): Option<nat> {
    if entries == [] then None
    else if IsDatabase(entries[0].restoreTo) then
      if legible && entries[0].name in files then Some(UserVersion(files[entries[0].name].content)) else None
    else SnapshotSchema(files, entries[1..], legible)
  }

  datatype Refusal = Incomplete | UnknownSchema | Damaged | Undetermined | Unreadable

  /** `check_compatibility`: `None` lets the restoration through. */
  function CheckCompatibility(snap: Option<nat>, installed: Option<nat>, allow: bool): Option<Refusal> {
    if snap.None? then None
    else if installed.None? then if allow then None else Some(Undetermined)
    else if snap.value > installed.value then Some(Unreadable)
    else None
  }

  // --- putting back ------------------------------------------------------------------------------

  function Names(m: Manifest): seq<Name> {
    Targets(m.entries) + m.absent
  }

  function Targets(entries: seq<Entry>): (t: seq<Name>)
    ensures |t| == |entries| && forall i :: 0 <= i < |t| ==> t[i] == entries[i].restoreTo
  {
    seq(|entries|, i requires 0 <= i < |entries| => entries[i].restoreTo)
  }

  /** `p` is the file `n` or one of its SQLite journals. */
  predicate Companion(n: Name, p: Name) {
    p == n || p == n + WAL || p == n + SHM
  }

  /** `_with_sidecars`: the file and its SQLite journals, those that exist. */
  function WithSidecars(home: Home, name: Name): (present: seq<Name>)
    ensures forall p :: p in present <==> Companion(name, p) && InHome(p) in home
  {
    (if InHome(name) in home then [name] else [])
    + (if InHome(name + WAL) in home then [name + WAL] else [])
    + (if InHome(name + SHM) in home then [name + SHM] else [])
  }

  /** `p` belongs to one of the restored or removed names. */
  ghost predicate InScope(names: seq<Name>, p: Name) {
    exists n :: n in names && Companion(n, p)
  }

  /** Everything that leaves the instance: the replaced entries and those absent at the capture. */
  function Displaced(home: Home, names: seq<Name>): (d: seq<Name>)
    ensures forall p :: p in d <==> InHome(p) in home && InScope(names, p)
  {
    if names == [] then [] else
    var init, last := names[..|names| - 1], names[|names| - 1];
    assert names == init + [last];
    assert forall p :: InScope(names, p) <==> InScope(init, p) || Companion(last, p) by {
      assert forall n :: n in names <==> n in init || n == last;
    }
    Displaced(home, init) + WithSidecars(home, last)
  }

  /** The first loop of `restore`: each displaced file is renamed into the aside directory. */
  function Moved(home: Home, displaced: seq<Name>, aside: nat): Home {
    if displaced == [] then home else
    var h := Moved(home, displaced[..|displaced| - 1], aside);
    var p := displaced[|displaced| - 1];
    if InHome(p) in h then (h - {InHome(p)})[InAside(aside, p) := h[InHome(p)]] else h
  }

  /** The second loop: copy under a temporary name, set the mode, rename. */
  function Placed(home: Home, files: map<Name, File>, entries: seq<Entry>): Home
    requires forall e :: e in entries ==> e.name in files
  {
    if entries == [] then home else
    var e := entries[|entries| - 1];
    assert entries == entries[..|entries| - 1] + [e];
    Published(Placed(home, files, entries[..|entries| - 1]), e, File(files[e.name].content, e.mode))
  }

  function Published(home: Home, e: Entry, f: File): Home {
    (home - {InHome(e.restoreTo + TMP)})[InHome(e.restoreTo) := f]
  }

  function Restored(home: Home, snap: SnapshotDir, m: Manifest, aside: nat): Home
    requires forall e :: e in m.entries ==> e.name in snap.files
  {
    Placed(Moved(home, Displaced(home, Names(m)), aside), snap.files, m.entries)
  }

  /** A temporary file of any content and mode, left beside entry `e`. */
  function WithTmp(home: Home, e: Entry, f: File): Home {
    home[InHome(e.restoreTo + TMP) := f]
  }

  /** The first `k` entries are back, and possibly a temporary file for the next one. */
  ghost predicate AtEntry(base: Home, files: map<Name, File>, entries: seq<Entry>, k: nat, h: Home)
    requires forall e :: e in entries ==> e.name in files
    requires k <= |entries|
  {
    h == Placed(base, files, entries[..k])
    || (k < |entries| && exists f :: h == WithTmp(Placed(base, files, entries[..k]), entries[k], f))
  }

  /** The states a crash can leave: some of the moves done, or all of them and some entries back. */
  ghost predicate Midway(home: Home, snap: SnapshotDir, m: Manifest, aside: nat, h: Home)
    requires forall e :: e in m.entries ==> e.name in snap.files
  {
    var d := Displaced(home, Names(m));
    (exists i :: 0 <= i <= |d| && h == Moved(home, d[..i], aside))
    || (exists k :: 0 <= k <= |m.entries| && AtEntry(Moved(home, d, aside), snap.files, m.entries, k, h))
  }

  ghost predicate Distinct(names: seq<Name>) {
    forall i, j :: 0 <= i < j < |names| ==> names[i] != names[j]
  }

  /** A file listed once is still there when its turn comes. */
  lemma {:induction false} NotMovedYet(home: Home, displaced: seq<Name>, aside: nat, p: Name)
    requires InHome(p) in home && p !in displaced
    ensures InHome(p) in Moved(home, displaced, aside)
  {
    if displaced != [] {
      NotMovedYet(home, displaced[..|displaced| - 1], aside, p);
    }
  }

  lemma NoneIsMissing(home: Home, displaced: seq<Name>, aside: nat, files: Home)
    requires Distinct(displaced) && forall p :: p in displaced ==> InHome(p) in home
    ensures forall i :: 0 <= i < |displaced| && files == Moved(home, displaced[..i], aside) ==>
              InHome(displaced[i]) in files
  {
    forall i | 0 <= i < |displaced| ensures InHome(displaced[i]) in Moved(home, displaced[..i], aside) {
      NotMovedYet(home, displaced[..i], aside, displaced[i]);
    }
  }

  datatype Outcome = Done | DryRun | Refused(why: Refusal) | Crashed

  class HomeDir {
    var files: Home

    constructor (initial: Home)
      ensures files == initial
    {
      files := initial;
    }

    /** `create`: entry by entry, then the restoration script, in the snapshot and in the home, and the
        manifest last. `fault` operations are done before a crash. */
    method Create(scope: seq<Declared>, sha: Content -> Digest, fault: nat) returns (snap: SnapshotDir)
      modifies this
      ensures fault >= |scope| + 3 ==> snap == SnapshotOf(CaptureOf(old(files), scope, sha))
      ensures fault >= |scope| + 3 ==>
                InHome(RESTORE) in files && files[InHome(RESTORE)] == SCRIPT && InHome(RESTORE + TMP) !in files
      ensures fault < |scope| + 3 ==> snap.manifest == None
      ensures fault <= |scope| ==> files == old(files)
      ensures OnlyTheScriptMoved(old(files), files)
    {
      var taken: map<Name, File> := map[];
      var entries: seq<Entry> := [];
      var absent: seq<Name> := [];
      for i := 0 to |scope|
        invariant Capture(taken, entries, absent) == CaptureOf(files, scope[..i], sha)
        invariant i <= fault && files == old(files)
      {
        if i == fault {
          return SnapshotDir(taken, None, None);
        }
        var d := scope[i];
        assert scope[..i+1][..i] == scope[..i];
        if InHome(d.name) !in files {
          absent := absent + [d.name];
          continue;
        }
        var content := files[InHome(d.name)].content;
        if d.via == VacuumInto && InHome(d.name + WAL) in files {
          content := content + files[InHome(d.name + WAL)].content;
        }
        taken := taken[d.name := File(content, d.mode)];
        entries := entries + [Entry(d.name, d.name, sha(content), d.mode, d.via)];
      }
      assert scope[..|scope|] == scope;
      var script := PoseScript(fault - |scope|);
      if fault < |scope| + 3 {
        return SnapshotDir(taken, script, None);
      }
      snap := SnapshotDir(taken, script, Some(Manifest(SCHEMA, entries, absent)));
    }

    /** `_pose_restore_script`: in the snapshot, then in the home; the home's copy gets its mode last. */
    method PoseScript(fault: nat) returns (script: Option<File>)
      modifies this
      ensures fault == 0 ==> files == old(files)
      ensures fault >= 3 ==> script == Some(SCRIPT) && InHome(RESTORE) in files && files[InHome(RESTORE)] == SCRIPT
                             && InHome(RESTORE + TMP) !in files
      ensures OnlyTheScriptMoved(old(files), files)
    {
      var tmp := InHome(RESTORE + TMP);
      assert |RESTORE + TMP| != |RESTORE|;
      if fault == 0 {
        return None;
      }
      files := files[tmp := File(SCRIPT.content, 420)];
      if fault == 1 {
        return Some(SCRIPT);
      }
      files := (files - {tmp})[InHome(RESTORE) := files[tmp]];
      if fault == 2 {
        return Some(SCRIPT);
      }
      files := files[InHome(RESTORE) := SCRIPT];
      script := Some(SCRIPT);
    }

    /** `verify`: every damage is listed before anything is refused. */
    static method Verify(snap: SnapshotDir, entries: seq<Entry>, sha: Content -> Digest)
      returns (problems: seq<Name>)
      ensures problems == Damages(snap, entries, sha)
    {
      problems := [];
      for i := 0 to |entries|
        invariant problems == Damages(snap, entries[..i], sha)
      {
        assert entries[..i+1][..i] == entries[..i];
        if !Sound(snap, entries[i], sha) {
          problems := problems + [entries[i].name];
        }
      }
      assert entries[..|entries|] == entries;
    }

    /** `restore`. `legible` is whether the version of the snapshot's database can be read, `installed` what
        the probe of the linked binary answered; `fault` primitive operations succeed before a crash, the
        last copy being cut at `cut` records. */
    method Restore(snap: SnapshotDir, sha: Content -> Digest, legible: bool, installed: Option<nat>, allow: bool,
                   dryRun: bool, aside: nat, fault: nat, cut: nat) returns (o: Outcome)
      requires forall l :: l in files && l.InAside? ==> l.aside != aside  // `mkdir` without `exist_ok`
      modifies this
      ensures o.Refused? || o.DryRun? ==> files == old(files)
      ensures o.Refused? <==> Objection(snap, sha, legible, installed, allow).Some?
      ensures o.Refused? ==> Objection(snap, sha, legible, installed, allow) == Some(o.why)
      ensures o == DryRun <==> dryRun && Passes(snap, sha, legible, installed, allow)
      ensures o == Done || o == Crashed ==> Passes(snap, sha, legible, installed, allow) && !dryRun
      ensures o == Done ==> files == Restored(old(files), snap, snap.manifest.value, aside)
      ensures o == Crashed ==> Midway(old(files), snap, snap.manifest.value, aside, files)
      ensures o == Done || o == Crashed ==>
                var d := Displaced(old(files), Names(snap.manifest.value));
                (o == Done ==> fault >= |d| + 3 * |snap.manifest.value.entries|)
                && (o == Crashed && Distinct(d) ==> fault < |d| + 3 * |snap.manifest.value.entries|)
    {
      if snap.manifest.None? {
        return Refused(Incomplete);
      }
      var m := snap.manifest.value;
      if m.schema != SCHEMA {
        return Refused(UnknownSchema);
      }
      var problems := Verify(snap, m.entries, sha);
      if problems != [] {
        return Refused(Damaged);
      }
      var refusal := CheckCompatibility(SnapshotSchema(snap.files, m.entries, legible), installed, allow);
      if refusal.Some? {
        return Refused(refusal.value);
      }
      if dryRun {
        return DryRun;
      }
      var displaced := Displaced(files, Names(m));
      o := MoveAside(displaced, aside, fault);
      if o == Crashed && fault >= |displaced| && Distinct(displaced) {
        NoneIsMissing(old(files), displaced, aside, files);
      }
      if o == Done {
        o := PutBack(snap, m.entries, if fault >= |displaced| then fault - |displaced| else 0, cut);
      }
    }

    method MoveAside(displaced: seq<Name>, aside: nat, fault: nat) returns (o: Outcome)
      modifies this
      ensures o == Done || o == Crashed
      ensures o == Done ==> files == Moved(old(files), displaced, aside)
      ensures o == Crashed ==>
                exists i :: 0 <= i < |displaced| && files == Moved(old(files), displaced[..i], aside)
                            && (i == fault || InHome(displaced[i]) !in files)
      ensures o == Done ==> fault >= |displaced|
    {
      for i := 0 to |displaced|
        invariant files == Moved(old(files), displaced[..i], aside) && i <= fault
      {
        var p := displaced[i];
        if i == fault || InHome(p) !in files {
          return Crashed;
        }
        assert displaced[..i+1][..i] == displaced[..i];
        files := (files - {InHome(p)})[InAside(aside, p) := files[InHome(p)]];
      }
      assert displaced[..|displaced|] == displaced;
      return Done;
    }

    method PutBack(snap: SnapshotDir, entries: seq<Entry>, fault: nat, cut: nat) returns (o: Outcome)
      requires forall e :: e in entries ==> e.name in snap.files
      modifies this
      ensures o == Done || o == Crashed
      ensures o == Done ==> files == Placed(old(files), snap.files, entries)
      ensures o == Crashed ==>
                exists k :: 0 <= k <= |entries| && AtEntry(old(files), snap.files, entries, k, files)
      ensures o == Crashed <==> fault < 3 * |entries|
    {
      for k := 0 to |entries|
        invariant files == Placed(old(files), snap.files, entries[..k]) && 3 * k <= fault
      {
        ghost var at := files;
        o := PutOne(entries[k], snap.files[entries[k].name].content, fault - 3 * k, cut);
        if o == Crashed {
          assert AtEntry(old(files), snap.files, entries, k, files);
          return;
        }
        assert entries[..k+1][..k] == entries[..k];
      }
      assert entries[..|entries|] == entries;
      return Done;
    }

    /** One entry: copy under a temporary name, set the mode, rename onto the final name. */
    method PutOne(e: Entry, content: Content, fault: int, cut: nat) returns (o: Outcome)
      modifies this
      ensures o == Done || o == Crashed
      ensures o == Done ==> files == Published(old(files), e, File(content, e.mode))
      ensures o == Crashed <==> 0 <= fault < 3
      ensures o == Crashed ==> files == old(files) || exists f :: files == WithTmp(old(files), e, f)
      ensures fault == 0 ==> files == if 0 < cut <= |content| then WithTmp(old(files), e, File(content[..cut], 0x1A4))
                                      else old(files)
      ensures fault == 1 ==> files == WithTmp(old(files), e, File(content, 0x1A4))
      ensures fault == 2 ==> files == WithTmp(old(files), e, File(content, e.mode))
    {
      var tmp := InHome(e.restoreTo + TMP);
      if fault == 0 {
        if 0 < cut <= |content| {
          files := WithTmp(files, e, File(content[..cut], 420));
        }
        return Crashed;
      }
      files := WithTmp(files, e, File(content, 420));
      if fault == 1 {
        return Crashed;
      }
      files := WithTmp(files, e, File(content, e.mode));
      assert files == WithTmp(old(files), e, File(content, e.mode));
      if fault == 2 {
        return Crashed;
      }
      files := (files - {tmp})[InHome(e.restoreTo) := files[tmp]];
      assert files == Published(old(files), e, File(content, e.mode));
      return Done;
    }
  }

  /** The first thing `restore` has against a snapshot, in the order it asks. */
  function Objection(snap: SnapshotDir, sha: Content -> Digest, legible: bool, installed: Option<nat>, allow: bool)
    : (o: Option<Refusal>)
    ensures o.None? <==> Passes(snap, sha, legible, installed, allow)
  {
    if snap.manifest.None? then Some(Incomplete)
    else if snap.manifest.value.schema != SCHEMA then Some(UnknownSchema)
    else if Damages(snap, snap.manifest.value.entries, sha) != [] then Some(Damaged)
    else CheckCompatibility(SnapshotSchema(snap.files, snap.manifest.value.entries, legible), installed, allow)
  }

  /** Everything `restore` checks before its first write. */
  ghost predicate Passes(snap: SnapshotDir, sha: Content -> Digest, legible: bool, installed: Option<nat>, allow: bool)
    ensures Passes(snap, sha, legible, installed, allow) ==>
              snap.manifest.Some? && forall e :: e in snap.manifest.value.entries ==> e.name in snap.files
  {
    snap.manifest.Some?
    && var m := snap.manifest.value;
    m.schema == SCHEMA
    && (forall e :: e in m.entries ==> Sound(snap, e, sha))
    && CheckCompatibility(SnapshotSchema(snap.files, m.entries, legible), installed, allow).None?
  }
}
