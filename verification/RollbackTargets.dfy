/** Which snapshot and which venv a voluntary rollback goes back to: the reading of the update
    journals, the venvs worth probing, the state of each snapshot and the default resolution
    (`snapshot.list_snapshots` and its helpers, `update.preflight_rollback` and its helpers). */
module RollbackTargets {
  import opened Prelude
  import opened Stamps
  import opened Retention
  import HomeFiles

  /** A venv, by its resolved path. */
  type Venv = nat

  /** The `result.json` of an update run, when there is one to read: the venv linked before the
      gesture, the snapshot an `apply` took, the SAFETY snapshot a `rollback` took. */
  datatype Run = Unreadable | Verdict(before: Option<Venv>, taken: Option<Stamp>, safety: Option<Stamp>)

  /** The disk as the resolution sees it: `<home>/venvs` newest first, every venv directory that
      exists anywhere, the schema each one answers when probed, and the snapshots whose database is there
      with a version that cannot be read. */
  datatype Disk = Disk(stamped: seq<Venv>, present: set<Venv>, probe: map<Venv, nat>, illegible: set<Stamp>)

  // --- the journals ---------------------------------------------------------------------------

  predicate Tells(run: Run) {
    run.Verdict? && run.before.Some?
  }

  /** The run says that this snapshot was taken while `run.before` was linked. */
  predicate Names(run: Run, s: Stamp) {
    Tells(run) && (run.taken == Some(s) || run.safety == Some(s))
  }

  /** The venv that ran when `s` was taken: the newest run that names it wins. */
  function Paired(runs: seq<Run>, s: Stamp): Option<Venv> {
    if runs == [] then None
    else if Names(runs[0], s) then runs[0].before
    else Paired(runs[1..], s)
  }

  function Befores(runs: seq<Run>): seq<Venv> {
    if runs == [] then []
    else (if Tells(runs[0]) then [runs[0].before.value] else []) + Befores(runs[1..])
  }

  predicate IsSafety(runs: seq<Run>, s: Stamp) {
    exists i :: 0 <= i < |runs| && Tells(runs[i]) && runs[i].safety == Some(s)
  }

  lemma {:induction false} PairedExtends(runs: seq<Run>, run: Run, s: Stamp)
    ensures Paired(runs + [run], s) ==
              if Paired(runs, s).Some? then Paired(runs, s)
              else if Names(run, s) then run.before else None
  {
    if runs == [] {
      assert runs + [run] == [run];
    } else {
      PairedExtends(runs[1..], run, s);
      assert (runs + [run])[1..] == runs[1..] + [run];
    }
  }

  /** Run `i` is the newest readable one that names snapshot `s`. */
  ghost predicate NewestNaming(runs: seq<Run>, s: Stamp, i: nat) {
    i < |runs| && runs[i].Verdict? && runs[i].before.Some? && (runs[i].taken == Some(s) || runs[i].safety == Some(s))
    && forall j :: 0 <= j < i && runs[j].Verdict? && runs[j].before.Some? ==>
         runs[j].taken != Some(s) && runs[j].safety != Some(s)
  }

  /** PAIRED, exactly: with the venv that the newest run to name the snapshot had found linked. */
  lemma {:induction false} PairedExactly(runs: seq<Run>, s: Stamp, v: Venv)
    ensures Paired(runs, s) == Some(v) <==> exists i: nat :: NewestNaming(runs, s, i) && runs[i].before == Some(v)
  {
    if runs != [] {
      var rest := runs[1..];
      PairedExactly(rest, s, v);
      if Names(runs[0], s) {
        assert NewestNaming(runs, s, 0) && forall i: nat :: NewestNaming(runs, s, i) ==> i == 0;
      } else {
        forall i: nat ensures NewestNaming(rest, s, i) <==> NewestNaming(runs, s, i + 1) {
          assert forall j :: 0 <= j < |rest| ==> rest[j] == runs[j + 1];
          if NewestNaming(runs, s, i + 1) {
            assert forall j :: 0 <= j < i ==> rest[j] == runs[j + 1];
          }
        }
        forall i: nat | NewestNaming(runs, s, i)
          ensures i > 0 && NewestNaming(rest, s, i - 1) && rest[i - 1] == runs[i]
        {
          assert NewestNaming(rest, s, i - 1) <==> NewestNaming(runs, s, i - 1 + 1);
        }
      }
    }
  }

  lemma {:induction false} BeforesExtends(runs: seq<Run>, run: Run)
    ensures Befores(runs + [run]) == Befores(runs) + if Tells(run) then [run.before.value] else []
  {
    if runs == [] {
      assert runs + [run] == [run];
    } else {
      BeforesExtends(runs[1..], run);
      assert (runs + [run])[1..] == runs[1..] + [run];
    }
  }

  /** `_lecture_des_runs`: three readings in one pass, newest run first. */
  method ReadRuns(runs: seq<Run>) returns (order: seq<Venv>, bySnapshot: map<Stamp, Venv>, safeties: set<Stamp>)
    ensures order == Befores(runs)
    ensures forall s :: (s in bySnapshot <==> Paired(runs, s).Some?)
                        && (s in bySnapshot ==> Paired(runs, s) == Some(bySnapshot[s]))
    ensures forall s :: s in safeties <==> IsSafety(runs, s)
  {
    order, bySnapshot, safeties := [], map[], {};
    for i := 0 to |runs|
      invariant order == Befores(runs[..i])
      invariant forall s :: (s in bySnapshot <==> Paired(runs[..i], s).Some?)
                            && (s in bySnapshot ==> Paired(runs[..i], s) == Some(bySnapshot[s]))
      invariant forall s :: s in safeties <==> IsSafety(runs[..i], s)
    {
      var run := runs[i];
      assert runs[..i+1] == runs[..i] + [run];
      BeforesExtends(runs[..i], run);
      forall s: Stamp ensures Paired(runs[..i+1], s) ==
                         if Paired(runs[..i], s).Some? then Paired(runs[..i], s)
                         else if Names(run, s) then run.before else None
      {
        PairedExtends(runs[..i], run, s);
      }
      forall s: Stamp
        ensures IsSafety(runs[..i+1], s) <==> IsSafety(runs[..i], s) || (Tells(run) && run.safety == Some(s))
      {
        SafetyExtends(runs[..i], run, s);
      }
      if !Tells(run) {
        continue;
      }
      var before := run.before.value;
      order := order + [before];
      if run.taken.Some? && run.taken.value !in bySnapshot {
        bySnapshot := bySnapshot[run.taken.value := before];
      }
      if run.safety.Some? {
        if run.safety.value !in bySnapshot {
          bySnapshot := bySnapshot[run.safety.value := before];
        }
        safeties := safeties + {run.safety.value};
      }
    }
    assert runs[..|runs|] == runs;
  }

  lemma SafetyExtends(runs: seq<Run>, run: Run, s: Stamp)
    ensures IsSafety(runs + [run], s) <==> IsSafety(runs, s) || (Tells(run) && run.safety == Some(s))
  {
    var more := runs + [run];
    if IsSafety(runs, s) {
      var i :| 0 <= i < |runs| && Tells(runs[i]) && runs[i].safety == Some(s);
      assert more[i] == runs[i];
    }
    assert more[|runs|] == run;
  }

  // --- the venvs --------------------------------------------------------------------------------

  /** The venvs a run named that live outside `<home>/venvs`, each once, in run order. */
  function Elsewhere(named: seq<Venv>, present: set<Venv>, seen: set<Venv>): seq<Venv> {
    if named == [] then []
    else if named[0] !in present || named[0] in seen then Elsewhere(named[1..], present, seen)
    else [named[0]] + Elsewhere(named[1..], present, seen + {named[0]})
  }

  function Candidates(disk: Disk, runs: seq<Run>): seq<Venv> {
    disk.stamped + Elsewhere(Befores(runs), disk.present, Elements(disk.stamped))
  }

  /** `_venvs_candidats`. */
  method VenvCandidates(disk: Disk, order: seq<Venv>) returns (candidates: seq<Venv>)
    ensures candidates == disk.stamped + Elsewhere(order, disk.present, Elements(disk.stamped))
  {
    var seen := Elements(disk.stamped);
    var elsewhere: seq<Venv> := [];
    for i := 0 to |order|
      invariant elsewhere + Elsewhere(order[i..], disk.present, seen)
             == Elsewhere(order, disk.present, Elements(disk.stamped))
    {
      var before := order[i];
      assert order[i..][1..] == order[i+1..];
      if before !in disk.present || before in seen {
        continue;
      }
      seen := seen + {before};
      elsewhere := elsewhere + [before];
    }
    candidates := disk.stamped + elsewhere;
  }

  /** `venv_schemas`: a venv that does not answer is absent, never counted as schema zero. */
  function Probed(candidates: seq<Venv>, probe: map<Venv, nat>): (found: seq<Venv>)
    ensures forall v :: v in found <==> v in candidates && v in probe
  {
    if candidates == [] then []
    else (if candidates[0] in probe then [candidates[0]] else []) + Probed(candidates[1..], probe)
  }

  function Venvs(disk: Disk, runs: seq<Run>): seq<Venv> {
    Probed(Candidates(disk, runs), disk.probe)
  }

  /** The first venv of the list that reads exactly `wanted`. */
  function FirstExact(venvs: seq<Venv>, probe: map<Venv, nat>, wanted: nat): Option<Venv> {
    if venvs == [] then None
    else if venvs[0] in probe && probe[venvs[0]] == wanted then Some(venvs[0])
    else FirstExact(venvs[1..], probe, wanted)
  }

  /** `_premier_du_schema`: the pairing promotes, the schema equality guards. */
  function Chosen(venvs: seq<Venv>, probe: map<Venv, nat>, wanted: nat, paired: Option<Venv>): Option<Venv> {
    if paired.Some? && paired.value in venvs && paired.value in probe && probe[paired.value] == wanted then paired
    else FirstExact(venvs, probe, wanted)
  }

  lemma {:induction false} FirstExactFinds(venvs: seq<Venv>, probe: map<Venv, nat>, wanted: nat)
    ensures var f := FirstExact(venvs, probe, wanted);
            (f.Some? <==> exists v :: v in venvs && v in probe && probe[v] == wanted)
            && (f.Some? ==> f.value in venvs && f.value in probe && probe[f.value] == wanted)
  {
    if venvs != [] {
      FirstExactFinds(venvs[1..], probe, wanted);
      assert venvs == [venvs[0]] + venvs[1..];
    }
  }

  /** `v` stands in the list before any other that reads exactly `wanted`. */
  ghost predicate FirstReader(venvs: seq<Venv>, probe: map<Venv, nat>, wanted: nat, v: Venv) {
    exists i :: 0 <= i < |venvs| && venvs[i] == v && v in probe && probe[v] == wanted
                && forall j :: 0 <= j < i ==> !(venvs[j] in probe && probe[venvs[j]] == wanted)
  }

  /** The order of preference: the venv that ran when the snapshot was taken, if it is listed and reads
      exactly the schema; else the first of the list that does. */
  ghost predicate Preferred(venvs: seq<Venv>, probe: map<Venv, nat>, wanted: nat, paired: Option<Venv>, v: Venv) {
    if paired.Some? && paired.value in venvs && paired.value in probe && probe[paired.value] == wanted
    then v == paired.value
    else FirstReader(venvs, probe, wanted, v)
  }

  lemma {:induction false} FirstExactIsFirst(venvs: seq<Venv>, probe: map<Venv, nat>, wanted: nat, v: Venv)
    ensures FirstExact(venvs, probe, wanted) == Some(v) <==> FirstReader(venvs, probe, wanted, v)
  {
    if venvs != [] {
      var rest := venvs[1..];
      FirstExactIsFirst(rest, probe, wanted, v);
      if venvs[0] in probe && probe[venvs[0]] == wanted {
        if venvs[0] == v {
          assert FirstReader(venvs, probe, wanted, v);
        }
      } else {
        if FirstReader(rest, probe, wanted, v) {
          var i :| 0 <= i < |rest| && rest[i] == v && v in probe && probe[v] == wanted
            && forall j :: 0 <= j < i ==> !(rest[j] in probe && probe[rest[j]] == wanted);
          forall j | 0 <= j < i + 1 ensures !(venvs[j] in probe && probe[venvs[j]] == wanted) {
            assert j == 0 || venvs[j] == rest[j - 1];
          }
          assert venvs[i + 1] == v;
        }
        if FirstReader(venvs, probe, wanted, v) {
          var i :| 0 <= i < |venvs| && venvs[i] == v && v in probe && probe[v] == wanted
            && forall j :: 0 <= j < i ==> !(venvs[j] in probe && probe[venvs[j]] == wanted);
          assert rest[i - 1] == v && forall j :: 0 <= j < i - 1 ==> rest[j] == venvs[j + 1];
        }
      }
    }
  }

  /** CHOSEN, exactly: the preferred venv, and none if and only if none reads the schema. */
  lemma ChosenIsPreferred(venvs: seq<Venv>, probe: map<Venv, nat>, wanted: nat, paired: Option<Venv>)
    ensures forall v: Venv :: Chosen(venvs, probe, wanted, paired) == Some(v) <==>
                          Preferred(venvs, probe, wanted, paired, v)
    ensures Chosen(venvs, probe, wanted, paired).None? <==>
              forall v :: v in venvs && v in probe ==> probe[v] != wanted
  {
    forall v: Venv ensures FirstExact(venvs, probe, wanted) == Some(v) <==> FirstReader(venvs, probe, wanted, v) {
      FirstExactIsFirst(venvs, probe, wanted, v);
    }
    FirstExactFinds(venvs, probe, wanted);
  }

  // --- the state of a snapshot --------------------------------------------------------------------

  datatype State = Restorable | DataOnly | Unrestorable | Unknown

  function SchemaOf(snap: Snap): Option<nat> {
    if snap.db.Some? then Some(snap.db.value.schema) else None
  }

  /** `snapshot_schema`, on this disk: a version that cannot be read is taken for no database at all. */
  function SchemaAt(snap: Snap, name: Stamp, disk: Disk): Option<nat> {
    if name in disk.illegible then None else SchemaOf(snap)
  }

  /** `_restorability`. */
  function Restorability(schema: Option<nat>, venvs: seq<Venv>, probe: map<Venv, nat>, paired: Option<Venv>): State
    requires forall v :: v in venvs ==> v in probe
  {
    if schema.None? then Restorable
    else if venvs == [] then Unknown
    else if Chosen(venvs, probe, schema.value, paired).Some? then Restorable
    else if exists v :: v in venvs && probe[v] > schema.value then DataOnly
    else Unrestorable
  }

  datatype Listed = Listed(name: Stamp, valid: bool, state: State, named: bool, safety: bool)

  function List(root: Root, disk: Disk, runs: seq<Run>, name: Stamp): Listed
    requires name in root
  {
    var paired := Paired(runs, name);
    Listed(name, root[name].complete,
           if root[name].complete
           then Restorability(SchemaAt(root[name], name, disk), Venvs(disk, runs), disk.probe, paired)
           else Unknown,
           paired.Some?, IsSafety(runs, name))
  }

  /** `_venv_pour`: none for a snapshot whose schema is unknown. */
  function VenvFor(snap: Snap, name: Stamp, disk: Disk, runs: seq<Run>): Option<Venv> {
    match SchemaAt(snap, name, disk)
    case None => None
    case Some(schema) => Chosen(Venvs(disk, runs), disk.probe, schema, Paired(runs, name))
  }

  // --- the target ---------------------------------------------------------------------------------

  datatype Refusal = Invalid | NotRestorable(state: State) | SafetyOfRollback | VenvNotFound | AlreadyActive | Forward

  /** `_cible_utilisable`: five ways of not being a way back. */
  function Usable(root: Root, info: Listed, disk: Disk, runs: seq<Run>, active: Venv): Result<Venv, Refusal>
    requires info.name in root
  {
    if !info.valid then Err(Invalid)
    else if info.state != Restorable then Err(NotRestorable(info.state))
    else if info.safety then Err(SafetyOfRollback)
    else
      match VenvFor(root[info.name], info.name, disk, runs)
      case None => Err(VenvNotFound)
      case Some(v) =>
        if v == active then Err(AlreadyActive)
        else if active in disk.probe && v in disk.probe && disk.probe[v] > disk.probe[active] then Err(Forward)
        else Ok(v)
  }

  /** Snapshot `name`, listed then judged on the same disk. */
  function Judged(root: Root, name: Stamp, disk: Disk, runs: seq<Run>, active: Venv): Result<Venv, Refusal>
    requires name in root
  {
    Usable(root, List(root, disk, runs, name), disk, runs, active)
  }

  /** `_resolution_cible`: the newest snapshot that really goes back. */
  function Resolve(root: Root, listing: seq<Stamp>, disk: Disk, runs: seq<Run>, active: Venv): Option<(Stamp, Venv)>
    requires forall s :: s in listing ==> s in root
  {
    if listing == [] then None
    else
      match Judged(root, listing[0], disk, runs, active)
      case Ok(v) => Some((listing[0], v))
      case Err(_) => Resolve(root, listing[1..], disk, runs, active)
  }

  method Resolution(root: Root, disk: Disk, runs: seq<Run>, active: Venv)
    returns (target: Option<(Stamp, Venv)>, reasons: seq<(Stamp, Refusal)>)
    ensures target == Resolve(root, NewestFirst(root.Keys), disk, runs, active)
    ensures target.Some? ==>
              var (name, venv) := target.value;
              name in root && Known(root, name, disk).Some?
              && Preferred(Venvs(disk, runs), disk.probe, Known(root, name, disk).value, Paired(runs, name), venv)
              && forall s :: s in root && s > name ==> Judged(root, s, disk, runs, active).Err?
    ensures target.None? ==> |reasons| == |root| && forall r :: r in reasons ==>
              r.0 in root && Judged(root, r.0, disk, runs, active) == Err(r.1)
  {
    hide Judged, NewestFirst, Preferred, Known, Venvs, Paired, Descending;
    var listing := NewestFirst(root.Keys);
    reasons := [];
    for i := 0 to |listing|
      invariant |reasons| == i
      invariant forall k :: 0 <= k < i ==> Judged(root, listing[k], disk, runs, active).Err?
      invariant forall r :: r in reasons ==>
                  r.0 in root && Judged(root, r.0, disk, runs, active) == Err(r.1)
      invariant Resolve(root, listing, disk, runs, active) == Resolve(root, listing[i..], disk, runs, active)
    {
      assert listing[i] in listing && listing[i..][1..] == listing[i+1..];
      match Judged(root, listing[i], disk, runs, active) {
        case Ok(v) =>
          AcceptedIsPreferred(root, listing[i], disk, runs, active);
          NewerComeFirst(listing, i);
          return Some((listing[i], v)), reasons;
        case Err(why) => reasons := reasons + [(listing[i], why)];
      }
    }
    return None, reasons;
  }

  // --- the order of the venvs -------------------------------------------------------------------------

  /** `u` comes before `v` in the list. */
  ghost predicate Ahead(list: seq<Venv>, u: Venv, v: Venv) {
    exists p, q :: 0 <= p < q < |list| && list[p] == u && list[q] == v
  }

  lemma {:induction false} ProbedInOrder(list: seq<Venv>, probe: map<Venv, nat>, i: nat, j: nat)
    requires i < j < |Probed(list, probe)|
    ensures Ahead(list, Probed(list, probe)[i], Probed(list, probe)[j])
  {
    var found, rest := Probed(list, probe), Probed(list[1..], probe);
    assert found == if list[0] in probe then [list[0]] + rest else rest;
    if list[0] in probe && i == 0 {
      assert found[j] == rest[j - 1] && found[j] in list[1..];
      var q :| 0 <= q < |list[1..]| && list[1..][q] == found[j];
      assert list[q + 1] == found[j];
    } else {
      var d := if list[0] in probe then 1 else 0;
      ProbedInOrder(list[1..], probe, i - d, j - d);
      hide Probed;
      var p, q :| 0 <= p < q < |list[1..]| && list[1..][p] == found[i] && list[1..][q] == found[j];
      assert list[p + 1] == found[i] && list[q + 1] == found[j];
    }
  }

  /** `u` is named before `v` ever is. */
  ghost predicate NamedFirst(named: seq<Venv>, u: Venv, v: Venv) {
    exists p :: 0 <= p < |named| && named[p] == u && v !in named[..p + 1]
  }

  lemma {:induction false} ElsewhereAre(named: seq<Venv>, present: set<Venv>, seen: set<Venv>)
    ensures forall v :: v in Elsewhere(named, present, seen) <==> v in named && v in present && v !in seen
  {
    if named != [] {
      assert named == [named[0]] + named[1..];
      var kept := named[0] in present && named[0] !in seen;
      ElsewhereAre(named[1..], present, if kept then seen + {named[0]} else seen);
    }
  }

  lemma {:induction false} ElsewhereInOrder(named: seq<Venv>, present: set<Venv>, seen: set<Venv>, i: nat, j: nat)
    requires i < j < |Elsewhere(named, present, seen)|
    ensures var e := Elsewhere(named, present, seen); NamedFirst(named, e[i], e[j])
  {
    var kept := named[0] in present && named[0] !in seen;
    var more := if kept then seen + {named[0]} else seen;
    var e, tail := Elsewhere(named, present, seen), Elsewhere(named[1..], present, more);
    ElsewhereAre(named[1..], present, more);
    assert e == if kept then [named[0]] + tail else tail;
    var d := if kept then 1 else 0;
    assert e[j] == tail[j - d] && e[j] in tail;
    if kept && i == 0 {
      assert named[..1] == [named[0]];
    } else {
      assert e[i] == tail[i - d];
      ElsewhereInOrder(named[1..], present, more, i - d, j - d);
      assert e[j] != named[0];
      hide Elsewhere;
      LaterNaming(named, e[i], e[j]);
    }
  }

  lemma LaterNaming(named: seq<Venv>, u: Venv, v: Venv)
    requires named != [] && NamedFirst(named[1..], u, v) && v != named[0]
    ensures NamedFirst(named, u, v)
  {
    var p :| 0 <= p < |named[1..]| && named[1..][p] == u && v !in named[1..][..p + 1];
    assert named[p + 1] == u && named[..p + 2] == [named[0]] + named[1..][..p + 1];
  }

  lemma {:induction false} BeforesAre(runs: seq<Run>, v: Venv)
    ensures v in Befores(runs) <==> exists i :: 0 <= i < |runs| && runs[i].Verdict? && runs[i].before == Some(v)
  {
    if runs != [] {
      BeforesAre(runs[1..], v);
      if i :| 0 <= i < |runs| && runs[i].Verdict? && runs[i].before == Some(v) {
        assert i == 0 || runs[1..][i - 1] == runs[i];
      }
    }
  }

  /** A run that found `u` linked is more recent than any that found `v`. */
  ghost predicate FoundFirst(runs: seq<Run>, u: Venv, v: Venv) {
    exists p :: 0 <= p < |runs| && runs[p].Verdict? && runs[p].before == Some(u)
                && forall q :: 0 <= q <= p ==> !(runs[q].Verdict? && runs[q].before == Some(v))
  }

  lemma {:induction false} BeforesInOrder(runs: seq<Run>, u: Venv, v: Venv)
    requires NamedFirst(Befores(runs), u, v)
    ensures FoundFirst(runs, u, v)
  {
    hide FoundFirst;
    if runs[0].Verdict? && runs[0].before == Some(u) {
      FoundAtOnce(runs, u, v);
    } else {
      NamedInTheRest(runs, u, v);
      BeforesInOrder(runs[1..], u, v);
      FoundInTheRest(runs, u, v);
    }
  }

  lemma FoundAtOnce(runs: seq<Run>, u: Venv, v: Venv)
    requires NamedFirst(Befores(runs), u, v) && runs != [] && runs[0].Verdict? && runs[0].before == Some(u)
    ensures FoundFirst(runs, u, v)
  {
    var named := Befores(runs);
    var p :| 0 <= p < |named| && named[p] == u && v !in named[..p + 1];
    assert named[0] == named[..p + 1][0];
  }

  lemma NamedInTheRest(runs: seq<Run>, u: Venv, v: Venv)
    requires runs != [] && NamedFirst(Befores(runs), u, v) && !(runs[0].Verdict? && runs[0].before == Some(u))
    ensures NamedFirst(Befores(runs[1..]), u, v) && !(runs[0].Verdict? && runs[0].before == Some(v))
  {
    var named, rest := Befores(runs), Befores(runs[1..]);
    assert named == if Tells(runs[0]) then [runs[0].before.value] + rest else rest;
    hide Befores;
    var p :| 0 <= p < |named| && named[p] == u && v !in named[..p + 1];
    if Tells(runs[0]) {
      assert named[0] == named[..p + 1][0];
      assert rest[p - 1] == u && rest[..p] == named[..p + 1][1..];
    }
  }

  lemma FoundInTheRest(runs: seq<Run>, u: Venv, v: Venv)
    requires runs != [] && FoundFirst(runs[1..], u, v) && !(runs[0].Verdict? && runs[0].before == Some(v))
    ensures FoundFirst(runs, u, v)
  {
    var rest := runs[1..];
    var q :| 0 <= q < |rest| && rest[q].Verdict? && rest[q].before == Some(u)
      && forall k :: 0 <= k <= q ==> !(rest[k].Verdict? && rest[k].before == Some(v));
    assert runs[q + 1] == rest[q];
    forall k | 0 <= k <= q + 1 ensures !(runs[k].Verdict? && runs[k].before == Some(v)) {
      assert k == 0 || runs[k] == rest[k - 1];
    }
  }

  /** THE VENVS, in order. Those that answer when probed: first the dated ones, in their order, then those
      that a run found linked and that live elsewhere, the one a more recent run names first. */
  lemma VenvsInOrder(disk: Disk, runs: seq<Run>)
    ensures var vs := Venvs(disk, runs);
            (forall v :: v in vs <==>
               v in disk.probe
               && (v in disk.stamped
                   || (v in disk.present
                       && exists i :: 0 <= i < |runs| && runs[i].Verdict? && runs[i].before == Some(v))))
            && forall i, j :: 0 <= i < j < |vs| ==>
                 if vs[j] in disk.stamped then Ahead(disk.stamped, vs[i], vs[j])
                 else vs[i] in disk.stamped || FoundFirst(runs, vs[i], vs[j])
  {
    ElsewhereAre(Befores(runs), disk.present, Elements(disk.stamped));
    forall v ensures v in Befores(runs) <==>
                       exists i :: 0 <= i < |runs| && runs[i].Verdict? && runs[i].before == Some(v)
    {
      BeforesAre(runs, v);
    }
    var vs := Venvs(disk, runs);
    forall i, j | 0 <= i < j < |vs|
      ensures if vs[j] in disk.stamped then Ahead(disk.stamped, vs[i], vs[j])
              else vs[i] in disk.stamped || FoundFirst(runs, vs[i], vs[j])
    {
      hide Elsewhere, Befores, Probed, FoundFirst, NamedFirst;
      TwoVenvs(disk, Befores(runs), i, j);
      if NamedFirst(Befores(runs), vs[i], vs[j]) {
        BeforesInOrder(runs, vs[i], vs[j]);
      }
    }
    hide Elsewhere, Befores;
  }

  lemma TwoVenvs(disk: Disk, named: seq<Venv>, i: nat, j: nat)
    requires var all := disk.stamped + Elsewhere(named, disk.present, Elements(disk.stamped));
             i < j < |Probed(all, disk.probe)|
    ensures var vs := Probed(disk.stamped + Elsewhere(named, disk.present, Elements(disk.stamped)), disk.probe);
            if vs[j] in disk.stamped then Ahead(disk.stamped, vs[i], vs[j])
            else vs[i] in disk.stamped || NamedFirst(named, vs[i], vs[j])
  {
    hide Elsewhere, Probed;
    var e := Elsewhere(named, disk.present, Elements(disk.stamped));
    var all, n := disk.stamped + e, |disk.stamped|;
    var vs := Probed(all, disk.probe);
    ElsewhereAre(named, disk.present, Elements(disk.stamped));
    ProbedInOrder(all, disk.probe, i, j);
    var p, q :| 0 <= p < q < |all| && all[p] == vs[i] && all[q] == vs[j];
    if q < n {
      assert disk.stamped[p] == vs[i] && disk.stamped[q] == vs[j];
    } else {
      assert e[q - n] == vs[j] && e[q - n] in e;
      if p >= n {
        assert e[p - n] == vs[i];
        ElsewhereInOrder(named, disk.present, Elements(disk.stamped), p - n, q - n);
      } else {
        assert disk.stamped[p] == vs[i];
      }
    }
  }

  // --- acceptance, exactly ------------------------------------------------------------------------------

  /** The schema of the snapshot's database, when there is one and its version can be read. */
  function Known(root: Root, name: Stamp, disk: Disk): Option<nat>
    requires name in root
  {
    if name !in disk.illegible && root[name].db.Some? then Some(root[name].db.value.schema) else None
  }

  /** A rollback already made took this snapshot for its own safety. */
  ghost predicate TakenForSafety(runs: seq<Run>, name: Stamp) {
    exists i :: 0 <= i < |runs| && runs[i].Verdict? && runs[i].before.Some? && runs[i].safety == Some(name)
  }

  /** ACCEPTED, exactly, refusal by refusal, in the order in which they are met. */
  lemma JudgedExactly(root: Root, name: Stamp, disk: Disk, runs: seq<Run>, active: Venv)
    requires name in root
    ensures var r := Judged(root, name, disk, runs, active);
            var vs, schema := Venvs(disk, runs), Known(root, name, disk);
            if !root[name].complete then r == Err(Invalid)
            else if schema.Some? && forall v :: v in vs && v in disk.probe ==> disk.probe[v] != schema.value then
              r.Err? && r.error.NotRestorable?
            else if TakenForSafety(runs, name) then r == Err(SafetyOfRollback)
            else if schema.None? then r == Err(VenvNotFound)
            else
              (r == Err(AlreadyActive) <==> Preferred(vs, disk.probe, schema.value, Paired(runs, name), active))
              && (r == Err(Forward) <==> active in disk.probe && disk.probe[active] < schema.value)
              && (r.Ok? <==> r != Err(AlreadyActive) && r != Err(Forward))
              && (r.Ok? ==> Preferred(vs, disk.probe, schema.value, Paired(runs, name), r.value))
  {
    var vs := Venvs(disk, runs);
    if Known(root, name, disk).Some? {
      ChosenIsPreferred(vs, disk.probe, Known(root, name, disk).value, Paired(runs, name));
    }
    hide Venvs, Paired, Chosen;
    assert IsSafety(runs, name) <==> TakenForSafety(runs, name);
  }

  lemma NewerComeFirst(listing: seq<Stamp>, i: nat)
    requires Descending(listing) && i < |listing|
    ensures forall s :: s in listing && s > listing[i] ==> exists k :: 0 <= k < i && listing[k] == s
  {
  }

  lemma AcceptedIsPreferred(root: Root, name: Stamp, disk: Disk, runs: seq<Run>, active: Venv)
    requires name in root && Judged(root, name, disk, runs, active).Ok?
    ensures Known(root, name, disk).Some?
    ensures Preferred(Venvs(disk, runs), disk.probe, Known(root, name, disk).value, Paired(runs, name),
                      Judged(root, name, disk, runs, active).value)
  {
    hide Judged, Preferred, Venvs, Paired, TakenForSafety;
    JudgedExactly(root, name, disk, runs, active);
  }

  /** LISTED, exactly: a snapshot is valid when it is complete, named when a run names it, a safety snapshot when a
      rollback took it; its state is known only when it is complete, and then tells, of the venvs that answer,
      whether one reads exactly its schema, one reads further, or none does. */
  lemma ListedExactly(root: Root, name: Stamp, disk: Disk, runs: seq<Run>)
    requires name in root
    ensures var l := List(root, disk, runs, name);
            var vs, schema := Venvs(disk, runs), Known(root, name, disk);
            l.name == name && (l.valid <==> root[name].complete) && (l.safety <==> TakenForSafety(runs, name))
            && (l.named <==> exists i: nat :: NewestNaming(runs, name, i))
            && l.state == if !root[name].complete then Unknown
                          else if schema.None? then Restorable
                          else if vs == [] then Unknown
                          else if exists v :: v in vs && disk.probe[v] == schema.value then Restorable
                          else if exists v :: v in vs && disk.probe[v] > schema.value then DataOnly
                          else Unrestorable
  {
    var paired := Paired(runs, name);
    if paired.Some? {
      PairedExactly(runs, name, paired.value);
    }
    if i: nat :| NewestNaming(runs, name, i) {
      PairedExactly(runs, name, runs[i].before.value);
    }
    if Known(root, name, disk).Some? {
      ChosenIsPreferred(Venvs(disk, runs), disk.probe, Known(root, name, disk).value, paired);
    }
    hide Venvs, Paired, Chosen, NewestNaming;
    assert IsSafety(runs, name) <==> TakenForSafety(runs, name);
  }

  // --- what acceptance means ------------------------------------------------------------------------

  /** An accepted target really goes back: its snapshot is complete and carries a legible database, its
      venv reads EXACTLY that schema, it is not the active one, it reads no further than the active
      one when both answer, and it is not the safety snapshot of a rollback already made. */
  ghost predicate GoesBack(root: Root, name: Stamp, venv: Venv, disk: Disk, runs: seq<Run>, active: Venv) {
    name in root && root[name].complete && root[name].db.Some? && name !in disk.illegible
    && venv in Candidates(disk, runs)
    && venv in disk.probe && disk.probe[venv] == root[name].db.value.schema
    && venv != active
    && (active in disk.probe ==> disk.probe[venv] <= disk.probe[active])
    && !IsSafety(runs, name)
  }

  lemma AcceptedTargetGoesBack(root: Root, name: Stamp, disk: Disk, runs: seq<Run>, active: Venv)
    requires name in root
    requires Judged(root, name, disk, runs, active).Ok?
    ensures GoesBack(root, name, Judged(root, name, disk, runs, active).value, disk, runs, active)
  {
    FirstExactFinds(Venvs(disk, runs), disk.probe, root[name].db.value.schema);
  }

  /** The default resolution answers with the NEWEST usable snapshot, and only with a sound one. */
  lemma {:induction false} ResolutionIsSound(root: Root, listing: seq<Stamp>, disk: Disk, runs: seq<Run>, active: Venv)
    requires forall s :: s in listing ==> s in root
    ensures var r := Resolve(root, listing, disk, runs, active);
            match r
            case Some((name, venv)) =>
              GoesBack(root, name, venv, disk, runs, active)
              && exists i :: 0 <= i < |listing| && listing[i] == name && forall k :: 0 <= k < i ==>
                   Judged(root, listing[k], disk, runs, active).Err?
            case None =>
              forall s :: s in listing ==> Judged(root, s, disk, runs, active).Err?
  {
    if listing != [] {
      match Judged(root, listing[0], disk, runs, active)
      case Ok(v) =>
        AcceptedTargetGoesBack(root, listing[0], disk, runs, active);
        assert listing[0] == listing[0];
      case Err(_) =>
        ResolutionIsSound(root, listing[1..], disk, runs, active);
        var r := Resolve(root, listing[1..], disk, runs, active);
        if r.Some? {
          var i :| 0 <= i < |listing[1..]| && listing[1..][i] == r.value.0 && forall k :: 0 <= k < i ==>
                     Judged(root, listing[1..][k], disk, runs, active).Err?;
          forall k | 0 <= k < i + 1 ensures Judged(root, listing[k], disk, runs, active).Err? {
            if k > 0 {
              assert listing[k] == listing[1..][k - 1];
            }
          }
          assert listing[i + 1] == r.value.0;
        }
    }
  }

  /** The list and the resolution see the same disk: a snapshot shown `restorable` has no venv for
      exactly one reason, that it carries no database or one whose version cannot be read. */
  lemma ListAndResolutionAgree(root: Root, name: Stamp, disk: Disk, runs: seq<Run>)
    requires name in root && List(root, disk, runs, name).valid
    requires List(root, disk, runs, name).state == Restorable
    ensures VenvFor(root[name], name, disk, runs).None? <==> root[name].db.None? || name in disk.illegible
  {
  }

  /** `irrestaurable` means exactly that the restoration guard would refuse under EVERY venv that
      answers, forced or not; `données seules` that it would let the data through under one of them
      though none brings the binary back. */
  lemma StatesMeanTheGuard(schema: nat, venvs: seq<Venv>, probe: map<Venv, nat>, paired: Option<Venv>, allow: bool)
    requires forall v :: v in venvs ==> v in probe
    requires venvs != []
    ensures var state := Restorability(Some(schema), venvs, probe, paired);
            (state == Unrestorable <==>
               forall v :: v in venvs ==> HomeFiles.CheckCompatibility(Some(schema), Some(probe[v]), allow).Some?)
            && (state == Restorable <==> exists v :: v in venvs && probe[v] == schema)
            && (state == DataOnly <==>
                  (forall v :: v in venvs ==> probe[v] != schema)
                  && exists v :: v in venvs
                       && HomeFiles.CheckCompatibility(Some(schema), Some(probe[v]), allow).None?)
            && state != Unknown
  {
    FirstExactFinds(venvs, probe, schema);
    assert venvs[0] in venvs;
  }
}
