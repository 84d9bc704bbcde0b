/** Undo, end to end: an update that succeeded, then the rollback `forgemaster update rollback`
    resolves by default, bring back the venv and the data of before -- across the applicator, the
    journals, the retention and the resolution of the target. */
module UpdateUndo {
  import opened Prelude
  import opened Stamps
  import opened Retention
  import opened RollbackTargets
  import opened UpdateEngine
  import opened UpdateSafety
  import opened UpdateReports

  /** Every probe that answers tells the truth. */
  ghost predicate Truthful(disk: Disk, lit: Lit) {
    forall v :: v in disk.probe ==> disk.probe[v] == lit(v)
  }

  /** `v` is still on disk and answers when probed. */
  predicate Answers(disk: Disk, v: Venv) {
    (v in disk.present || v in disk.stamped) && v in disk.probe
  }

  /** `s` is the rank of a name given after every directory and every run of the past. */
  ghost predicate Fresh(s: Stamp, root: Root, runs: seq<Run>) {
    (forall d :: d in root ==> d < s) && !IsSafety(runs, s)
  }

  // --- the venv of before is a candidate -----------------------------------------------------------

  lemma {:induction false} ElsewhereCovers(named: seq<Venv>, present: set<Venv>, seen: set<Venv>, v: Venv)
    requires v in named && v in present
    ensures v in seen || v in Elsewhere(named, present, seen)
  {
    if named[0] == v {
    } else if named[0] !in present || named[0] in seen {
      ElsewhereCovers(named[1..], present, seen, v);
    } else {
      ElsewhereCovers(named[1..], present, seen + {named[0]}, v);
    }
  }

  lemma NamedVenvIsFound(disk: Disk, runs: seq<Run>, run: Run, v: Venv)
    requires Tells(run) && run.before == Some(v) && Answers(disk, v)
    ensures v in Venvs(disk, [run] + runs)
  {
    var all := [run] + runs;
    assert all[0] == run && all[1..] == runs;
    if v !in disk.stamped {
      ElsewhereCovers(Befores(all), disk.present, Elements(disk.stamped), v);
    }
    assert v in Candidates(disk, all);
  }

  lemma OlderRunsSaveNothing(runs: seq<Run>, run: Run, s: Stamp)
    requires !IsSafety(runs, s) && (Tells(run) ==> run.safety != Some(s))
    ensures !IsSafety([run] + runs, s)
  {
    var all := [run] + runs;
    forall i | 0 <= i < |all| ensures !(Tells(all[i]) && all[i].safety == Some(s)) {
      if i > 0 {
        assert all[i] == runs[i - 1];
      }
    }
  }

  // --- the default target ---------------------------------------------------------------------------

  /** The newest directory of the root comes first in the listing. */
  lemma NewestIsFirst(root: Root, s: Stamp)
    requires s in root && forall d :: d in root ==> d <= s
    ensures var listing := NewestFirst(root.Keys); |listing| > 0 && listing[0] == s
  {
    var listing := NewestFirst(root.Keys);
    assert s in listing;
    var i :| 0 <= i < |listing| && listing[i] == s;
    assert listing[0] in listing;
  }

  /** After an update that took snapshot `snap` of a database read by the venv of before, the
      default resolution points back to exactly that snapshot and that venv, and the retention check
      of the rollback lets it through. */
  lemma DefaultTargetIsTheUpdateItself(root: Root, disk: Disk, lit: Lit, runs: seq<Run>,
                                       before: Venv, blue: Venv, snap: Stamp, db: Db)
    requires snap in root && root[snap] == Snap(true, Some(db)) && db.schema == lit(before)
    requires forall d :: d in root ==> d <= snap
    requires !IsSafety(runs, snap)
    requires Truthful(disk, lit) && Answers(disk, before) && snap !in disk.illegible
    requires before != blue && lit(before) <= lit(blue)
    ensures var runs' := [Verdict(Some(before), Some(snap), None)] + runs;
            Resolve(root, NewestFirst(root.Keys), disk, runs', blue) == Some((snap, before))
    ensures Accepts(root, snap)
  {
    var run := Verdict(Some(before), Some(snap), None);
    var runs' := [run] + runs;
    NewestIsFirst(root, snap);
    NamedVenvIsFound(disk, runs, run, before);
    OlderRunsSaveNothing(runs, run, snap);
    assert Paired(runs', snap) == Some(before);
    assert Newer(Complete(root), snap) == {};
    UsableByItsOwnVenv(root, disk, lit, runs', before, blue, snap, db);
  }

  lemma UsableByItsOwnVenv(root: Root, disk: Disk, lit: Lit, runs: seq<Run>,
                           before: Venv, blue: Venv, snap: Stamp, db: Db)
    requires snap in root && root[snap] == Snap(true, Some(db)) && db.schema == lit(before)
    requires Paired(runs, snap) == Some(before) && !IsSafety(runs, snap)
    requires Truthful(disk, lit) && before in Venvs(disk, runs) && snap !in disk.illegible
    requires before != blue && lit(before) <= lit(blue)
    ensures Judged(root, snap, disk, runs, blue) == Ok(before)
  {
  }

  // --- the whole gesture ----------------------------------------------------------------------------

  /** What a successful update leaves: the snapshot of the data it stopped on, newest of all. */
  lemma UpdateLeavesItsSnapshot(s: Instance, lit: Lit, blue: Venv, snap: Stamp, w: ApplyWeather)
    requires s.link in s.venvs && forall d :: d in s.root ==> d < snap
    requires Apply(s, lit, blue, snap, w).1.rc == 0
    ensures var (after, report) := Apply(s, lit, blue, snap, w);
            report.run == Verdict(Some(s.link), Some(snap), None)
            && after.link == blue && {blue, s.link} <= after.venvs
            && snap in after.root && after.root[snap] == Snap(true, Held(s, lit, w.stop))
            && forall d :: d in after.root ==> d <= snap
  {
    hide Apply, Held;
    ApplyHolds(s, lit, blue, snap, w);
    UpdateRoot(s, lit, blue, snap, w);
  }

  lemma UpdateRoot(s: Instance, lit: Lit, blue: Venv, snap: Stamp, w: ApplyWeather)
    requires Apply(s, lit, blue, snap, w).1.rc == 0
    ensures Apply(s, lit, blue, snap, w).1.run == Verdict(Some(s.link), Some(snap), None)
    ensures Apply(s, lit, blue, snap, w).0.root.Keys <= s.root.Keys + {snap}
  {
    hide Stop, Photographed, Launch, Repose, Work, Retreat, Below, Settled, Readable, NeverForbidden, PurgedVenvs;
    var s1 := s.(venvs := s.venvs + {blue});
    var taken := Photographed(s1, lit, snap, w.stop, w.take);
    PhotographedKeeps(s1, lit, snap, w.stop, w.take, 0);
    RaisedKeeps(taken, lit, blue, w, 0);
    var up := Repose(Launch(taken.(link := blue), lit, w.start), lit, blue, w.maps);
    RetreatFails(Stop(up, lit, w.stopBack).(link := s.link), lit, s.link, blue, snap, w);
  }

  lemma RetreatFails(linked: Instance, lit: Lit, before: Venv, blue: Venv, snap: Stamp, w: ApplyWeather)
    ensures Retreat(linked, lit, before, blue, snap, w).1.rc != 0
  {
    hide Launch, Repose, PutBack, PutBackWhole;
  }

  /** A process that outlives a `stop` writes at its own schema: what is photographed is still what the
      binary of before wrote. */
  lemma HeldIsOfItsBinary(s: Instance, lit: Lit, stop: Step)
    requires Settled(s, lit) && s.data.Some? && s.data.value.schema == lit(s.link)
    ensures Held(s, lit, stop).Some? && Held(s, lit, stop).value.schema == lit(s.link)
    ensures stop.ok || s.running.None? || stop.work.None? ==> Held(s, lit, stop) == s.data
  {
  }

  /** UNDO. Let an update succeed on data its own binary had written; let the new binary serve for as
      long as it likes and write what it likes (`served`); then ask for a rollback without naming a
      target. The resolution names the venv and the snapshot of before; and if that rollback succeeds
      the link designates the venv of before, and its last start is on EXACTLY the database held when the
      update stopped the service, schema and rows -- if and only if a process that survives the `stop` of
      the rollback does not change what has just been restored. */
  lemma UndoRestoresEverything(s: Instance, lit: Lit, blue: Venv, snap: Stamp, w: ApplyWeather,
                               runs: seq<Run>, disk: Disk, served: Option<Db>,
                               safety: Stamp, r: RollbackWeather)
    requires s.link in s.venvs && blue != s.link && lit(s.link) <= lit(blue)
    requires Settled(s, lit) && s.data.Some? && s.data.value.schema == lit(s.link)
    requires Fresh(snap, s.root, runs) && safety > snap  // dated names only grow
    requires Truthful(disk, lit) && Answers(disk, s.link) && snap !in disk.illegible
    requires Apply(s, lit, blue, snap, w).1.rc == 0
    ensures var (up, report) := Apply(s, lit, blue, snap, w);
            Resolve(up.root, NewestFirst(up.root.Keys), disk, [report.run] + runs, up.link) == Some((snap, s.link))
            && Accepts(up.root, snap)
    ensures var up := Apply(s, lit, blue, snap, w).0.(data := served);
            var (back, report) := Rollback(up, lit, s.link, snap, safety, r);
            var held := Held(s, lit, w.stop);
            report.rc == 0 ==>
              back.link == s.link
              && (EndsOn(up, back, s.link, held) <==> Written(held, Survivor(up, r.stop), lit, r.restore.work) == held)
              && (r.stop.ok || r.restore.work.None? || up.running.None? ==> EndsOn(up, back, s.link, held))
  {
    hide Apply, Rollback, Resolve, Judged, Answers, Held, Settled;
    UpdateLeavesItsSnapshot(s, lit, blue, snap, w);
    HeldIsOfItsBinary(s, lit, w.stop);
    var up := Apply(s, lit, blue, snap, w).0;
    DefaultTargetIsTheUpdateItself(up.root, disk, lit, runs, s.link, blue, snap, Held(s, lit, w.stop).value);
    RollbackTellsTheTruth(up.(data := served), lit, s.link, snap, safety, r);
  }

  /** Undo is not undone by mistake: once a rollback has left its verdict in the journals, no default
      resolution, on any disk, ever points to its safety snapshot again. */
  lemma RollbackIsNotItsOwnTarget(root: Root, disk: Disk, runs: seq<Run>, active: Venv, left: Venv, safety: Stamp,
                                  k: nat)
    requires k < |runs| && runs[k] == Verdict(Some(left), None, Some(safety))
    ensures var r := Resolve(root, NewestFirst(root.Keys), disk, runs, active);
            r.Some? ==> r.value.0 != safety && GoesBack(root, r.value.0, r.value.1, disk, runs, active)
  {
    ResolutionIsSound(root, NewestFirst(root.Keys), disk, runs, active);
    assert IsSafety(runs, safety);
  }

  /** What the resolution accepts is what the applicator needs: on a probed active venv, an accepted
      target is a fit one, so `RollbackNeverServesForbidden` applies to it. */
  lemma AcceptedTargetIsFit(s: Instance, lit: Lit, disk: Disk, runs: seq<Run>, name: Stamp)
    requires name in s.root && Truthful(disk, lit) && s.link in disk.probe
    requires Judged(s.root, name, disk, runs, s.link).Ok?
    ensures FitTarget(s, lit, Judged(s.root, name, disk, runs, s.link).value, name)
  {
    AcceptedTargetGoesBack(s.root, name, disk, runs, s.link);
  }
}
