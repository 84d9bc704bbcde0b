/** The blue/green applicator (`apply_update.py`): `apply` and `rollback`, step by step, over an
    instance whose every external call may fail.

    A run is driven by a "weather": one outcome per external step, and the step, if any, in which an
    exception that nothing catches escapes. Quantifying over the weather is quantifying over every
    pattern of failures; a crash of the applicator itself is one of these exceptions. */
module UpdateEngine {
  import opened Prelude
  import opened Stamps
  import opened Retention
  import opened RollbackTargets
  import Store
  import HomeFiles

  // --- the database under a binary ------------------------------------------------------------

  /** The binary that reads up to schema `known` can open this database (there may be none). */
  predicate Readable(data: Option<Db>, known: nat) {
    data.Some? ==> Store.Migrate(data.value.schema, known, false).Ok?
  }

  /** The boot of the daemon opens the base: created, migrated, or left alone when refused. */
  function Opened(data: Option<Db>, known: nat): Option<Db> {
    match data
    case None => Some(Db(known, []))
    case Some(d) =>
      match Store.Migrate(d.schema, known, false)
      case Err(_) => data
      case Ok(schema) => Some(Db(schema, d.rows))
  }

  // --- the instance -----------------------------------------------------------------------------

  /** One `systemctl start`: the venv linked and the data in place at that instant. */
  datatype Start = Start(venv: Venv, data: Option<Db>)

  /** `running` is the venv of the live process, which outlives a failed `systemctl stop`;
      `maps` the edition whose host maps are installed, when known. */
  datatype Instance = Instance(link: Venv, data: Option<Db>, running: Option<Venv>, root: Root,
                               maps: Option<Venv>, venvs: set<Venv>, starts: seq<Start>)

  type Lit = Venv -> nat  // the schema each venv reads up to

  /** What becomes of the data while the process `who`, if any, serves requests: each opens the base. */
  function Written(data: Option<Db>, who: Option<Venv>, lit: Lit, rows: Option<seq<int>>): Option<Db> {
    if who.None? || rows.None? then data
    else if data.None? then Some(Db(lit(who.value), rows.value))
    else
      match Store.Migrate(data.value.schema, lit(who.value), false)
      case Err(_) => data
      case Ok(schema) => Some(Db(schema, rows.value))
  }

  /** What a still-running process may do between two steps. */
  function Work(s: Instance, lit: Lit, rows: Option<seq<int>>): Instance {
    s.(data := Written(s.data, s.running, lit, rows))
  }

  datatype Step = Step(ok: bool, work: Option<seq<int>>)

  /** `_systemctl stop`: a failure is logged and ignored. */
  function Stop(s: Instance, lit: Lit, w: Step): Instance {
    Work(if w.ok then s.(running := None) else s, lit, w.work)
  }

  /** `_systemctl start`: no effect on a unit that is still active. */
  function Launch(s: Instance, lit: Lit, w: Step): Instance {
    var t := s.(starts := s.starts + [Start(s.link, s.data)]);
    Work(if s.running.None? && w.ok then t.(running := Some(s.link), data := Opened(s.data, lit(s.link))) else t,
         lit, w.work)
  }

  datatype TakeStep = TakeStep(how: Progress, told: bool, work: Option<seq<int>>)

  /** `take_snapshot`: it may leave an incomplete directory, or succeed without saying so. */
  function Take(s: Instance, lit: Lit, stamp: Stamp, w: TakeStep): Instance {
    Work(s.(root := AfterCreate(s.root, stamp, s.data, w.how)), lit, w.work)
  }

  predicate Took(w: TakeStep) {
    w.how == Completed && w.told
  }

  /** How a restoration ends. Cut short, it leaves the database untouched, gone, or already the
      snapshot's: `HomeSafety.CrashedDatabase` proves there is no fourth way. */
  datatype RestoreFault = Whole | Refused | LostDatabase | DatabaseOnly
  /** `legible`, `answers`: the version of the snapshot's database, and that of the linked binary, can be
      read; `knowsFlag`: the frozen script knows the flag that lifts a doubt. */
  datatype RestoreStep = RestoreStep(legible: bool, answers: bool, knowsFlag: bool, fault: RestoreFault,
                                     work: Option<seq<int>>)

  /** What the restoration guard says of a snapshot under the binary `link`. */
  predicate Guard(snap: Snap, link: Venv, lit: Lit, w: RestoreStep) {
    snap.complete
    && HomeFiles.CheckCompatibility(if w.legible then SchemaOf(snap) else None,
                                    if w.answers then Some(lit(link)) else None, w.knowsFlag).None?
  }

  predicate GuardPasses(s: Instance, lit: Lit, name: Stamp, w: RestoreStep) {
    name in s.root && Guard(s.root[name], s.link, lit, w)
  }

  predicate PutBackWhole(s: Instance, lit: Lit, name: Stamp, w: RestoreStep) {
    GuardPasses(s, lit, name, w) && w.fault == Whole
  }

  /** `_restore`: refused, cut before the database is back, cut after, or whole. */
  function PutBack(s: Instance, lit: Lit, name: Stamp, w: RestoreStep): Instance {
    var data := if !GuardPasses(s, lit, name, w) || w.fault == Refused then s.data
                else if w.fault == LostDatabase then None
                else s.root[name].db;
    Work(s.(data := data), lit, w.work)
  }

  datatype MapsState = Posed | NotMeasured | Missed
  datatype MapsStep = MapsStep(state: MapsState, work: Option<seq<int>>)

  /** `repose_maps`: asks a venv to install the maps of ITS edition. */
  function Repose(s: Instance, lit: Lit, venv: Venv, w: MapsStep): Instance {
    var maps := match w.state
                case Posed => Some(venv)
                case NotMeasured => s.maps
                case Missed => None;
    Work(s.(maps := maps), lit, w.work)
  }

  const KEEP_VENVS: nat := ROLLBACK_DEPTH + 1

  /** `_purge_venvs`: on a list that does not fit the policy, nothing is deleted. */
  function PurgedVenvs(venvs: set<Venv>, keep: set<Venv>): set<Venv> {
    if |keep| != KEEP_VENVS then venvs else venvs * keep
  }

  // --- reports ------------------------------------------------------------------------------------

  datatype Impact =
    | NotTouched             // none: the service was not touched
    | RelaunchedAsIs         // none: the service was started again as it was
    | ToolsBehind            // venv and data are up, the host maps stayed behind
    | LinkForward            // neither half: the link is on the new version again
    | Reverted               // back to the state before, venv and data
    | AsBefore               // neither half: the instance is as before the gesture
    | AtSnapshot             // back to the state of the snapshot, venv and data
    | AtSnapshotToolsBehind  // the same, the host maps stayed behind
    | BackBefore             // back to the state before the rollback, venv and data
    | DataNotBack            // the link is back, the data are not

  datatype Report = Report(rc: nat, impact: Option<Impact>, maps: Option<MapsState>, run: Run)

  /** An exception that escapes: `main` writes rc 2 and nothing else. */
  const UNEXPECTED: Report := Report(2, None, None, Verdict(None, None, None))

  /** The step in which an exception escapes, before it has any effect. A link that cannot be replaced is
      such an exception, but for the first swap of a rollback, which is caught. */
  datatype Halt =
    | Nowhere | Building | Stopping | Taking | Relaunching | Swapping | Starting | Posing | Judging | Purging
    | StoppingBack | SwappingBack | Restoring | RestoringBack | SwappingForward | StartingForward | StartingBack
    | PosingBack | Waiting

  // --- apply ----------------------------------------------------------------------------------------

  datatype ApplyWeather = ApplyWeather(
    halt: Halt, built: bool, early: Option<seq<int>>, stop: Step, take: TakeStep, relaunch: Step,
    start: Step, maps: MapsStep, live: bool,
    stopBack: Step, restore: RestoreStep, startForward: Step,
    startBack: Step, mapsBack: MapsStep, healthy: bool)

  /** Stopped, and photographed. */
  function Photographed(s: Instance, lit: Lit, stamp: Stamp, stop: Step, take: TakeStep): Instance {
    Take(Stop(s, lit, stop), lit, stamp, take)
  }

  function Apply(s0: Instance, lit: Lit, blue: Venv, stamp: Stamp, w: ApplyWeather): (Instance, Report) {
    var before := s0.link;
    var s := s0.(venvs := s0.venvs + {blue});
    var none := Verdict(Some(before), None, None);
    if w.halt == Building || (w.built && w.halt == Stopping) then (Work(s, lit, w.early), UNEXPECTED)
    else if !w.built then (Work(s, lit, w.early), Report(1, Some(NotTouched), None, none))
    else if w.halt == Taking then (Stop(s, lit, w.stop), UNEXPECTED)
    else
      var taken := Photographed(s, lit, stamp, w.stop, w.take);
      if !Took(w.take) then
        if w.halt == Relaunching then (taken, UNEXPECTED)
        else (Launch(taken, lit, w.relaunch), Report(1, Some(RelaunchedAsIs), None, none))
      else if w.halt == Swapping then (taken, UNEXPECTED)
      else if w.halt == Starting then (taken.(link := blue), UNEXPECTED)
      else Raise(taken, lit, before, blue, stamp, w)
  }

  /** The link is on the new venv: started, its maps installed, then judged live. */
  function Raise(taken: Instance, lit: Lit, before: Venv, blue: Venv, stamp: Stamp, w: ApplyWeather)
    : (Instance, Report)
  {
    var launched := Launch(taken.(link := blue), lit, w.start);
    var up := Repose(launched, lit, blue, w.maps);
    if w.halt == Posing then (launched, UNEXPECTED)
    else if w.halt == Judging || w.halt == (if w.live then Purging else StoppingBack) then (up, UNEXPECTED)
    else if w.live then
      (up.(venvs := PurgedVenvs(up.venvs, {blue, before})),
       Report(0, if w.maps.state == Missed then Some(ToolsBehind) else None, Some(w.maps.state),
              Verdict(Some(before), Some(stamp), None)))
    else
      var down := Stop(up, lit, w.stopBack);
      if w.halt == SwappingBack then (down, UNEXPECTED)
      else Retreat(down.(link := before), lit, before, blue, stamp, w)
  }

  /** The automatic way back, once the link is back: the data, and FORWARD again if that half fails. */
  function Retreat(linked: Instance, lit: Lit, before: Venv, blue: Venv, stamp: Stamp, w: ApplyWeather)
    : (Instance, Report)
  {
    var run := Verdict(Some(before), Some(stamp), None);
    var put := PutBack(linked, lit, stamp, w.restore);
    if w.halt == Restoring then (linked, UNEXPECTED)
    else if !PutBackWhole(linked, lit, stamp, w.restore) then
      if w.halt == SwappingForward then (put, UNEXPECTED)
      else if w.halt == StartingForward then (put.(link := blue), UNEXPECTED)
      else (Launch(put.(link := blue), lit, w.startForward), Report(2, Some(LinkForward), Some(w.maps.state), run))
    else if w.halt == StartingBack then (put, UNEXPECTED)
    else
      var launched := Launch(put, lit, w.startBack);
      var up := Repose(launched, lit, before, w.mapsBack);
      if w.halt == PosingBack then (launched, UNEXPECTED)
      else if w.halt == Waiting then (up, UNEXPECTED)
      else (up, Report(if w.healthy then 1 else 2, Some(Reverted), Some(w.mapsBack.state), run))
  }

  // --- rollback ---------------------------------------------------------------------------------------

  datatype RollbackWeather = RollbackWeather(
    halt: Halt, probed: bool, early: Option<seq<int>>, stop: Step, take: TakeStep, relaunch: Step,
    swap: bool, restore: RestoreStep, startForward: Step,
    start: Step, maps: MapsStep, live: bool,
    stopBack: Step, restoreBack: RestoreStep, startBack: Step, mapsBack: MapsStep, healthy: bool)

  function Rollback(s: Instance, lit: Lit, target: Venv, name: Stamp, safety: Stamp, w: RollbackWeather)
    : (Instance, Report)
  {
    var current := s.link;
    var none := Verdict(Some(current), None, None);
    var some := Verdict(Some(current), None, Some(safety));
    var allowed := Accepts(s.root, name) && w.probed;
    if w.halt == Building || (allowed && w.halt == Stopping) then (Work(s, lit, w.early), UNEXPECTED)
    else if !allowed then (Work(s, lit, w.early), Report(1, Some(NotTouched), None, none))
    else if w.halt == Taking then (Stop(s, lit, w.stop), UNEXPECTED)
    else
      var taken := Photographed(s, lit, safety, w.stop, w.take);
      if !Took(w.take) || !(name in taken.root && taken.root[name].complete) || !w.swap then
        if w.halt == Relaunching then (taken, UNEXPECTED)
        else (Launch(taken, lit, w.relaunch),
              Report(1, Some(RelaunchedAsIs), None, if Took(w.take) then some else none))
      else Cross(taken.(link := target), lit, current, target, name, safety, w)
  }

  /** The link is on the target: its data, or FORWARD again; then started, and judged live. */
  function Cross(linked: Instance, lit: Lit, current: Venv, target: Venv, name: Stamp, safety: Stamp,
                 w: RollbackWeather): (Instance, Report)
  {
    var some := Verdict(Some(current), None, Some(safety));
    var put := PutBack(linked, lit, name, w.restore);
    if w.halt == Restoring then (linked, UNEXPECTED)
    else if !PutBackWhole(linked, lit, name, w.restore) then
      if w.halt == SwappingForward then (put, UNEXPECTED)
      else if w.halt == StartingForward then (put.(link := current), UNEXPECTED)
      else (Launch(put.(link := current), lit, w.startForward), Report(1, Some(AsBefore), None, some))
    else if w.halt == Starting then (put, UNEXPECTED)
    else
      var launched := Launch(put, lit, w.start);
      var up := Repose(launched, lit, target, w.maps);
      if w.halt == Posing then (launched, UNEXPECTED)
      else if w.halt == Judging || (!w.live && w.halt == StoppingBack) then (up, UNEXPECTED)
      else if w.live then
        (up, Report(0, Some(if w.maps.state == Missed then AtSnapshotToolsBehind else AtSnapshot),
                    Some(w.maps.state), some))
      else
        var down := Stop(up, lit, w.stopBack);
        if w.halt == SwappingBack then (down, UNEXPECTED)
        else Reinstate(down.(link := current), lit, current, safety, w)
  }

  /** The way back from the way back, once the link is back: the safety snapshot. */
  function Reinstate(linked: Instance, lit: Lit, current: Venv, safety: Stamp, w: RollbackWeather): (Instance, Report) {
    var back := PutBackWhole(linked, lit, safety, w.restoreBack);
    var put := PutBack(linked, lit, safety, w.restoreBack);
    if w.halt == RestoringBack then (linked, UNEXPECTED)
    else if w.halt == StartingBack then (put, UNEXPECTED)
    else
      var launched := Launch(put, lit, w.startBack);
      var up := Repose(launched, lit, current, w.mapsBack);
      if w.halt == PosingBack then (launched, UNEXPECTED)
      else if w.halt == Waiting then (up, UNEXPECTED)
      else (up, Report(if back && w.healthy then 1 else 2, Some(if back then BackBefore else DataNotBack),
                       Some(w.mapsBack.state), Verdict(Some(current), None, Some(safety))))
  }

  // --- the applicator -----------------------------------------------------------------------------------

  class Applicator {
    var s: Instance
    const lit: Lit

    constructor (initial: Instance, lit: Lit)
      ensures s == initial && this.lit == lit
    {
      s := initial;
      this.lit := lit;
    }

    method Systemctl(start: bool, w: Step)
      modifies this`s
      ensures s == if start then Launch(old(s), lit, w) else Stop(old(s), lit, w)
      ensures s.root == old(s).root && s.link == old(s).link
    {
      if start {
        s := s.(starts := s.starts + [Start(s.link, s.data)]);
        if s.running.None? && w.ok {
          s := s.(running := Some(s.link), data := Opened(s.data, lit(s.link)));
        }
      } else if w.ok {
        s := s.(running := None);
      }
      s := Work(s, lit, w.work);
    }

    method TakeSnapshot(stamp: Stamp, w: TakeStep) returns (ok: bool)
      requires stamp !in s.root
      modifies this`s
      ensures s == Take(old(s), lit, stamp, w) && ok == Took(w)
      ensures ok ==> stamp in s.root && s.root[stamp] == Snap(true, old(s).data)
    {
      var root := new SnapshotRoot(s.root);
      var created := root.Create(stamp, s.data, w.how);
      s := Work(s.(root := root.dirs), lit, w.work);
      ok := w.how == Completed && w.told;
    }

    method Restore(name: Stamp, w: RestoreStep) returns (ok: bool)
      modifies this`s
      ensures s == PutBack(old(s), lit, name, w) && ok == PutBackWhole(old(s), lit, name, w)
    {
      ok := PutBackWhole(s, lit, name, w);
      s := PutBack(s, lit, name, w);
    }

    method ReposeMaps(venv: Venv, w: MapsStep)
      modifies this`s
      ensures s == Repose(old(s), lit, venv, w)
    {
      s := Repose(s, lit, venv, w);
    }

    method ApplyWheel(blue: Venv, stamp: Stamp, w: ApplyWeather) returns (report: Report)
      requires stamp !in s.root
      modifies this`s
      ensures (s, report) == Apply(old(s), lit, blue, stamp, w)
    {
      hide Work, Stop, Take, Launch, Repose, PutBack, PutBackWhole, PurgedVenvs;
      var before := s.link;
      s := s.(venvs := s.venvs + {blue});
      if !w.built || w.halt == Building || w.halt == Stopping {
        s := Work(s, lit, w.early);
        return if w.halt == Building || (w.built && w.halt == Stopping) then UNEXPECTED
               else Report(1, Some(NotTouched), None, Verdict(Some(before), None, None));
      }
      Systemctl(false, w.stop);
      if w.halt == Taking {
        return UNEXPECTED;
      }
      var taken := TakeSnapshot(stamp, w.take);
      if !taken {
        if w.halt == Relaunching {
          return UNEXPECTED;
        }
        Systemctl(true, w.relaunch);
        return Report(1, Some(RelaunchedAsIs), None, Verdict(Some(before), None, None));
      }
      if w.halt == Swapping {
        return UNEXPECTED;
      }
      s := s.(link := blue);
      if w.halt == Starting {
        return UNEXPECTED;
      }
      report := RaiseWheel(before, blue, stamp, w);
    }

    /** From the first start on the new venv. */
    method RaiseWheel(before: Venv, blue: Venv, stamp: Stamp, w: ApplyWeather) returns (report: Report)
      requires s.link == blue
      modifies this`s
      ensures (s, report) == Raise(old(s), lit, before, blue, stamp, w)
    {
      hide Work, Stop, Launch, Repose, PutBack, PutBackWhole, PurgedVenvs;
      Systemctl(true, w.start);
      if w.halt == Posing {
        return UNEXPECTED;
      }
      ReposeMaps(blue, w.maps);
      if w.halt == Judging {
        return UNEXPECTED;
      }
      if w.live {
        if w.halt == Purging {
          return UNEXPECTED;
        }
        s := s.(venvs := PurgedVenvs(s.venvs, {blue, before}));
        return Report(0, if w.maps.state == Missed then Some(ToolsBehind) else None, Some(w.maps.state),
                      Verdict(Some(before), Some(stamp), None));
      }
      if w.halt == StoppingBack {
        return UNEXPECTED;
      }
      Systemctl(false, w.stopBack);
      if w.halt == SwappingBack {
        return UNEXPECTED;
      }
      s := s.(link := before);
      report := RetreatFrom(before, blue, stamp, w);
    }

    /** From the restoration of the automatic way back. */
    method RetreatFrom(before: Venv, blue: Venv, stamp: Stamp, w: ApplyWeather) returns (report: Report)
      modifies this`s
      ensures (s, report) == Retreat(old(s), lit, before, blue, stamp, w)
    {
      hide Work, Launch, Repose, PutBack, PutBackWhole;
      var run := Verdict(Some(before), Some(stamp), None);
      if w.halt == Restoring {
        return UNEXPECTED;
      }
      var restored := Restore(stamp, w.restore);
      if !restored {
        if w.halt == SwappingForward {
          return UNEXPECTED;
        }
        s := s.(link := blue);
        if w.halt == StartingForward {
          return UNEXPECTED;
        }
        Systemctl(true, w.startForward);
        return Report(2, Some(LinkForward), Some(w.maps.state), run);
      }
      if w.halt == StartingBack {
        return UNEXPECTED;
      }
      Systemctl(true, w.startBack);
      if w.halt == PosingBack {
        return UNEXPECTED;
      }
      ReposeMaps(before, w.mapsBack);
      if w.halt == Waiting {
        return UNEXPECTED;
      }
      return Report(if w.healthy then 1 else 2, Some(Reverted), Some(w.mapsBack.state), run);
    }

    method RollBack(target: Venv, name: Stamp, safety: Stamp, w: RollbackWeather) returns (report: Report)
      requires safety !in s.root
      modifies this`s
      ensures (s, report) == Rollback(old(s), lit, target, name, safety, w)
    {
      hide Work, Stop, Take, Launch, Repose, PutBack, PutBackWhole, Accepts;
      var current := s.link;
      var allowed := Accepts(s.root, name) && w.probed;
      if !allowed || w.halt == Building || w.halt == Stopping {
        s := Work(s, lit, w.early);
        return if w.halt == Building || (allowed && w.halt == Stopping) then UNEXPECTED
               else Report(1, Some(NotTouched), None, Verdict(Some(current), None, None));
      }
      Systemctl(false, w.stop);
      if w.halt == Taking {
        return UNEXPECTED;
      }
      var taken := TakeSnapshot(safety, w.take);
      if !taken || !(name in s.root && s.root[name].complete) || !w.swap {
        if w.halt == Relaunching {
          return UNEXPECTED;
        }
        Systemctl(true, w.relaunch);
        return Report(1, Some(RelaunchedAsIs), None,
                      Verdict(Some(current), None, if taken then Some(safety) else None));
      }
      s := s.(link := target);
      report := CrossTo(current, target, name, safety, w);
    }

    /** From the restoration of the target. */
    method CrossTo(current: Venv, target: Venv, name: Stamp, safety: Stamp, w: RollbackWeather)
      returns (report: Report)
      modifies this`s
      ensures (s, report) == Cross(old(s), lit, current, target, name, safety, w)
    {
      hide Work, Stop, Launch, Repose, PutBack, PutBackWhole;
      var run := Verdict(Some(current), None, Some(safety));
      if w.halt == Restoring {
        return UNEXPECTED;
      }
      var restored := Restore(name, w.restore);
      if !restored {
        if w.halt == SwappingForward {
          return UNEXPECTED;
        }
        s := s.(link := current);
        if w.halt == StartingForward {
          return UNEXPECTED;
        }
        Systemctl(true, w.startForward);
        return Report(1, Some(AsBefore), None, run);
      }
      if w.halt == Starting {
        return UNEXPECTED;
      }
      Systemctl(true, w.start);
      if w.halt == Posing {
        return UNEXPECTED;
      }
      ReposeMaps(target, w.maps);
      if w.halt == Judging {
        return UNEXPECTED;
      }
      if w.live {
        return Report(0, Some(if w.maps.state == Missed then AtSnapshotToolsBehind else AtSnapshot),
                      Some(w.maps.state), run);
      }
      if w.halt == StoppingBack {
        return UNEXPECTED;
      }
      Systemctl(false, w.stopBack);
      if w.halt == SwappingBack {
        return UNEXPECTED;
      }
      s := s.(link := current);
      report := ReinstateFrom(current, safety, w);
    }

    /** From the restoration of the safety snapshot. */
    method ReinstateFrom(current: Venv, safety: Stamp, w: RollbackWeather) returns (report: Report)
      modifies this`s
      ensures (s, report) == Reinstate(old(s), lit, current, safety, w)
    {
      hide Work, Launch, Repose, PutBack, PutBackWhole;
      if w.halt == RestoringBack {
        return UNEXPECTED;
      }
      var restored := Restore(safety, w.restoreBack);
      if w.halt == StartingBack {
        return UNEXPECTED;
      }
      Systemctl(true, w.startBack);
      if w.halt == PosingBack {
        return UNEXPECTED;
      }
      ReposeMaps(current, w.mapsBack);
      if w.halt == Waiting {
        return UNEXPECTED;
      }
      return Report(if restored && w.healthy then 1 else 2, Some(if restored then BackBefore else DataNotBack),
                    Some(w.mapsBack.state), Verdict(Some(current), None, Some(safety)));
    }
  }
}
