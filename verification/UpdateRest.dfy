/** Where a gesture of the update cycle leaves an instance: steady or not, at rest or not, exactly. */
module UpdateRest {
  import opened Prelude
  import opened Stamps
  import opened Retention
  import opened RollbackTargets
  import opened UpdateEngine
  import opened UpdateSafety

  // --- apply --------------------------------------------------------------------------------------

  /** The guard lets the photographed data through, under the binary of before. */
  predicate Restorable(s: Instance, lit: Lit, w: ApplyWeather) {
    Guard(Snap(true, Stop(s, lit, w.stop).data), s.link, lit, w.restore)
  }

  /** The new version was started, by nobody but this update, and failed its live check; the link goes back. */
  predicate TurnsBack(s: Instance, w: ApplyWeather) {
    w.built && Took(w.take) && !w.live && w.start.ok && (s.running.None? || w.stop.ok)
    && w.halt !in {Building, Stopping, Taking, Swapping, Starting, Posing, Judging, StoppingBack, SwappingBack}
  }

  /** An exception escapes once the link is back and before the data are: the restoration was not reached,
      or it was refused and the link could not move forward again. */
  predicate HalfBack(s: Instance, lit: Lit, w: ApplyWeather) {
    w.halt == Restoring || (w.halt == SwappingForward && (!Restorable(s, lit, w) || w.restore.fault == Refused))
  }

  /** The link stays on the binary of before. */
  predicate StaysBack(s: Instance, lit: Lit, w: ApplyWeather) {
    w.halt == Restoring || w.halt == SwappingForward || (Restorable(s, lit, w) && w.restore.fault == Whole)
  }

  /** The way back of an update to a LATER schema that ends on the binary of before, with the data of the new
      one or with its process alive. */
  predicate Astray(s: Instance, lit: Lit, blue: Venv, w: ApplyWeather) {
    lit(blue) > lit(s.link) && TurnsBack(s, w) && StaysBack(s, lit, w) && (!w.stopBack.ok || HalfBack(s, lit, w))
  }

  /** The data of a started binary carry its schema; nothing else raises them. */
  lemma RaisedSchema(taken: Instance, lit: Lit, blue: Venv, w: ApplyWeather, top: nat)
    requires Below(taken, lit, lit(blue))
    ensures var up := Repose(Launch(taken.(link := blue), lit, w.start), lit, blue, w.maps);
            var down := Stop(up, lit, w.stopBack);
            if taken.running.None? && w.start.ok
            then down.data.Some? && down.data.value.schema == lit(blue)
            else Below(taken, lit, top) ==> Below(up, lit, top) && Below(down, lit, top)
  {
    hide Launch, Repose, Stop;
    var launched := Launch(taken.(link := blue), lit, w.start);
    var up := Repose(launched, lit, blue, w.maps);
    RaisedKeeps(taken, lit, blue, w, top);
    ReposeKeeps(launched, lit, blue, w.maps, top);
    StopKeeps(up, lit, w.stopBack, top);
    if taken.running.Some? || !w.start.ok {
      NotStartedIsBelow(taken.(link := blue), lit, w.start, top);
    }
  }

  lemma NotStartedIsBelow(s: Instance, lit: Lit, w: Step, top: nat)
    requires s.running.Some? || !w.ok
    ensures Below(s, lit, top) ==> Below(Launch(s, lit, w), lit, top)
  {
  }

  /** A restoration that does not replace the data leaves them as readable as they were, unless a process
      that reads further works on them. */
  lemma UntouchedData(linked: Instance, lit: Lit, name: Stamp, w: RestoreStep)
    requires !GuardPasses(linked, lit, name, w) || w.fault == Refused
    requires linked.running.Some? ==> lit(linked.running.value) <= lit(linked.link)
    ensures Readable(PutBack(linked, lit, name, w).data, lit(linked.link)) <==> Readable(linked.data, lit(linked.link))
  {
  }

  lemma ReplacedData(linked: Instance, lit: Lit, name: Stamp, w: RestoreStep)
    requires GuardPasses(linked, lit, name, w) && w.fault != Refused && Readable(linked.root[name].db, lit(linked.link))
    requires linked.running.Some? ==> lit(linked.running.value) <= lit(linked.link)
    ensures Readable(PutBack(linked, lit, name, w).data, lit(linked.link))
  {
  }

  lemma RetreatSteadies(linked: Instance, lit: Lit, before: Venv, blue: Venv, stamp: Stamp, w: ApplyWeather)
    requires linked.link == before && Below(linked, lit, lit(blue)) && stamp in linked.root
    requires Readable(linked.root[stamp].db, lit(before)) && Readable(linked.root[stamp].db, lit(blue))
    ensures var passes := GuardPasses(linked, lit, stamp, w.restore);
            var stays := w.halt == Restoring || w.halt == SwappingForward || (passes && w.restore.fault == Whole);
            var half := w.halt == Restoring || (w.halt == SwappingForward && (!passes || w.restore.fault == Refused));
            Steady(Retreat(linked, lit, before, blue, stamp, w).0, lit) <==>
              !(stays && ((linked.running.Some? && lit(linked.running.value) > lit(before))
                          || (half && !Readable(linked.data, lit(before)))))
  {
    hide Launch, Repose, PutBack, GuardPasses, Work;
    var put := PutBack(linked, lit, stamp, w.restore);
    PutBackKeeps(linked, lit, stamp, w.restore, lit(blue));
    LaunchKeeps(put.(link := blue), lit, w.startForward, lit(blue));
    LaunchKeeps(put, lit, w.startBack, lit(before));
    ReposeKeeps(Launch(put, lit, w.startBack), lit, before, w.mapsBack, lit(before));
    CutSteadies(linked, lit, stamp, w.restore);
  }

  lemma RaiseSteadies(taken: Instance, lit: Lit, before: Venv, blue: Venv, stamp: Stamp, w: ApplyWeather)
    requires Below(taken, lit, lit(blue)) && Below(taken, lit, lit(before)) && stamp in taken.root
    requires Readable(taken.root[stamp].db, lit(before)) && Readable(taken.root[stamp].db, lit(blue))
    ensures var passes := Guard(taken.root[stamp], before, lit, w.restore);
            var stays := w.halt == Restoring || w.halt == SwappingForward || (passes && w.restore.fault == Whole);
            var half := w.halt == Restoring || (w.halt == SwappingForward && (!passes || w.restore.fault == Refused));
            Steady(Raise(taken, lit, before, blue, stamp, w).0, lit) <==>
              !(lit(blue) > lit(before) && !w.live && w.halt !in {Posing, Judging, StoppingBack, SwappingBack}
                && taken.running.None? && w.start.ok && stays && (!w.stopBack.ok || half))
  {
    hide Stop, Launch, Repose, Retreat, Guard, PurgedVenvs;
    RaisedKeeps(taken, lit, blue, w, lit(blue));
    var launched := Launch(taken.(link := blue), lit, w.start);
    LaunchKeeps(taken.(link := blue), lit, w.start, lit(blue));
    var up := Repose(launched, lit, blue, w.maps);
    StopKeeps(up, lit, w.stopBack, lit(blue));
    RaisedSchema(taken, lit, blue, w, lit(before));
    RetreatSteadies(Stop(up, lit, w.stopBack).(link := before), lit, before, blue, stamp, w);
  }

  /** STEADY, apply, exactly. From any steady instance, with any pattern of failures, an update to a wheel
      that reads as far as the data and the process alive leaves a steady instance unless its way back goes
      astray. */
  lemma ApplySteadies(s: Instance, lit: Lit, blue: Venv, stamp: Stamp, w: ApplyWeather)
    requires Steady(s, lit) && Below(s, lit, lit(blue)) && stamp !in s.root
    ensures Steady(Apply(s, lit, blue, stamp, w).0, lit) <==> !Astray(s, lit, blue, w)
  {
    hide Stop, Photographed, Launch, Raise, Work, AfterCreate, Guard;
    var s1 := s.(venvs := s.venvs + {blue});
    WorkKeeps(s1, lit, w.early, lit(s.link));
    StopKeeps(s1, lit, w.stop, lit(s.link));
    StopForgetsVenvs(s, lit, s1.venvs, w.stop);
    var taken := Photographed(s1, lit, stamp, w.stop, w.take);
    PhotographedKeeps(s1, lit, stamp, w.stop, w.take, lit(s.link));
    PhotographedKeeps(s1, lit, stamp, w.stop, w.take, lit(blue));
    LaunchKeeps(taken, lit, w.relaunch, lit(s.link));
    if Took(w.take) {
      RaiseSteadies(taken, lit, s.link, blue, stamp, w);
      BlueIsSteady(taken, lit, blue);
    }
  }

  lemma BlueIsSteady(taken: Instance, lit: Lit, blue: Venv)
    requires Below(taken, lit, lit(blue))
    ensures Steady(taken.(link := blue), lit)
  {
  }

  /** With both stops obeyed, `apply` leaves an instance at rest, or stopped. */
  lemma ApplyRestsOrIsStopped(s: Instance, lit: Lit, blue: Venv, stamp: Stamp, w: ApplyWeather)
    requires Settled(s, lit) && stamp !in s.root && Readable(s.data, lit(blue))
    requires w.stop.ok && w.stopBack.ok
    ensures var (after, report) := Apply(s, lit, blue, stamp, w);
            Settled(after, lit) || after.running.None?
  {
    hide Stop, Photographed, Launch, Raise, Work, AfterCreate;
    var s1 := s.(venvs := s.venvs + {blue});
    WorkKeeps(s1, lit, w.early, 0);
    StopKeeps(s1, lit, w.stop, 0);
    var taken := Photographed(s1, lit, stamp, w.stop, w.take);
    RestIsSteady(s1, lit, lit(blue));
    PhotographedKeeps(s1, lit, stamp, w.stop, w.take, lit(blue));
    PhotographedKeeps(s1, lit, stamp, w.stop, w.take, lit(s.link));
    LaunchKeeps(taken, lit, w.relaunch, 0);
    if Took(w.take) {
      RaiseRestsOrIsStopped(taken, lit, s.link, blue, stamp, w);
    }
  }

  lemma RaiseRestsOrIsStopped(taken: Instance, lit: Lit, before: Venv, blue: Venv, stamp: Stamp, w: ApplyWeather)
    requires taken.running.None? && Readable(taken.data, lit(blue)) && w.stopBack.ok
    requires stamp in taken.root && taken.root[stamp].complete
    requires Readable(taken.root[stamp].db, lit(before)) && Readable(taken.root[stamp].db, lit(blue))
    ensures var (after, report) := Raise(taken, lit, before, blue, stamp, w);
            Settled(after, lit) || after.running.None?
  {
    hide Stop, Launch, Repose, Retreat;
    RaisedKeeps(taken, lit, blue, w, 0);
    var up := Repose(Launch(taken.(link := blue), lit, w.start), lit, blue, w.maps);
    StopKeeps(up, lit, w.stopBack, 0);
    RetreatRestsOrIsStopped(Stop(up, lit, w.stopBack).(link := before), lit, before, blue, stamp, w);
  }

  lemma RetreatRestsOrIsStopped(linked: Instance, lit: Lit, before: Venv, blue: Venv, stamp: Stamp, w: ApplyWeather)
    requires linked.running.None? && linked.link == before && Readable(linked.data, lit(blue))
    requires stamp in linked.root && linked.root[stamp].complete
    requires Readable(linked.root[stamp].db, lit(before)) && Readable(linked.root[stamp].db, lit(blue))
    ensures var (s, report) := Retreat(linked, lit, before, blue, stamp, w);
            Settled(s, lit) || s.running.None?
  {
    hide Launch, Repose, PutBack;
    var put := PutBack(linked, lit, stamp, w.restore);
    PutBackKeeps(linked, lit, stamp, w.restore, 0);
    if PutBackWhole(linked, lit, stamp, w.restore) {
      LaunchKeeps(put, lit, w.startBack, 0);
      ReposeKeeps(Launch(put, lit, w.startBack), lit, before, w.mapsBack, 0);
    } else {
      LaunchKeeps(put.(link := blue), lit, w.startForward, 0);
    }
  }

  /** AT REST, apply, exactly. With both stops obeyed, an update of an instance at rest leaves it at rest
      unless, the new version having migrated the data further than the old one reads, an exception escapes
      between the two halves of the way back. */
  lemma ApplySettles(s: Instance, lit: Lit, blue: Venv, stamp: Stamp, w: ApplyWeather)
    requires Settled(s, lit) && stamp !in s.root && Readable(s.data, lit(blue))
    requires w.stop.ok && w.stopBack.ok
    ensures Settled(Apply(s, lit, blue, stamp, w).0, lit) <==>
              !(lit(blue) > lit(s.link) && TurnsBack(s, w) && HalfBack(s, lit, w))
  {
    hide Apply, Guard;
    var after := Apply(s, lit, blue, stamp, w).0;
    RestIsSteady(s, lit, lit(blue));
    ApplySteadies(s, lit, blue, stamp, w);
    ApplyRestsOrIsStopped(s, lit, blue, stamp, w);
    RestIsSteady(after, lit, 0);
  }

  /** It does happen: on every instance whose data the binary of before could not read once migrated. */
  lemma ApplyCanEndHalfBack(s: Instance, lit: Lit, blue: Venv, stamp: Stamp) returns (w: ApplyWeather)
    requires Settled(s, lit) && stamp !in s.root && Readable(s.data, lit(blue)) && lit(blue) > lit(s.link)
    ensures w.stop.ok && w.stopBack.ok
    ensures var (after, report) := Apply(s, lit, blue, stamp, w);
            report == UNEXPECTED && !Settled(after, lit)
  {
    hide Guard;
    var yes := Step(true, None);
    var unmeasured := MapsStep(NotMeasured, None);
    w := ApplyWeather(Restoring, true, None, yes, TakeStep(Completed, true, None), yes, yes, unmeasured, false, yes,
                      RestoreStep(true, true, true, Whole, None), yes, yes, unmeasured, true);
    ApplySettles(s, lit, blue, stamp, w);
    hide Stop, Photographed, Launch, Repose, PutBack;
  }

  // --- rollback -------------------------------------------------------------------------------------

  /** The link goes to the target, which is complete. */
  predicate GoesOver(s: Instance, name: Stamp, w: RollbackWeather) {
    Accepts(s.root, name) && w.probed && Took(w.take) && w.swap && name in s.root && s.root[name].complete
    && w.halt !in {Building, Stopping, Taking}
  }

  /** An exception escapes once the link is on the target and before its data are. */
  predicate HalfOver(s: Instance, lit: Lit, target: Venv, name: Stamp, w: RollbackWeather)
    requires name in s.root
  {
    w.halt == Restoring
    || (w.halt == SwappingForward && (!Guard(s.root[name], target, lit, w.restore) || w.restore.fault == Refused))
  }

  /** The restoration of the target is reached and goes through. */
  predicate Regains(s: Instance, lit: Lit, target: Venv, name: Stamp, w: RollbackWeather)
    requires name in s.root
  {
    w.halt != Restoring && Guard(s.root[name], target, lit, w.restore) && w.restore.fault == Whole
  }

  /** The link stays on the target. */
  predicate StaysOver(s: Instance, lit: Lit, target: Venv, name: Stamp, w: RollbackWeather)
    requires name in s.root
  {
    w.halt == Restoring
    || if Regains(s, lit, target, name, w)
       then w.live || w.halt in {Starting, Posing, Judging, StoppingBack, SwappingBack}
       else w.halt == SwappingForward
  }

  /** The process that outlives the first `stop` reads further than the target: it is still there, or it
      has written on what was restored before the second `stop` ended it. */
  predicate Outlived(s: Instance, lit: Lit, target: Venv, name: Stamp, w: RollbackWeather)
    requires name in s.root
  {
    !w.stop.ok && s.running.Some? && lit(s.running.value) > lit(target)
    && (Regains(s, lit, target, name, w) && !w.live && w.halt == SwappingBack && w.stopBack.ok ==>
          w.restore.work.Some? || w.start.work.Some? || w.maps.work.Some?)
  }

  /** A rollback that ends on the target, with data it does not read or a process that reads further. */
  predicate Adrift(s: Instance, lit: Lit, target: Venv, name: Stamp, w: RollbackWeather) {
    GoesOver(s, name, w) && StaysOver(s, lit, target, name, w)
    && (Outlived(s, lit, target, name, w)
        || (HalfOver(s, lit, target, name, w) && !Readable(s.data, lit(target))))
  }

  /** What the survivor of the first `stop` leaves of the data, in front of a binary that reads as far. */
  lemma PhotographedReadable(s: Instance, lit: Lit, stamp: Stamp, stop: Step, take: TakeStep, n: nat)
    requires !stop.ok && s.running.Some? ==> lit(s.running.value) <= n
    ensures Readable(Photographed(s, lit, stamp, stop, take).data, n) <==> Readable(s.data, n)
  {
    hide AfterCreate;
  }

  lemma ReinstateSteadies(linked: Instance, lit: Lit, current: Venv, safety: Stamp, w: RollbackWeather)
    requires linked.link == current && Below(linked, lit, lit(current))
    requires safety in linked.root && Readable(linked.root[safety].db, lit(current))
    ensures Steady(Reinstate(linked, lit, current, safety, w).0, lit)
  {
    hide Launch, Repose, PutBack, PutBackWhole;
    var put := PutBack(linked, lit, safety, w.restoreBack);
    PutBackKeeps(linked, lit, safety, w.restoreBack, lit(current));
    LaunchKeeps(put, lit, w.startBack, lit(current));
    ReposeKeeps(Launch(put, lit, w.startBack), lit, current, w.mapsBack, lit(current));
  }

  /** Started on the target: steady, unless a process that reads further is alive, or has worked. */
  lemma OverSteadies(put: Instance, lit: Lit, target: Venv, w: RollbackWeather, wrote: bool)
    requires put.link == target
    requires put.running.None? || lit(put.running.value) <= lit(target) ==> Below(put, lit, lit(target))
    requires put.running.Some? && lit(put.running.value) > lit(target) ==>
               put.data.Some? ==> put.data.value.schema <= lit(put.running.value)
    requires put.running.Some? && lit(put.running.value) > lit(target) ==> (wrote <==> !Readable(put.data, lit(target)))
    ensures var launched := Launch(put, lit, w.start);
            var up := Repose(launched, lit, target, w.maps);
            var down := Stop(up, lit, w.stopBack);
            var outlived := put.running.Some? && lit(put.running.value) > lit(target);
            (Steady(put, lit) <==> !outlived) && (Steady(launched, lit) <==> !outlived)
            && (Steady(up, lit) <==> !outlived)
            && (Steady(down, lit) <==>
                  !(outlived && (!w.stopBack.ok || wrote || w.start.work.Some? || w.maps.work.Some?)))
  {
    hide Stop, Launch, Repose;
    var launched := Launch(put, lit, w.start);
    var up := Repose(launched, lit, target, w.maps);
    LaunchKeeps(put, lit, w.start, lit(target));
    ReposeKeeps(launched, lit, target, w.maps, lit(target));
    StopKeeps(up, lit, w.stopBack, lit(target));
    if put.running.Some? && lit(put.running.value) > lit(target) {
      OutlivedWrites(put, lit, target, w);
    }
  }

  lemma OutlivedWrites(put: Instance, lit: Lit, target: Venv, w: RollbackWeather)
    requires put.running.Some? && lit(put.running.value) > lit(target)
    requires put.data.Some? ==> put.data.value.schema <= lit(put.running.value)
    ensures var up := Repose(Launch(put, lit, w.start), lit, target, w.maps);
            Readable(up.data, lit(target)) <==>
              Readable(put.data, lit(target)) && w.start.work.None? && w.maps.work.None?
  {
  }

  lemma CrossSteadies(linked: Instance, lit: Lit, current: Venv, target: Venv, name: Stamp, safety: Stamp,
                      w: RollbackWeather)
    requires linked.link == target && Below(linked, lit, lit(current)) && lit(target) <= lit(current)
    requires name in linked.root && Readable(linked.root[name].db, lit(target))
    requires safety in linked.root && Readable(linked.root[safety].db, lit(current))
    ensures var passes := Guard(linked.root[name], target, lit, w.restore);
            var regains := w.halt != Restoring && passes && w.restore.fault == Whole;
            var stays := w.halt == Restoring
                         || if regains then w.live || w.halt in {Starting, Posing, Judging, StoppingBack, SwappingBack}
                            else w.halt == SwappingForward;
            var half := w.halt == Restoring || (w.halt == SwappingForward && (!passes || w.restore.fault == Refused));
            var outlived := linked.running.Some? && lit(linked.running.value) > lit(target)
                            && (regains && !w.live && w.halt == SwappingBack && w.stopBack.ok ==>
                                  w.restore.work.Some? || w.start.work.Some? || w.maps.work.Some?);
            Steady(Cross(linked, lit, current, target, name, safety, w).0, lit) <==>
              !(stays && (outlived || (half && !Readable(linked.data, lit(target)))))
  {
    hide Launch, Repose, PutBack, Stop, Reinstate, Guard, Work;
    var put := PutBack(linked, lit, name, w.restore);
    PutBackKeeps(linked, lit, name, w.restore, lit(current));
    if PutBackWhole(linked, lit, name, w.restore) {
      CrossedSteadies(linked, lit, current, target, name, safety, w);
    } else {
      LaunchKeeps(put.(link := current), lit, w.startForward, lit(current));
      CutSteadies(linked, lit, name, w.restore);
    }
  }

  /** A restoration that is not whole, read by the binary that was linked for it. */
  lemma CutSteadies(linked: Instance, lit: Lit, name: Stamp, w: RestoreStep)
    requires name in linked.root && Readable(linked.root[name].db, lit(linked.link))
    ensures var untouched := !GuardPasses(linked, lit, name, w) || w.fault == Refused;
            Steady(PutBack(linked, lit, name, w), lit) <==>
              !((linked.running.Some? && lit(linked.running.value) > lit(linked.link))
                || (untouched && !Readable(linked.data, lit(linked.link))))
  {
    hide GuardPasses;
    if linked.running.Some? ==> lit(linked.running.value) <= lit(linked.link) {
      if !GuardPasses(linked, lit, name, w) || w.fault == Refused {
        UntouchedData(linked, lit, name, w);
      } else {
        ReplacedData(linked, lit, name, w);
      }
    }
  }

  lemma CrossedSteadies(linked: Instance, lit: Lit, current: Venv, target: Venv, name: Stamp, safety: Stamp,
                        w: RollbackWeather)
    requires linked.link == target && Below(linked, lit, lit(current)) && lit(target) <= lit(current)
    requires name in linked.root && Readable(linked.root[name].db, lit(target))
    requires safety in linked.root && Readable(linked.root[safety].db, lit(current))
    requires PutBackWhole(linked, lit, name, w.restore)
    ensures var put := PutBack(linked, lit, name, w.restore);
            var launched := Launch(put, lit, w.start);
            var up := Repose(launched, lit, target, w.maps);
            var down := Stop(up, lit, w.stopBack);
            var outlived := linked.running.Some? && lit(linked.running.value) > lit(target);
            (Steady(put, lit) <==> !outlived) && (Steady(launched, lit) <==> !outlived)
            && (Steady(up, lit) <==> !outlived)
            && (Steady(down, lit) <==>
                  !(outlived && (!w.stopBack.ok || w.restore.work.Some? || w.start.work.Some? || w.maps.work.Some?)))
            && Steady(Reinstate(down.(link := current), lit, current, safety, w).0, lit)
  {
    hide Launch, Repose, PutBack, Stop, Reinstate, PutBackWhole, Work;
    var put := PutBack(linked, lit, name, w.restore);
    PutBackKeeps(linked, lit, name, w.restore, lit(current));
    RestoredReadable(linked, lit, name, w.restore, target);
    if linked.running.Some? && lit(linked.running.value) > lit(target) {
      RestoredBelow(linked, lit, name, w.restore, lit(linked.running.value));
    }
    OverSteadies(put, lit, target, w, w.restore.work.Some?);
    var launched := Launch(put, lit, w.start);
    LaunchKeeps(put, lit, w.start, lit(current));
    ReposeKeeps(launched, lit, target, w.maps, lit(current));
    var up := Repose(launched, lit, target, w.maps);
    StopKeeps(up, lit, w.stopBack, lit(current));
    ReinstateSteadies(Stop(up, lit, w.stopBack).(link := current), lit, current, safety, w);
  }

  lemma RestoredBelow(linked: Instance, lit: Lit, name: Stamp, w: RestoreStep, top: nat)
    requires PutBackWhole(linked, lit, name, w) && Readable(linked.root[name].db, top)
    requires linked.running.Some? && lit(linked.running.value) == top
    ensures Readable(PutBack(linked, lit, name, w).data, top)
  {
  }

  /** STEADY, rollback, exactly. From any steady instance, toward any fit target, with any pattern of
      failures, a rollback leaves a steady instance unless it goes adrift. */
  lemma RollbackSteadies(s: Instance, lit: Lit, target: Venv, name: Stamp, safety: Stamp, w: RollbackWeather)
    requires Steady(s, lit) && safety !in s.root && name != safety && FitTarget(s, lit, target, name)
    ensures Steady(Rollback(s, lit, target, name, safety, w).0, lit) <==> !Adrift(s, lit, target, name, w)
  {
    hide Stop, Photographed, Launch, Cross, Work, AfterCreate, Accepts, Guard;
    var top := lit(s.link);
    WorkKeeps(s, lit, w.early, top);
    StopKeeps(s, lit, w.stop, top);
    var taken := Photographed(s, lit, safety, w.stop, w.take);
    PhotographedKeeps(s, lit, safety, w.stop, w.take, top);
    LaunchKeeps(taken, lit, w.relaunch, top);
    if Accepts(s.root, name) && Took(w.take) {
      TargetAfterSafety(s, lit, name, safety, w);
      if name in taken.root && taken.root[name].complete {
        CrossSteadies(taken.(link := target), lit, s.link, target, name, safety, w);
        if !w.stop.ok && s.running.Some? ==> lit(s.running.value) <= lit(target) {
          PhotographedReadable(s, lit, safety, w.stop, w.take, lit(target));
        }
      }
    }
  }

  /** With both stops obeyed, `rollback` leaves an instance at rest, or stopped. */
  lemma RollbackRestsOrIsStopped(s: Instance, lit: Lit, target: Venv, name: Stamp, safety: Stamp, w: RollbackWeather)
    requires Settled(s, lit) && safety !in s.root && name != safety && FitTarget(s, lit, target, name)
    requires w.stop.ok && w.stopBack.ok
    ensures var (after, report) := Rollback(s, lit, target, name, safety, w);
            Settled(after, lit) || after.running.None?
  {
    hide Stop, Photographed, Launch, Cross, Work, AfterCreate, Accepts;
    WorkKeeps(s, lit, w.early, 0);
    StopKeeps(s, lit, w.stop, 0);
    var taken := Photographed(s, lit, safety, w.stop, w.take);
    RestIsSteady(s, lit, 0);
    PhotographedKeeps(s, lit, safety, w.stop, w.take, lit(s.link));
    LaunchKeeps(taken, lit, w.relaunch, 0);
    if Accepts(s.root, name) && Took(w.take) && name in taken.root && taken.root[name].complete {
      TargetAfterSafety(s, lit, name, safety, w);
      CrossRestsOrIsStopped(taken.(link := target), lit, s.link, target, name, safety, w);
    }
  }

  lemma CrossRestsOrIsStopped(linked: Instance, lit: Lit, current: Venv, target: Venv, name: Stamp, safety: Stamp,
                     w: RollbackWeather)
    requires linked.running.None? && linked.link == target && w.stopBack.ok
    requires Readable(linked.data, lit(current)) && lit(target) <= lit(current)
    requires name in linked.root && Readable(linked.root[name].db, lit(target))
    requires safety in linked.root && Readable(linked.root[safety].db, lit(current))
    ensures var (after, report) := Cross(linked, lit, current, target, name, safety, w);
            Settled(after, lit) || after.running.None?
  {
    hide Launch, Repose, PutBack, PutBackWhole, Stop, Reinstate, NeverForbidden;
    var put := PutBack(linked, lit, name, w.restore);
    PutBackKeeps(linked, lit, name, w.restore, 0);
    LaunchKeeps(put.(link := current), lit, w.startForward, 0);
    if PutBackWhole(linked, lit, name, w.restore) {
      LaunchKeeps(put, lit, w.start, 0);
      var launched := Launch(put, lit, w.start);
      ReposeKeeps(launched, lit, target, w.maps, 0);
      var up := Repose(launched, lit, target, w.maps);
      StopKeeps(up, lit, w.stopBack, 0);
      ReinstateRests(Stop(up, lit, w.stopBack).(link := current), lit, current, safety, w);
    }
  }

  lemma ReinstateRests(linked: Instance, lit: Lit, current: Venv, safety: Stamp, w: RollbackWeather)
    requires linked.running.None? && linked.link == current && Readable(linked.data, lit(current))
    requires safety in linked.root && Readable(linked.root[safety].db, lit(current))
    ensures Settled(Reinstate(linked, lit, current, safety, w).0, lit)
  {
    hide Launch, Repose, PutBack;
    var put := PutBack(linked, lit, safety, w.restoreBack);
    PutBackKeeps(linked, lit, safety, w.restoreBack, 0);
    LaunchKeeps(put, lit, w.startBack, 0);
    ReposeKeeps(Launch(put, lit, w.startBack), lit, current, w.mapsBack, 0);
  }

  /** AT REST, rollback, exactly. With both stops obeyed, a rollback of an instance at rest leaves it at rest
      unless, the target being unable to read the data in place, an exception escapes between the two
      halves of the gesture. */
  lemma RollbackSettles(s: Instance, lit: Lit, target: Venv, name: Stamp, safety: Stamp, w: RollbackWeather)
    requires Settled(s, lit) && safety !in s.root && name != safety && FitTarget(s, lit, target, name)
    requires w.stop.ok && w.stopBack.ok
    ensures Settled(Rollback(s, lit, target, name, safety, w).0, lit) <==>
              !(GoesOver(s, name, w) && HalfOver(s, lit, target, name, w) && !Readable(s.data, lit(target)))
  {
    hide Rollback, Guard, Accepts, FitTarget;
    var after := Rollback(s, lit, target, name, safety, w).0;
    RestIsSteady(s, lit, 0);
    RollbackSteadies(s, lit, target, name, safety, w);
    RollbackRestsOrIsStopped(s, lit, target, name, safety, w);
    RestIsSteady(after, lit, 0);
  }

  /** It does happen, toward every accepted target that does not read the data in place. */
  lemma RollbackCanEndHalfOver(s: Instance, lit: Lit, target: Venv, name: Stamp, safety: Stamp)
    returns (w: RollbackWeather)
    requires Settled(s, lit) && safety !in s.root && name != safety && FitTarget(s, lit, target, name)
    requires name in s.root && s.root[name].complete && Accepts(s.root, name) && !Readable(s.data, lit(target))
    ensures w.stop.ok && w.stopBack.ok
    ensures !Settled(Rollback(s, lit, target, name, safety, w).0, lit)
  {
    hide Rollback, Guard, Accepts, FitTarget;
    var yes := Step(true, None);
    var whole := RestoreStep(true, true, true, Whole, None);
    w := RollbackWeather(Restoring, true, None, yes, TakeStep(Completed, true, None), yes, true, whole, yes, yes,
                         MapsStep(NotMeasured, None), false, yes, whole, yes, MapsStep(NotMeasured, None), true);
    RollbackSettles(s, lit, target, name, safety, w);
  }
}
