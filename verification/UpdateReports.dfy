/** What `apply` and `rollback` SAY they did, compared with what they did. */
module UpdateReports {
  import opened Prelude
  import opened Stamps
  import opened Retention
  import opened RollbackTargets
  import opened UpdateEngine
  import opened UpdateSafety

  // --- the host maps ----------------------------------------------------------------------------

  /** Maps reported as installed are those of the venv the link designates. */
  ghost predicate MapsAreTheLinks(after: Instance, report: Report) {
    report.maps == Some(Posed) ==> after.maps == Some(after.link)
  }

  /** At every exit of `apply`. */
  lemma ApplyMapsAreTheLinks(s: Instance, lit: Lit, blue: Venv, stamp: Stamp, w: ApplyWeather)
    ensures var (after, report) := Apply(s, lit, blue, stamp, w); MapsAreTheLinks(after, report)
  {
    hide Stop, Photographed, Launch, Raise, Work;
    RaiseMaps(Photographed(s.(venvs := s.venvs + {blue}), lit, stamp, w.stop, w.take), lit, s.link, blue, stamp, w);
  }

  lemma RaiseMaps(taken: Instance, lit: Lit, before: Venv, blue: Venv, stamp: Stamp, w: ApplyWeather)
    ensures var (after, report) := Raise(taken, lit, before, blue, stamp, w); MapsAreTheLinks(after, report)
  {
    hide Stop, Launch, Repose, Retreat, PurgedVenvs;
    var launched := Launch(taken.(link := blue), lit, w.start);
    var up := Repose(launched, lit, blue, w.maps);
    LaunchKeeps(taken.(link := blue), lit, w.start, 0);
    ReposeKeeps(launched, lit, blue, w.maps, 0);
    StopKeeps(up, lit, w.stopBack, 0);
    RetreatMaps(Stop(up, lit, w.stopBack).(link := before), lit, before, blue, stamp, w);
  }

  lemma RetreatMaps(linked: Instance, lit: Lit, before: Venv, blue: Venv, stamp: Stamp, w: ApplyWeather)
    requires linked.link == before && (w.maps.state == Posed ==> linked.maps == Some(blue))
    ensures var (after, report) := Retreat(linked, lit, before, blue, stamp, w); MapsAreTheLinks(after, report)
  {
    hide Launch, PutBack, PutBackWhole, Repose;
    var put := PutBack(linked, lit, stamp, w.restore);
    PutBackKeeps(linked, lit, stamp, w.restore, 0);
    LaunchKeeps(put.(link := blue), lit, w.startForward, 0);
    LaunchKeeps(put, lit, w.startBack, 0);
    ReposeKeeps(Launch(put, lit, w.startBack), lit, before, w.mapsBack, 0);
  }

  /** At every exit of `rollback`. */
  lemma RollbackMapsAreTheLinks(s: Instance, lit: Lit, target: Venv, name: Stamp, safety: Stamp, w: RollbackWeather)
    ensures var (after, report) := Rollback(s, lit, target, name, safety, w); MapsAreTheLinks(after, report)
  {
    hide Stop, Photographed, Launch, Cross, Work, Accepts;
    var taken := Photographed(s, lit, safety, w.stop, w.take);
    CrossMaps(taken.(link := target), lit, s.link, target, name, safety, w);
  }

  lemma CrossMaps(linked: Instance, lit: Lit, current: Venv, target: Venv, name: Stamp, safety: Stamp,
                  w: RollbackWeather)
    requires linked.link == target
    ensures var (after, report) := Cross(linked, lit, current, target, name, safety, w); MapsAreTheLinks(after, report)
  {
    hide Stop, Launch, PutBack, PutBackWhole, Repose, Reinstate;
    var put := PutBack(linked, lit, name, w.restore);
    PutBackKeeps(linked, lit, name, w.restore, 0);
    LaunchKeeps(put, lit, w.start, 0);
    var up := Repose(Launch(put, lit, w.start), lit, target, w.maps);
    ReposeKeeps(Launch(put, lit, w.start), lit, target, w.maps, 0);
    ReinstateMaps(Stop(up, lit, w.stopBack).(link := current), lit, current, safety, w);
  }

  lemma ReinstateMaps(linked: Instance, lit: Lit, current: Venv, safety: Stamp, w: RollbackWeather)
    requires linked.link == current
    ensures var (after, report) := Reinstate(linked, lit, current, safety, w); MapsAreTheLinks(after, report)
  {
    hide Launch, PutBack, PutBackWhole, Repose;
    var put := PutBack(linked, lit, safety, w.restoreBack);
    PutBackKeeps(linked, lit, safety, w.restoreBack, 0);
    LaunchKeeps(put, lit, w.startBack, 0);
    ReposeKeeps(Launch(put, lit, w.startBack), lit, current, w.mapsBack, 0);
  }

  /** What asking `venv` for its maps leaves, whatever was there. */
  function Asked(venv: Venv, state: MapsState, maps: Option<Venv>): Option<Venv> {
    match state
    case Posed => Some(venv)
    case NotMeasured => maps
    case Missed => None
  }

  /** The update got far enough to ask the new version for its maps. */
  predicate AsksForward(w: ApplyWeather) {
    Tried(w) && w.halt != Posing
  }

  /** The photographed data went back whole, under the binary of before. */
  predicate WentBack(s: Instance, lit: Lit, w: ApplyWeather) {
    Guard(Snap(true, Stop(s, lit, w.stop).data), s.link, lit, w.restore) && w.restore.fault == Whole
  }

  /** And, judged bad, got far enough back to ask the old version for its own. */
  predicate AsksBack(s: Instance, lit: Lit, w: ApplyWeather) {
    AsksForward(w) && !w.live && WentBack(s, lit, w)
    && w.halt !in {Judging, StoppingBack, SwappingBack, Restoring, StartingBack, PosingBack}
  }

  /** An exception escapes while the link is on a version whose maps are still to be asked for. */
  predicate Torn(s: Instance, lit: Lit, w: ApplyWeather) {
    w.built && Took(w.take)
    && (w.halt in {Starting, Posing}
        || (!w.live && (w.halt == Restoring
                        || w.halt in (if WentBack(s, lit, w) then {StartingBack, PosingBack} else {SwappingForward}))))
  }

  /** The link is on the new version: it was moved there, and did not come back. */
  predicate StaysForward(s: Instance, lit: Lit, w: ApplyWeather) {
    w.built && Took(w.take) && w.halt !in {Building, Stopping, Taking, Swapping}
    && (w.live || w.halt in {Starting, Posing, Judging, StoppingBack, SwappingBack}
        || (!WentBack(s, lit, w) && w.halt !in {Restoring, SwappingForward}))
  }

  /** The maps in place, the answer reported and the link, from the weather alone. */
  predicate MapsTold(s: Instance, lit: Lit, blue: Venv, w: ApplyWeather, after: Instance, report: Report) {
    var forward := if AsksForward(w) then Asked(blue, w.maps.state, s.maps) else s.maps;
    after.maps == (if AsksBack(s, lit, w) then Asked(s.link, w.mapsBack.state, forward) else forward)
    && (report != UNEXPECTED ==>
          report.maps == if AsksBack(s, lit, w) then Some(w.mapsBack.state)
                         else if AsksForward(w) then Some(w.maps.state) else None)
    && after.link == if StaysForward(s, lit, w) then blue else s.link
  }

  /** THE MAPS, apply, at every exit: they are those of the last version asked, as it answered, and the report
      says that answer. */
  lemma ApplyLeavesTheMaps(s: Instance, lit: Lit, blue: Venv, stamp: Stamp, w: ApplyWeather)
    requires stamp !in s.root
    ensures var (after, report) := Apply(s, lit, blue, stamp, w); MapsTold(s, lit, blue, w, after, report)
  {
    hide Photographed, Raise, Work, Launch, MapsTold;
    if Tried(w) {
      TriedLeavesTheMaps(s, lit, blue, stamp, w);
    } else {
      EarlyLeavesTheMaps(s, lit, blue, stamp, w);
    }
  }

  lemma EarlyLeavesTheMaps(s: Instance, lit: Lit, blue: Venv, stamp: Stamp, w: ApplyWeather)
    requires !Tried(w)
    ensures var (after, report) := Apply(s, lit, blue, stamp, w); MapsTold(s, lit, blue, w, after, report)
  {
    hide Stop, Photographed, Launch, Raise, Work, WentBack, AfterCreate, Asked, Took;
    var s1 := s.(venvs := s.venvs + {blue});
    WorkKeeps(s1, lit, w.early, 0);
    StopKeeps(s1, lit, w.stop, 0);
    PhotographedKeeps(s1, lit, stamp, w.stop, w.take, 0);
    LaunchKeeps(Photographed(s1, lit, stamp, w.stop, w.take), lit, w.relaunch, 0);
  }

  lemma TriedLeavesTheMaps(s: Instance, lit: Lit, blue: Venv, stamp: Stamp, w: ApplyWeather)
    requires stamp !in s.root && Tried(w)
    ensures var (after, report) := Raise(Photographed(s.(venvs := s.venvs + {blue}), lit, stamp, w.stop, w.take), lit,
                                         s.link, blue, stamp, w);
            MapsTold(s, lit, blue, w, after, report)
  {
    hide Stop, Photographed, Raise, Guard, AfterCreate, Asked, Below, Settled, Readable, NeverForbidden;
    var s1 := s.(venvs := s.venvs + {blue});
    StopForgetsVenvs(s, lit, s1.venvs, w.stop);
    PhotographedKeeps(s1, lit, stamp, w.stop, w.take, 0);
    RaiseLeavesTheMaps(Photographed(s1, lit, stamp, w.stop, w.take), lit, s.link, blue, stamp, w);
  }

  /** THE MAPS FOLLOW THE LINK, apply, exactly. When every version asked installs its own maps, those in place
      at the end are those of the linked venv if and only if no exception escaped between a link and its maps:
      the old binary on the new maps is possible that way only. */
  lemma MapsFollowTheLink(s: Instance, lit: Lit, blue: Venv, stamp: Stamp, w: ApplyWeather)
    requires stamp !in s.root && s.maps == Some(s.link) && blue != s.link
    requires w.maps.state == Posed && w.mapsBack.state == Posed
    ensures var after := Apply(s, lit, blue, stamp, w).0;
            after.maps == Some(after.link) <==> !Torn(s, lit, w)
  {
    hide Apply, WentBack, Took;
    ApplyLeavesTheMaps(s, lit, blue, stamp, w);
  }

  lemma RaiseLeavesTheMaps(taken: Instance, lit: Lit, before: Venv, blue: Venv, stamp: Stamp, w: ApplyWeather)
    requires stamp in taken.root
    ensures var (after, report) := Raise(taken, lit, before, blue, stamp, w);
            var whole := Guard(taken.root[stamp], before, lit, w.restore) && w.restore.fault == Whole;
            var back := w.halt !in {Posing, Judging, StoppingBack, SwappingBack, Restoring, StartingBack, PosingBack}
                        && !w.live && whole;
            var forward := if w.halt == Posing then taken.maps else Asked(blue, w.maps.state, taken.maps);
            after.maps == (if back then Asked(before, w.mapsBack.state, forward) else forward)
            && (report != UNEXPECTED ==>
                  w.halt != Posing && report.maps == Some(if back then w.mapsBack.state else w.maps.state))
            && after.link == if w.halt !in {Posing, Judging} && !w.live
                                && (w.halt == Restoring || (w.halt !in {StoppingBack, SwappingBack}
                                                            && (whole || w.halt == SwappingForward)))
                             then before else blue
  {
    hide Stop, Launch, Repose, Guard, Retreat, PurgedVenvs, Below, Settled, Readable, NeverForbidden;
    var launched := Launch(taken.(link := blue), lit, w.start);
    var up := Repose(launched, lit, blue, w.maps);
    RaisedKeeps(taken, lit, blue, w, 0);
    ReposeKeeps(launched, lit, blue, w.maps, 0);
    StopKeeps(up, lit, w.stopBack, 0);
    RetreatLeavesTheMaps(Stop(up, lit, w.stopBack).(link := before), lit, before, blue, stamp, w);
  }

  lemma RetreatLeavesTheMaps(linked: Instance, lit: Lit, before: Venv, blue: Venv, stamp: Stamp, w: ApplyWeather)
    requires linked.link == before
    ensures var (after, report) := Retreat(linked, lit, before, blue, stamp, w);
            var whole := PutBackWhole(linked, lit, stamp, w.restore);
            var back := w.halt !in {Restoring, StartingBack, PosingBack} && whole;
            after.maps == (if back then Asked(before, w.mapsBack.state, linked.maps) else linked.maps)
            && (report != UNEXPECTED ==> report.maps == Some(if back then w.mapsBack.state else w.maps.state))
            && after.link == if w.halt == Restoring || whole || w.halt == SwappingForward then before else blue
  {
    hide Launch, PutBack, PutBackWhole, Repose, Below, Settled, Readable, NeverForbidden;
    var put := PutBack(linked, lit, stamp, w.restore);
    PutBackKeeps(linked, lit, stamp, w.restore, 0);
    LaunchKeeps(put.(link := blue), lit, w.startForward, 0);
    LaunchKeeps(put, lit, w.startBack, 0);
    ReposeKeeps(Launch(put, lit, w.startBack), lit, before, w.mapsBack, 0);
  }

  /** A rollback that gets as far as its link: the target is there, and the safety snapshot was taken. */
  ghost predicate Crosses(s: Instance, name: Stamp, w: RollbackWeather) {
    Accepts(s.root, name) && w.probed && w.halt !in {Building, Stopping, Taking} && Took(w.take) && w.swap
    && name in s.root && s.root[name].complete
  }

  predicate WentOver(s: Instance, lit: Lit, target: Venv, name: Stamp, w: RollbackWeather) {
    name in s.root && Guard(s.root[name], target, lit, w.restore) && w.restore.fault == Whole
  }

  /** It got far enough to ask the target for its maps. */
  ghost predicate AsksTarget(s: Instance, lit: Lit, target: Venv, name: Stamp, w: RollbackWeather) {
    Crosses(s, name, w) && WentOver(s, lit, target, name, w) && w.halt !in {Restoring, Starting, Posing}
  }

  /** And, judged bad, to ask the current version for its own again. */
  ghost predicate AsksCurrent(s: Instance, lit: Lit, target: Venv, name: Stamp, w: RollbackWeather) {
    AsksTarget(s, lit, target, name, w) && !w.live
    && w.halt !in {Judging, StoppingBack, SwappingBack, RestoringBack, StartingBack, PosingBack}
  }

  ghost predicate TornBack(s: Instance, lit: Lit, target: Venv, name: Stamp, w: RollbackWeather) {
    Crosses(s, name, w)
    && (w.halt == Restoring
        || if WentOver(s, lit, target, name, w)
           then w.halt in {Starting, Posing} || (!w.live && w.halt in {RestoringBack, StartingBack, PosingBack})
           else w.halt == SwappingForward)
  }

  /** The link is on the target: it was moved there, and did not come back. */
  ghost predicate StaysOver(s: Instance, lit: Lit, target: Venv, name: Stamp, w: RollbackWeather) {
    Crosses(s, name, w)
    && (w.halt == Restoring
        || if WentOver(s, lit, target, name, w)
           then w.live || w.halt in {Starting, Posing, Judging, StoppingBack, SwappingBack}
           else w.halt == SwappingForward)
  }

  /** THE MAPS, rollback: the same law. */
  lemma RollbackLeavesTheMaps(s: Instance, lit: Lit, target: Venv, name: Stamp, safety: Stamp, w: RollbackWeather)
    requires safety !in s.root && name != safety
    ensures var (after, report) := Rollback(s, lit, target, name, safety, w);
            var over := if AsksTarget(s, lit, target, name, w) then Asked(target, w.maps.state, s.maps) else s.maps;
            after.maps == (if AsksCurrent(s, lit, target, name, w) then Asked(s.link, w.mapsBack.state, over) else over)
            && (report != UNEXPECTED ==>
                  report.maps == if AsksCurrent(s, lit, target, name, w) then Some(w.mapsBack.state)
                                 else if AsksTarget(s, lit, target, name, w) then Some(w.maps.state) else None)
    ensures Rollback(s, lit, target, name, safety, w).0.link
         == if StaysOver(s, lit, target, name, w) then target else s.link
  {
    hide Stop, Photographed, Launch, Cross, Work, Guard, AfterCreate, Accepts;
    WorkKeeps(s, lit, w.early, 0);
    StopKeeps(s, lit, w.stop, 0);
    PhotographedKeeps(s, lit, safety, w.stop, w.take, 0);
    var taken := Photographed(s, lit, safety, w.stop, w.take);
    LaunchKeeps(taken, lit, w.relaunch, 0);
    hide Below, Settled, Readable, NeverForbidden, Asked;
    if Accepts(s.root, name) && Took(w.take) {
      TargetAfterSafety(s, lit, name, safety, w);
      if name in taken.root && taken.root[name].complete {
        CrossLeavesTheMaps(taken.(link := target), lit, s.link, target, name, safety, w);
      }
    }
  }

  lemma MapsFollowTheLinkBack(s: Instance, lit: Lit, target: Venv, name: Stamp, safety: Stamp, w: RollbackWeather)
    requires safety !in s.root && name != safety && s.maps == Some(s.link) && target != s.link
    requires w.maps.state == Posed && w.mapsBack.state == Posed
    ensures var after := Rollback(s, lit, target, name, safety, w).0;
            after.maps == Some(after.link) <==> !TornBack(s, lit, target, name, w)
  {
    hide Rollback, WentOver, Crosses;
    RollbackLeavesTheMaps(s, lit, target, name, safety, w);
  }

  lemma CrossLeavesTheMaps(linked: Instance, lit: Lit, current: Venv, target: Venv, name: Stamp, safety: Stamp,
                           w: RollbackWeather)
    requires linked.link == target && name in linked.root
    ensures var (after, report) := Cross(linked, lit, current, target, name, safety, w);
            var whole := Guard(linked.root[name], target, lit, w.restore) && w.restore.fault == Whole;
            var asked := whole && w.halt !in {Restoring, Starting, Posing};
            var back := asked && !w.live
                        && w.halt !in {Judging, StoppingBack, SwappingBack, RestoringBack, StartingBack, PosingBack};
            var over := if asked then Asked(target, w.maps.state, linked.maps) else linked.maps;
            after.maps == (if back then Asked(current, w.mapsBack.state, over) else over)
            && (report != UNEXPECTED ==>
                  report.maps == if back then Some(w.mapsBack.state) else if asked then Some(w.maps.state) else None)
            && after.link == if w.halt == Restoring then target
                             else if !whole then if w.halt == SwappingForward then target else current
                             else if w.live || w.halt in {Starting, Posing, Judging, StoppingBack, SwappingBack}
                                  then target else current
  {
    hide Stop, Launch, PutBack, Repose, Reinstate, Guard, Below, Settled, Readable, NeverForbidden;
    var put := PutBack(linked, lit, name, w.restore);
    PutBackKeeps(linked, lit, name, w.restore, 0);
    LaunchKeeps(put.(link := current), lit, w.startForward, 0);
    LaunchKeeps(put, lit, w.start, 0);
    var up := Repose(Launch(put, lit, w.start), lit, target, w.maps);
    ReposeKeeps(Launch(put, lit, w.start), lit, target, w.maps, 0);
    StopKeeps(up, lit, w.stopBack, 0);
    ReinstateLeavesTheMaps(Stop(up, lit, w.stopBack).(link := current), lit, current, safety, w);
  }

  lemma ReinstateLeavesTheMaps(linked: Instance, lit: Lit, current: Venv, safety: Stamp, w: RollbackWeather)
    requires linked.link == current
    ensures var (after, report) := Reinstate(linked, lit, current, safety, w);
            var back := w.halt !in {RestoringBack, StartingBack, PosingBack};
            after.maps == (if back then Asked(current, w.mapsBack.state, linked.maps) else linked.maps)
            && after.link == current && (report != UNEXPECTED ==> back && report.maps == Some(w.mapsBack.state))
  {
    hide Launch, PutBack, PutBackWhole, Repose, Below, Settled, Readable, NeverForbidden;
    var put := PutBack(linked, lit, safety, w.restoreBack);
    PutBackKeeps(linked, lit, safety, w.restoreBack, 0);
    LaunchKeeps(put, lit, w.startBack, 0);
    ReposeKeeps(Launch(put, lit, w.startBack), lit, current, w.mapsBack, 0);
  }

  // --- what a stop that fails lets through --------------------------------------------------------

  /** The process a `stop` leaves alive. */
  function Survivor(s: Instance, stop: Step): Option<Venv> {
    if stop.ok then None else s.running
  }

  /** The data the snapshot photographs. */
  function Held(s: Instance, lit: Lit, stop: Step): Option<Db> {
    Written(s.data, Survivor(s, stop), lit, stop.work)
  }

  /** The data in place once the snapshot is taken. */
  function Left(s: Instance, lit: Lit, stop: Step, take: TakeStep): Option<Db> {
    Written(Held(s, lit, stop), Survivor(s, stop), lit, take.work)
  }

  /** The process the second `stop` leaves alive: the survivor of the first, or else `started`. */
  function LateSurvivor(s: Instance, stop: Step, started: Venv, start: Step, stopBack: Step): Option<Venv> {
    if stopBack.ok then None
    else if Survivor(s, stop).Some? then Survivor(s, stop)
    else if start.ok then Some(started)
    else None
  }

  /** The data in place once the photographed data have been put back. */
  function HandedBack(s: Instance, lit: Lit, stop: Step, started: Venv, start: Step, stopBack: Step,
                      restore: RestoreStep): Option<Db>
  {
    Written(Held(s, lit, stop), LateSurvivor(s, stop, started, start, stopBack), lit, restore.work)
  }

  /** Where every `stop` is obeyed, nothing of this moves the data. */
  lemma ObeyedStopsMoveNothing(s: Instance, lit: Lit, stop: Step, take: TakeStep, started: Venv, start: Step,
                               stopBack: Step, restore: RestoreStep)
    ensures Survivor(s, stop).None? ==> Held(s, lit, stop) == Left(s, lit, stop, take) == s.data
    ensures Survivor(s, stop).None? && stopBack.ok ==>
              HandedBack(s, lit, stop, started, start, stopBack, restore) == s.data
  {
  }

  lemma PhotographedIs(s: Instance, lit: Lit, stamp: Stamp, stop: Step, take: TakeStep)
    ensures var t := Photographed(s, lit, stamp, stop, take);
            t.data == Left(s, lit, stop, take) && Stop(s, lit, stop).data == Held(s, lit, stop)
            && t.running == Survivor(s, stop)
  {
  }

  // --- the impact of apply ----------------------------------------------------------------------

  /** What each report of `apply` comes with: the link, and the data handed to the service. */
  ghost predicate ApplyTruth(s: Instance, lit: Lit, blue: Venv, stamp: Stamp, w: ApplyWeather, after: Instance,
                             report: Report)
  {
    var left := Left(s, lit, w.stop, w.take);
    && (report.impact == Some(NotTouched) ==>
          report.rc == 1 && after == s.(venvs := after.venvs, data := after.data)
          && (s.running.None? ==> after.data == s.data))
    && (report.impact == Some(RelaunchedAsIs) ==>
          report.rc == 1 && after.link == s.link && after.maps == s.maps
          && after.starts == s.starts + [Start(s.link, left)])
    && (report.impact == Some(Reverted) ==>
          report.rc != 0 && after.link == s.link
          && after.starts == s.starts + [Start(blue, left),
               Start(s.link, HandedBack(s, lit, w.stop, blue, w.start, w.stopBack, w.restore))])
    && (report.impact == Some(LinkForward) ==>
          report.rc == 2 && after.link == blue && |after.starts| == |s.starts| + 2
          && after.starts[|s.starts| + 1].venv == blue)
    && (report.rc == 0 ==>
          after.link == blue && after.starts == s.starts + [Start(blue, left)]
          && {blue, s.link} <= after.venvs
          && stamp in after.root && after.root[stamp] == Snap(true, Held(s, lit, w.stop)))
    && (report.impact == Some(ToolsBehind) ==> report.rc == 0 && report.maps == Some(Missed))
  }

  /** The gesture ends linked to `venv`, and its last start of the service is on these data. */
  ghost predicate EndsOn(s: Instance, after: Instance, venv: Venv, data: Option<Db>) {
    after.link == venv && |after.starts| > |s.starts| && after.starts[|after.starts| - 1] == Start(venv, data)
  }

  /** The venv and the data held before the gesture. */
  ghost predicate AsItWas(s: Instance, after: Instance) {
    EndsOn(s, after, s.link, s.data)
  }

  /** TRUTHFUL REPORTS, apply, at every exit and for every pattern of failures. "Relaunched as it was" is
      the truth if and only if a process that survived the `stop` left the data equal; "back to the state
      before", if and only if, besides, none that survived the second one wrote on what was put back. */
  lemma ApplyTellsTheTruth(s: Instance, lit: Lit, blue: Venv, stamp: Stamp, w: ApplyWeather)
    requires stamp !in s.root && s.link in s.venvs
    ensures var (after, report) := Apply(s, lit, blue, stamp, w);
            ApplyTruth(s, lit, blue, stamp, w, after, report)
            && (report.impact == Some(RelaunchedAsIs) ==>
                  (AsItWas(s, after) <==> Left(s, lit, w.stop, w.take) == s.data))
            && (report.impact == Some(Reverted) ==>
                  (AsItWas(s, after) <==> HandedBack(s, lit, w.stop, blue, w.start, w.stopBack, w.restore) == s.data))
  {
    hide Apply, Held, Left, HandedBack;
    ApplyHolds(s, lit, blue, stamp, w);
  }

  /** So a manager that obeys makes the reports of `apply` true, whatever else fails. */
  lemma ObeyedStopsTellTheTruth(s: Instance, lit: Lit, blue: Venv, stamp: Stamp, w: ApplyWeather)
    requires stamp !in s.root && s.link in s.venvs && w.stop.ok && w.stopBack.ok
    ensures var (after, report) := Apply(s, lit, blue, stamp, w);
            report.impact in {Some(RelaunchedAsIs), Some(Reverted)} ==> AsItWas(s, after)
  {
    hide Apply, Held, Left, HandedBack;
    ApplyTellsTheTruth(s, lit, blue, stamp, w);
    ObeyedStopsMoveNothing(s, lit, w.stop, w.take, blue, w.start, w.stopBack, w.restore);
  }

  /** No exception escapes before the first start of the new version, and the snapshot was taken. */
  predicate ReachesRaise(w: ApplyWeather) {
    w.built && Took(w.take) && w.halt !in {Building, Stopping, Taking, Swapping, Starting}
  }

  lemma ApplyHolds(s: Instance, lit: Lit, blue: Venv, stamp: Stamp, w: ApplyWeather)
    requires stamp !in s.root && s.link in s.venvs
    ensures ApplyTruth(s, lit, blue, stamp, w, Apply(s, lit, blue, stamp, w).0, Apply(s, lit, blue, stamp, w).1)
  {
    hide Photographed, Raise, Work, Launch, ApplyTruth;
    if ReachesRaise(w) {
      RaiseHolds(s, lit, blue, stamp, w);
    } else {
      EarlyExitHolds(s, lit, blue, stamp, w);
    }
  }

  lemma EarlyExitHolds(s: Instance, lit: Lit, blue: Venv, stamp: Stamp, w: ApplyWeather)
    requires !ReachesRaise(w)
    ensures ApplyTruth(s, lit, blue, stamp, w, Apply(s, lit, blue, stamp, w).0, Apply(s, lit, blue, stamp, w).1)
  {
    hide Stop, Photographed, Launch, Raise, Work, AfterCreate, Held, Left, HandedBack, Survivor, Took, Below, Settled,
         Readable, NeverForbidden;
    var s1 := s.(venvs := s.venvs + {blue});
    WorkKeeps(s1, lit, w.early, 0);
    var taken := Photographed(s1, lit, stamp, w.stop, w.take);
    PhotographedKeeps(s1, lit, stamp, w.stop, w.take, 0);
    PhotographedIs(s1, lit, stamp, w.stop, w.take);
    VenvsDoNotMatter(s, lit, s1.venvs, w.stop, w.take, blue, w.start, w.stopBack, w.restore);
    LaunchKeeps(taken, lit, w.relaunch, 0);
  }

  lemma RaiseHolds(s: Instance, lit: Lit, blue: Venv, stamp: Stamp, w: ApplyWeather)
    requires stamp !in s.root && s.link in s.venvs && ReachesRaise(w)
    ensures var taken := Photographed(s.(venvs := s.venvs + {blue}), lit, stamp, w.stop, w.take);
            var (after, report) := Raise(taken, lit, s.link, blue, stamp, w);
            ApplyTruth(s, lit, blue, stamp, w, after, report)
  {
    hide Stop, Photographed, Raise, AfterCreate, Held, Left, HandedBack, Survivor;
    var s1 := s.(venvs := s.venvs + {blue});
    var taken := Photographed(s1, lit, stamp, w.stop, w.take);
    PhotographedKeeps(s1, lit, stamp, w.stop, w.take, 0);
    PhotographedIs(s1, lit, stamp, w.stop, w.take);
    VenvsDoNotMatter(s, lit, s1.venvs, w.stop, w.take, blue, w.start, w.stopBack, w.restore);
    RaiseTellsTheTruth(s1, taken, lit, s.link, blue, stamp, w);
  }

  lemma VenvsDoNotMatter(s: Instance, lit: Lit, venvs: set<Venv>, stop: Step, take: TakeStep, started: Venv,
                         start: Step, stopBack: Step, restore: RestoreStep)
    ensures var t := s.(venvs := venvs);
            Held(t, lit, stop) == Held(s, lit, stop) && Left(t, lit, stop, take) == Left(s, lit, stop, take)
            && HandedBack(t, lit, stop, started, start, stopBack, restore)
            == HandedBack(s, lit, stop, started, start, stopBack, restore)
  {
  }

  lemma RaiseTellsTheTruth(s: Instance, taken: Instance, lit: Lit, before: Venv, blue: Venv, stamp: Stamp,
                           w: ApplyWeather)
    requires taken.running == Survivor(s, w.stop) && stamp in taken.root
    requires taken.root[stamp] == Snap(true, Held(s, lit, w.stop)) && {before, blue} <= taken.venvs
    ensures var (after, report) := Raise(taken, lit, before, blue, stamp, w);
            report.impact in {None, Some(ToolsBehind), Some(Reverted), Some(LinkForward)}
            && (report.impact == Some(Reverted) ==>
                  report.rc != 0 && after.link == before
                  && after.starts == taken.starts + [Start(blue, taken.data),
                       Start(before, HandedBack(s, lit, w.stop, blue, w.start, w.stopBack, w.restore))])
            && (report.impact == Some(LinkForward) ==>
                  report.rc == 2 && after.link == blue && |after.starts| == |taken.starts| + 2
                  && after.starts[|taken.starts| + 1].venv == blue)
            && (report.rc == 0 ==>
                  after.link == blue && after.starts == taken.starts + [Start(blue, taken.data)]
                  && {before, blue} <= after.venvs && after.root == taken.root)
            && (report.impact == Some(ToolsBehind) ==> report.rc == 0 && report.maps == Some(Missed))
  {
    hide Stop, Launch, Repose, Retreat, Held, Written, PurgedVenvs, Below, Settled, Readable, NeverForbidden;
    RaisedKeeps(taken, lit, blue, w, 0);
    var up := Repose(Launch(taken.(link := blue), lit, w.start), lit, blue, w.maps);
    StopKeeps(up, lit, w.stopBack, 0);
    PurgeSparesTheKept(up.venvs, {blue, before});
    RetreatTellsTheTruth(Stop(up, lit, w.stopBack).(link := before), lit, before, blue, stamp, w);
  }

  lemma PurgeSparesTheKept(venvs: set<Venv>, keep: set<Venv>)
    requires keep <= venvs
    ensures keep <= PurgedVenvs(venvs, keep)
  {
  }

  lemma RetreatTellsTheTruth(linked: Instance, lit: Lit, before: Venv, blue: Venv, stamp: Stamp, w: ApplyWeather)
    requires linked.link == before && stamp in linked.root
    ensures var (after, report) := Retreat(linked, lit, before, blue, stamp, w);
            report.rc != 0
            && report.impact in {None, Some(Reverted), Some(LinkForward)}
            && (report.impact == Some(Reverted) ==>
                  after.link == before
                  && after.starts == linked.starts
                       + [Start(before, Written(linked.root[stamp].db, linked.running, lit, w.restore.work))])
            && (report.impact == Some(LinkForward) ==>
                  report.rc == 2 && after.link == blue && |after.starts| == |linked.starts| + 1
                  && after.starts[|linked.starts|].venv == blue)
  {
    hide Launch, Repose, Written;
    var put := PutBack(linked, lit, stamp, w.restore);
    PutBackKeeps(linked, lit, stamp, w.restore, 0);
    LaunchKeeps(put.(link := blue), lit, w.startForward, 0);
    LaunchKeeps(put, lit, w.startBack, 0);
    ReposeKeeps(Launch(put, lit, w.startBack), lit, before, w.mapsBack, 0);
  }

  // --- the impact of rollback ---------------------------------------------------------------------

  /** What a failed restoration of the target leaves, a survivor of the `stop` writing on it. */
  function CutShort(s: Instance, lit: Lit, target: Venv, name: Stamp, w: RollbackWeather): Option<Db>
    requires name in s.root
  {
    var moved := if !Guard(s.root[name], target, lit, w.restore) || w.restore.fault == Refused
                 then Left(s, lit, w.stop, w.take)
                 else if w.restore.fault == LostDatabase then None
                 else s.root[name].db;
    Written(moved, Survivor(s, w.stop), lit, w.restore.work)
  }

  /** The restoration was cut after it had moved the database: the data are no longer those held
      before the gesture, and nothing puts them back. */
  ghost predicate CutAfterMove(s: Instance, lit: Lit, target: Venv, name: Stamp, w: RollbackWeather)
    requires name in s.root
  {
    Guard(s.root[name], target, lit, w.restore)
    && ((w.restore.fault == LostDatabase && s.data.Some?)
        || (w.restore.fault in {DatabaseOnly, Whole} && s.root[name].db != s.data))
  }

  /** Where the `stop` is obeyed, only that makes "as before" false. */
  lemma ObeyedStopIsCutAfterMove(s: Instance, lit: Lit, target: Venv, name: Stamp, w: RollbackWeather)
    requires name in s.root && Survivor(s, w.stop).None?
    ensures CutShort(s, lit, target, name, w) == s.data <==> !CutAfterMove(s, lit, target, name, w)
  {
  }

  /** What the target restored becomes before the service is started on it. */
  function Regained(s: Instance, lit: Lit, name: Stamp, w: RollbackWeather): Option<Db>
    requires name in s.root
  {
    Written(s.root[name].db, Survivor(s, w.stop), lit, w.restore.work)
  }

  ghost predicate RollbackTruth(s: Instance, lit: Lit, target: Venv, name: Stamp, w: RollbackWeather, after: Instance,
                                report: Report)
  {
    && (report.impact == Some(NotTouched) ==>
          report.rc == 1 && after == s.(data := after.data) && (s.running.None? ==> after.data == s.data))
    && (report.impact == Some(RelaunchedAsIs) ==>
          report.rc == 1 && after.link == s.link && after.maps == s.maps
          && after.starts == s.starts + [Start(s.link, Left(s, lit, w.stop, w.take))])
    && (report.impact == Some(AsBefore) ==>
          report.rc == 1 && after.link == s.link && after.maps == s.maps && name in s.root
          && after.starts == s.starts + [Start(s.link, CutShort(s, lit, target, name, w))])
    && (report.impact == Some(BackBefore) ==>
          report.rc != 0 && after.link == s.link && name in s.root
          && after.starts == s.starts + [Start(target, Regained(s, lit, name, w)),
               Start(s.link, HandedBack(s, lit, w.stop, target, w.start, w.stopBack, w.restoreBack))])
    && (report.impact == Some(DataNotBack) ==> report.rc == 2 && after.link == s.link)
    && (report.rc == 0 ==>
          report.impact in {Some(AtSnapshot), Some(AtSnapshotToolsBehind)}
          && after.link == target && name in s.root && s.root[name].complete
          && after.starts == s.starts + [Start(target, Regained(s, lit, name, w))])
  }

  /** TRUTHFUL REPORTS, rollback, at every exit and for every pattern of failures. "Relaunched" and "back
      to the state before the rollback" are the truth under the conditions of `apply`; "back to the state
      of the snapshot", if and only if no survivor of the `stop` changed what was restored; "no half left:
      the instance is as before", if and only if the failed restoration, and that survivor after it, left
      the database as it was. */
  lemma RollbackTellsTheTruth(s: Instance, lit: Lit, target: Venv, name: Stamp, safety: Stamp, w: RollbackWeather)
    requires safety !in s.root && name != safety
    ensures var (after, report) := Rollback(s, lit, target, name, safety, w);
            RollbackTruth(s, lit, target, name, w, after, report)
            && (report.impact == Some(RelaunchedAsIs) ==>
                  (AsItWas(s, after) <==> Left(s, lit, w.stop, w.take) == s.data))
            && (report.impact == Some(AsBefore) ==>
                  (AsItWas(s, after) <==> CutShort(s, lit, target, name, w) == s.data))
            && (report.impact == Some(BackBefore) ==>
                  (AsItWas(s, after)
                   <==> HandedBack(s, lit, w.stop, target, w.start, w.stopBack, w.restoreBack) == s.data))
            && (report.rc == 0 ==>
                  (EndsOn(s, after, target, s.root[name].db) <==> Regained(s, lit, name, w) == s.root[name].db))
  {
    hide Rollback, Held, Left, HandedBack, CutShort, Regained;
    RollbackHolds(s, lit, target, name, safety, w);
  }

  /** And those of `rollback`, but one: "as before" is then false if and only if the restoration of the target
      was cut after it had moved the database. */
  lemma OnlyACutRestorationLies(s: Instance, lit: Lit, target: Venv, name: Stamp, safety: Stamp, w: RollbackWeather)
    requires safety !in s.root && name != safety && w.stop.ok && w.stopBack.ok
    ensures var (after, report) := Rollback(s, lit, target, name, safety, w);
            (report.impact in {Some(RelaunchedAsIs), Some(BackBefore)} ==> AsItWas(s, after))
            && (report.rc == 0 ==> name in s.root && EndsOn(s, after, target, s.root[name].db))
            && (report.impact == Some(AsBefore) ==>
                  name in s.root && (AsItWas(s, after) <==> !CutAfterMove(s, lit, target, name, w)))
  {
    hide Rollback, Held, Left, HandedBack, CutShort, CutAfterMove;
    RollbackTellsTheTruth(s, lit, target, name, safety, w);
    ObeyedStopsMoveNothing(s, lit, w.stop, w.take, target, w.start, w.stopBack, w.restoreBack);
    if name in s.root {
      ObeyedStopIsCutAfterMove(s, lit, target, name, w);
    }
  }

  lemma RollbackHolds(s: Instance, lit: Lit, target: Venv, name: Stamp, safety: Stamp, w: RollbackWeather)
    requires safety !in s.root && name != safety
    ensures var (after, report) := Rollback(s, lit, target, name, safety, w);
            RollbackTruth(s, lit, target, name, w, after, report)
  {
    hide Photographed, Cross, Work, Launch, Stop, RollbackTruth, Accepts;
    var taken := Photographed(s, lit, safety, w.stop, w.take);
    if Accepts(s.root, name) && w.probed && w.halt !in {Building, Stopping, Taking} && Took(w.take)
       && name in taken.root && taken.root[name].complete && w.swap {
      CrossHolds(s, lit, target, name, safety, w);
    } else {
      EarlyRefusalHolds(s, lit, target, name, safety, w);
    }
  }

  lemma EarlyRefusalHolds(s: Instance, lit: Lit, target: Venv, name: Stamp, safety: Stamp, w: RollbackWeather)
    requires var taken := Photographed(s, lit, safety, w.stop, w.take);
             !(Accepts(s.root, name) && w.probed && w.halt !in {Building, Stopping, Taking} && Took(w.take)
               && name in taken.root && taken.root[name].complete && w.swap)
    ensures var (after, report) := Rollback(s, lit, target, name, safety, w);
            RollbackTruth(s, lit, target, name, w, after, report)
  {
    hide Stop, Photographed, Launch, Cross, Work, AfterCreate, Accepts, Held, Left, HandedBack, CutShort, Regained,
         Survivor, Took;
    WorkKeeps(s, lit, w.early, 0);
    var taken := Photographed(s, lit, safety, w.stop, w.take);
    PhotographedKeeps(s, lit, safety, w.stop, w.take, 0);
    PhotographedIs(s, lit, safety, w.stop, w.take);
    LaunchKeeps(taken, lit, w.relaunch, 0);
  }

  lemma CrossHolds(s: Instance, lit: Lit, target: Venv, name: Stamp, safety: Stamp, w: RollbackWeather)
    requires safety !in s.root && name != safety && Took(w.take)
    requires var taken := Photographed(s, lit, safety, w.stop, w.take);
             name in taken.root && taken.root[name].complete
    ensures var taken := Photographed(s, lit, safety, w.stop, w.take);
            var (after, report) := Cross(taken.(link := target), lit, s.link, target, name, safety, w);
            RollbackTruth(s, lit, target, name, w, after, report)
  {
    hide Stop, Photographed, Cross, AfterCreate, Held, Left, HandedBack, CutShort, Regained, Survivor;
    var taken := Photographed(s, lit, safety, w.stop, w.take);
    PhotographedKeeps(s, lit, safety, w.stop, w.take, 0);
    PhotographedIs(s, lit, safety, w.stop, w.take);
    RestorableRoots(s, lit, name, safety, w);
    CrossTellsTheTruth(s, taken.(link := target), lit, target, name, safety, w);
  }

  lemma CrossTellsTheTruth(s: Instance, linked: Instance, lit: Lit, target: Venv, name: Stamp, safety: Stamp,
                           w: RollbackWeather)
    requires linked.link == target && linked.running == Survivor(s, w.stop)
    requires linked.data == Left(s, lit, w.stop, w.take)
    requires name in s.root && name in linked.root && linked.root[name] == s.root[name]
    requires safety in linked.root && linked.root[safety] == Snap(true, Held(s, lit, w.stop))
    ensures var (after, report) := Cross(linked, lit, s.link, target, name, safety, w);
            report.impact in {None, Some(AsBefore), Some(AtSnapshot), Some(AtSnapshotToolsBehind), Some(BackBefore),
                              Some(DataNotBack)}
            && (report.impact == Some(AsBefore) ==>
                  report.rc == 1 && after.link == s.link && after.maps == linked.maps
                  && after.starts == linked.starts + [Start(s.link, CutShort(s, lit, target, name, w))])
            && (report.impact == Some(BackBefore) ==>
                  report.rc != 0 && after.link == s.link
                  && after.starts == linked.starts + [Start(target, Regained(s, lit, name, w)),
                       Start(s.link, HandedBack(s, lit, w.stop, target, w.start, w.stopBack, w.restoreBack))])
            && (report.impact == Some(DataNotBack) ==> report.rc == 2 && after.link == s.link)
            && (report.rc == 0 ==>
                  report.impact in {Some(AtSnapshot), Some(AtSnapshotToolsBehind)} && after.link == target
                  && after.starts == linked.starts + [Start(target, Regained(s, lit, name, w))])
  {
    hide Stop, Launch, Repose, Reinstate, Written, Guard, Held, Left, Below, Settled, Readable, NeverForbidden;
    var put := PutBack(linked, lit, name, w.restore);
    PutBackKeeps(linked, lit, name, w.restore, 0);
    if PutBackWhole(linked, lit, name, w.restore) {
      StartedOverTellsTheTruth(s, put, lit, target, safety, w);
    } else {
      LaunchKeeps(put.(link := s.link), lit, w.startForward, 0);
    }
  }

  /** From the first start on the target. */
  lemma StartedOverTellsTheTruth(s: Instance, put: Instance, lit: Lit, target: Venv, safety: Stamp, w: RollbackWeather)
    requires put.link == target && put.running == Survivor(s, w.stop)
    requires safety in put.root && put.root[safety] == Snap(true, Held(s, lit, w.stop))
    ensures var up := Repose(Launch(put, lit, w.start), lit, target, w.maps);
            up.link == target && up.starts == put.starts + [Start(target, put.data)]
    ensures var up := Repose(Launch(put, lit, w.start), lit, target, w.maps);
            var (after, report) := Reinstate(Stop(up, lit, w.stopBack).(link := s.link), lit, s.link, safety, w);
            report.rc != 0 && report.impact in {None, Some(BackBefore), Some(DataNotBack)}
            && (report.impact == Some(DataNotBack) ==> report.rc == 2 && after.link == s.link)
            && (report.impact == Some(BackBefore) ==>
                  after.link == s.link
                  && after.starts == put.starts + [Start(target, put.data),
                       Start(s.link, HandedBack(s, lit, w.stop, target, w.start, w.stopBack, w.restoreBack))])
  {
    hide Stop, Launch, Repose, Reinstate, Written, Held, Below, Settled, Readable, NeverForbidden;
    LaunchKeeps(put, lit, w.start, 0);
    var launched := Launch(put, lit, w.start);
    ReposeKeeps(launched, lit, target, w.maps, 0);
    var up := Repose(launched, lit, target, w.maps);
    StopKeeps(up, lit, w.stopBack, 0);
    ReinstateTellsTheTruth(Stop(up, lit, w.stopBack).(link := s.link), lit, s.link, safety, w);
  }

  lemma ReinstateTellsTheTruth(linked: Instance, lit: Lit, current: Venv, safety: Stamp, w: RollbackWeather)
    requires linked.link == current && safety in linked.root
    ensures var (after, report) := Reinstate(linked, lit, current, safety, w);
            report.rc != 0 && report.impact in {None, Some(BackBefore), Some(DataNotBack)}
            && (report.impact == Some(DataNotBack) ==> report.rc == 2 && after.link == current)
            && (report.impact == Some(BackBefore) ==>
                  after.link == current
                  && after.starts == linked.starts
                       + [Start(current, Written(linked.root[safety].db, linked.running, lit, w.restoreBack.work))])
  {
    hide Launch, Repose, Written;
    var put := PutBack(linked, lit, safety, w.restoreBack);
    PutBackKeeps(linked, lit, safety, w.restoreBack, 0);
    LaunchKeeps(put, lit, w.startBack, 0);
    ReposeKeeps(Launch(put, lit, w.startBack), lit, current, w.mapsBack, 0);
  }

  // --- the exceptions do happen ---------------------------------------------------------------------

  const YES := Step(true, None)
  const UNMEASURED := MapsStep(NotMeasured, None)
  const TAKEN := TakeStep(Completed, true, None)
  const WHOLE := RestoreStep(true, true, true, Whole, None)

  /** On every serving instance: the `stop` fails, a request is served, the snapshot cannot be taken. The
      report says the service was relaunched as it was, and it was not. */
  lemma RelaunchedCanBeFalse(s: Instance, lit: Lit, blue: Venv, stamp: Stamp, rows: seq<int>) returns (w: ApplyWeather)
    requires Settled(s, lit) && s.running.Some? && rows != s.data.value.rows
    ensures var (after, report) := Apply(s, lit, blue, stamp, w);
            report.impact == Some(RelaunchedAsIs) && !AsItWas(s, after)
  {
    w := ApplyWeather(Nowhere, true, None, Step(false, Some(rows)), TakeStep(BeforeDirectory, false, None), YES, YES,
                      UNMEASURED, false, YES, WHOLE, YES, YES, UNMEASURED, true);
  }

  /** On every instance at rest, updated to a wheel that reads as far: the second `stop` fails, and a
      request is served by the new version once the data are back. The report says the instance is back to
      the state before, and its service is started on other data. */
  lemma RevertedCanBeFalse(s: Instance, lit: Lit, blue: Venv, stamp: Stamp, rows: seq<int>) returns (w: ApplyWeather)
    requires Settled(s, lit) && stamp !in s.root && s.link in s.venvs && s.data.Some? && rows != s.data.value.rows
    requires Readable(s.data, lit(blue))
    ensures var (after, report) := Apply(s, lit, blue, stamp, w);
            report.impact == Some(Reverted) && !AsItWas(s, after)
  {
    hide Apply;
    w := ApplyWeather(Nowhere, true, None, YES, TAKEN, YES, YES, UNMEASURED, false, Step(false, None),
                      WHOLE.(work := Some(rows)), YES, YES, UNMEASURED, true);
    RevertedMeansRetreated(s, lit, blue, stamp, w);
    ApplyTellsTheTruth(s, lit, blue, stamp, w);
  }

  /** On every instance, a rollback whose restoration is cut right after the database came back says "as
      before" and serves the CURRENT binary on the snapshot's data. */
  lemma AsBeforeCanBeFalse(s: Instance, lit: Lit, target: Venv, name: Stamp, safety: Stamp)
    returns (w: RollbackWeather)
    requires safety !in s.root && name != safety && name in s.root && s.root[name].complete
    requires Accepts(s.root, name)
    requires s.root[name].db.Some? && s.root[name].db.value.schema == lit(target) && s.root[name].db != s.data
    ensures var (after, report) := Rollback(s, lit, target, name, safety, w);
            report.impact == Some(AsBefore) && after.link == s.link
            && after.starts == s.starts + [Start(s.link, s.root[name].db)]
  {
    hide Accepts, AfterCreate, Photographed;
    w := RollbackWeather(Nowhere, true, None, YES, TAKEN, YES, true, WHOLE.(fault := DatabaseOnly), YES, YES,
                         UNMEASURED, true, YES, WHOLE, YES, UNMEASURED, true);
    PhotographedKeeps(s, lit, safety, w.stop, w.take, 0);
    TargetSurvivesSafety(s, lit, name, safety, w);
  }

  /** On every instance that serves a later schema than the snapshot's: the `stop` fails and a request is
      served once the snapshot is back. The report says the instance is at the snapshot's state, and the
      old binary is started on data it cannot even read. */
  lemma AtSnapshotCanBeFalse(s: Instance, lit: Lit, target: Venv, name: Stamp, safety: Stamp, rows: seq<int>)
    returns (w: RollbackWeather)
    requires Settled(s, lit) && s.running.Some? && lit(target) < lit(s.link)
    requires safety !in s.root && name != safety && name in s.root && s.root[name].complete && Accepts(s.root, name)
    requires s.root[name].db.Some? && s.root[name].db.value.schema == lit(target)
    ensures var (after, report) := Rollback(s, lit, target, name, safety, w);
            report.rc == 0 && report.impact == Some(AtSnapshot) && after.link == target
            && after.starts == s.starts + [Start(target, Some(Db(lit(s.link), rows)))]
  {
    hide Accepts, AfterCreate, Photographed;
    w := RollbackWeather(Nowhere, true, None, Step(false, None), TAKEN, YES, true, WHOLE.(work := Some(rows)), YES, YES,
                         UNMEASURED, true, YES, WHOLE, YES, UNMEASURED, true);
    PhotographedKeeps(s, lit, safety, w.stop, w.take, 0);
    TargetSurvivesSafety(s, lit, name, safety, w);
  }
}
