/** What `apply` and `rollback` never do, whatever fails: start a binary on a database it cannot
    read. The exceptions are characterised exactly. */
module UpdateSafety {
  import opened Prelude
  import opened Stamps
  import opened Retention
  import opened RollbackTargets
  import opened UpdateEngine

  /** An instance at rest: stopped on data its binary can read, or serving data it has opened. */
  ghost predicate Settled(s: Instance, lit: Lit) {
    if s.running.None? then Readable(s.data, lit(s.link))
    else s.running == Some(s.link) && s.data.Some? && s.data.value.schema == lit(s.link)
  }

  /** Every start of the service so far was on data its binary reads. */
  ghost predicate NeverForbidden(s: Instance, lit: Lit) {
    forall st :: st in s.starts ==> Readable(st.data, lit(st.venv))
  }

  /** No schema above `top` is in place, and no process that could migrate above it is alive. */
  ghost predicate Below(s: Instance, lit: Lit, top: nat) {
    (s.data.Some? ==> s.data.value.schema <= top) && (s.running.Some? ==> lit(s.running.value) <= top)
  }

  /** What every gesture can start from, a process that outlived a `stop` included: the linked binary reads
      the data, and no process that could migrate them further than it reads is alive. */
  ghost predicate Steady(s: Instance, lit: Lit) {
    Below(s, lit, lit(s.link))
  }

  /** An instance at rest is steady, and a wheel that reads its data reads as far as its process; one that
      is stopped and steady is at rest. */
  lemma RestIsSteady(s: Instance, lit: Lit, top: nat)
    ensures Settled(s, lit) ==> Steady(s, lit) && (Readable(s.data, top) <==> Below(s, lit, top))
    ensures s.running.None? ==> (Settled(s, lit) <==> Steady(s, lit))
  {
  }

  lemma StartsGrow(s: Instance, lit: Lit, st: Start)
    requires NeverForbidden(s, lit)
    ensures (forall x :: x in s.starts + [st] ==> Readable(x.data, lit(x.venv))) <==> Readable(st.data, lit(st.venv))
  {
    assert st in s.starts + [st];
  }

  /** The snapshot a gesture takes is there, complete, with the data of that instant. */
  lemma TookWhatWasThere(s: Instance, lit: Lit, stamp: Stamp, w: TakeStep)
    requires stamp !in s.root && Took(w)
    ensures var t := Take(s, lit, stamp, w);
            stamp in t.root && t.root[stamp] == Snap(true, s.data)
            && t.link == s.link && t.running == s.running && t.starts == s.starts && t.venvs == s.venvs
  {
    CreateKeepsTheNewOne(s.root, stamp, s.data, Completed);
  }

  // --- what each step keeps -------------------------------------------------------------------------

  /** Whatever a live process does, it touches the data only, and never above its own schema. */
  lemma WorkKeeps(s: Instance, lit: Lit, rows: Option<seq<int>>, top: nat)
    ensures var t := Work(s, lit, rows);
            t == s.(data := t.data) && (s.running.None? ==> t == s)
            && (Below(s, lit, top) ==> Below(t, lit, top))
            && (Settled(s, lit) ==> Settled(t, lit))
  {
  }

  lemma StopKeeps(s: Instance, lit: Lit, w: Step, top: nat)
    ensures var t := Stop(s, lit, w);
            t == s.(data := t.data, running := t.running)
            && t.running == (if w.ok then None else s.running)
            && (t.running.None? ==> t.data == s.data)
            && (Below(s, lit, top) ==> Below(t, lit, top))
            && (Settled(s, lit) ==> Settled(t, lit) && Readable(t.data, lit(t.link)))
  {
  }

  lemma TakeKeeps(s: Instance, lit: Lit, stamp: Stamp, w: TakeStep, top: nat)
    ensures var t := Take(s, lit, stamp, w);
            t == s.(data := t.data, root := t.root) && t.root == AfterCreate(s.root, stamp, s.data, w.how)
            && (s.running.None? ==> t.data == s.data)
            && (Below(s, lit, top) ==> Below(t, lit, top))
            && (Settled(s, lit) ==> Settled(t, lit) && Readable(t.data, lit(t.link)))
  {
  }

  lemma LaunchKeeps(s: Instance, lit: Lit, w: Step, top: nat)
    ensures var t := Launch(s, lit, w);
            t == s.(data := t.data, running := t.running, starts := s.starts + [Start(s.link, s.data)])
            && t.running == (if s.running.None? && w.ok then Some(s.link) else s.running)
            && (t.running.None? ==> t.data == s.data)
            && (Below(s, lit, top) && lit(s.link) <= top ==> Below(t, lit, top))
            && (s.running.None? && Readable(s.data, lit(s.link)) ==> Settled(t, lit))
            && (Settled(s, lit) ==> Settled(t, lit))
    ensures NeverForbidden(s, lit) ==>
              (NeverForbidden(Launch(s, lit, w), lit) <==> Readable(s.data, lit(s.link)))
  {
    if NeverForbidden(s, lit) {
      StartsGrow(s, lit, Start(s.link, s.data));
    }
  }

  lemma ReposeKeeps(s: Instance, lit: Lit, venv: Venv, w: MapsStep, top: nat)
    ensures var t := Repose(s, lit, venv, w);
            t == s.(data := t.data, maps := t.maps)
            && t.maps == (match w.state case Posed => Some(venv) case NotMeasured => s.maps case Missed => None)
            && (s.running.None? ==> t.data == s.data)
            && (Below(s, lit, top) ==> Below(t, lit, top))
            && (Settled(s, lit) ==> Settled(t, lit))
  {
  }

  /** A restoration touches the data only: the snapshot's, none at all, or still the old ones. */
  lemma PutBackKeeps(s: Instance, lit: Lit, name: Stamp, w: RestoreStep, top: nat)
    ensures var t := PutBack(s, lit, name, w);
            t == s.(data := t.data)
            && (s.running.None? ==> t.data in {s.data, None, if name in s.root then s.root[name].db else None})
            && (s.running.None? && PutBackWhole(s, lit, name, w) ==> t.data == s.root[name].db)
            && (Below(s, lit, top) && (name in s.root && s.root[name].db.Some? ==> s.root[name].db.value.schema <= top)
                ==> Below(t, lit, top))
  {
  }

  // --- apply --------------------------------------------------------------------------------------

  /** No exception escapes up to, and including, the start of the automatic way back. */
  predicate ReachesStartBack(h: Halt) {
    h !in {Building, Stopping, Taking, Swapping, Starting, Posing, Judging, StoppingBack, SwappingBack, Restoring,
           StartingBack}
  }

  /** The new version failed its live check and the way back went through: link, data, start. */
  predicate Retreated(s: Instance, lit: Lit, w: ApplyWeather) {
    w.built && Took(w.take) && !w.live && ReachesStartBack(w.halt)
    && Guard(Snap(true, Stop(s, lit, w.stop).data), s.link, lit, w.restore) && w.restore.fault == Whole
  }

  /** The new binary survives the `stop` of the automatic way back and, still serving requests,
      migrates the data that have just been restored for the old one. */
  predicate Late(s: Instance, lit: Lit, blue: Venv, w: ApplyWeather) {
    (s.running.None? || w.stop.ok) && w.start.ok && !w.stopBack.ok
    && w.restore.work.Some? && lit(blue) > lit(s.link)
  }

  /** Stopped and photographed: the snapshot holds the data of that instant, which the old binary reads. */
  lemma PhotographedKeeps(s: Instance, lit: Lit, stamp: Stamp, stop: Step, take: TakeStep, top: nat)
    ensures var stopped := Stop(s, lit, stop);
            var t := Photographed(s, lit, stamp, stop, take);
            t == s.(data := t.data, running := t.running, root := AfterCreate(s.root, stamp, stopped.data, take.how))
            && t.running == (if stop.ok then None else s.running)
            && (t.running.None? ==> stopped.data == s.data && t.data == s.data)
            && (Below(s, lit, top) ==> Below(t, lit, top))
            && (Below(s, lit, top) ==> Readable(t.data, top) && Readable(stopped.data, top))
            && (Settled(s, lit) ==> Settled(t, lit))
            && (stamp !in s.root && Took(take) ==> stamp in t.root && t.root[stamp] == Snap(true, stopped.data))
  {
    hide Stop, Take, AfterCreate;
    var stopped := Stop(s, lit, stop);
    StopKeeps(s, lit, stop, top);
    TakeKeeps(stopped, lit, stamp, take, top);
    if stamp !in s.root && Took(take) {
      TookWhatWasThere(stopped, lit, stamp, take);
    }
  }

  /** Up on the new venv. */
  lemma RaisedKeeps(taken: Instance, lit: Lit, blue: Venv, w: ApplyWeather, top: nat)
    ensures var launched := Launch(taken.(link := blue), lit, w.start);
            var up := Repose(launched, lit, blue, w.maps);
            launched == taken.(link := blue, data := launched.data, running := launched.running,
                               starts := taken.starts + [Start(blue, taken.data)])
            && up == launched.(data := up.data, maps := up.maps)
            && up.running == launched.running
            && up.running == (if taken.running.None? && w.start.ok then Some(blue) else taken.running)
            && (Below(taken, lit, top) && lit(blue) <= top ==> Below(up, lit, top))
            && (taken.running.None? && Readable(taken.data, lit(blue)) ==> Settled(launched, lit) && Settled(up, lit))
            && (NeverForbidden(taken, lit) && Readable(taken.data, lit(blue)) ==>
                  NeverForbidden(launched, lit) && NeverForbidden(up, lit))
  {
    hide Launch, Repose;
    LaunchKeeps(taken.(link := blue), lit, w.start, top);
    ReposeKeeps(Launch(taken.(link := blue), lit, w.start), lit, blue, w.maps, top);
  }

  lemma RetreatIsSafe(linked: Instance, lit: Lit, before: Venv, blue: Venv, stamp: Stamp, w: ApplyWeather)
    requires linked.link == before && Below(linked, lit, lit(blue)) && NeverForbidden(linked, lit)
    requires stamp in linked.root && linked.root[stamp].complete && Readable(linked.root[stamp].db, lit(before))
    requires Readable(linked.root[stamp].db, lit(blue))
    ensures NeverForbidden(Retreat(linked, lit, before, blue, stamp, w).0, lit) <==>
              !(w.halt != Restoring && w.halt != StartingBack && PutBackWhole(linked, lit, stamp, w.restore)
                && linked.running.Some? && w.restore.work.Some? && lit(linked.running.value) > lit(before))
  {
    hide Launch, Repose, PutBack, PutBackWhole, Work;
    var put := PutBack(linked, lit, stamp, w.restore);
    PutBackKeeps(linked, lit, stamp, w.restore, lit(blue));
    if PutBackWhole(linked, lit, stamp, w.restore) {
      RestoredReadable(linked, lit, stamp, w.restore, before);
      LaunchKeeps(put, lit, w.startBack, lit(blue));
      ReposeKeeps(Launch(put, lit, w.startBack), lit, before, w.mapsBack, lit(blue));
    } else {
      LaunchKeeps(put.(link := blue), lit, w.startForward, lit(blue));
    }
  }

  lemma RaiseIsSafe(taken: Instance, lit: Lit, before: Venv, blue: Venv, stamp: Stamp, w: ApplyWeather)
    requires Below(taken, lit, lit(blue)) && NeverForbidden(taken, lit) && Readable(taken.data, lit(blue))
    requires stamp in taken.root && taken.root[stamp].complete && Readable(taken.root[stamp].db, lit(before))
    requires Readable(taken.root[stamp].db, lit(blue))
    requires taken.running.Some? ==> lit(taken.running.value) <= lit(before)
    ensures NeverForbidden(Raise(taken, lit, before, blue, stamp, w).0, lit) <==>
              !(w.halt !in {Posing, Judging, StoppingBack, SwappingBack, Restoring, StartingBack} && !w.live
                && Guard(taken.root[stamp], before, lit, w.restore) && w.restore.fault == Whole
                && taken.running.None? && w.start.ok && !w.stopBack.ok
                && w.restore.work.Some? && lit(blue) > lit(before))
  {
    hide Stop, Launch, Repose, PutBack, Retreat, Guard;
    RaisedKeeps(taken, lit, blue, w, lit(blue));
    var up := Repose(Launch(taken.(link := blue), lit, w.start), lit, blue, w.maps);
    StopKeeps(up, lit, w.stopBack, lit(blue));
    RetreatIsSafe(Stop(up, lit, w.stopBack).(link := before), lit, before, blue, stamp, w);
  }

  /** FORBIDDEN STATE, apply. Given a wheel that reads at least as far as the data, and as any process
      alive, every start of the service is on data the linked binary reads -- under every pattern of
      failures, except one: a `stop` that fails in the automatic way back while the new process keeps
      migrating. */
  lemma ApplyNeverServesForbidden(s: Instance, lit: Lit, blue: Venv, stamp: Stamp, w: ApplyWeather)
    requires Steady(s, lit) && NeverForbidden(s, lit)
    requires stamp !in s.root
    requires Below(s, lit, lit(blue))
    ensures NeverForbidden(Apply(s, lit, blue, stamp, w).0, lit) <==>
              !(Retreated(s, lit, w) && Late(s, lit, blue, w))
  {
    hide Stop, Photographed, Launch, Raise, Work, AfterCreate, Guard;
    var s1 := s.(venvs := s.venvs + {blue});
    WorkKeeps(s1, lit, w.early, lit(blue));
    StopKeeps(s1, lit, w.stop, lit(blue));
    StopForgetsVenvs(s, lit, s1.venvs, w.stop);
    var taken := Photographed(s1, lit, stamp, w.stop, w.take);
    PhotographedKeeps(s1, lit, stamp, w.stop, w.take, lit(blue));
    PhotographedKeeps(s1, lit, stamp, w.stop, w.take, lit(s.link));
    LaunchKeeps(taken, lit, w.relaunch, lit(blue));
    if Took(w.take) {
      RaiseIsSafe(taken, lit, s.link, blue, stamp, w);
    }
  }

  /** The new version is started at least once. */
  predicate Tried(w: ApplyWeather) {
    w.built && Took(w.take) && w.halt !in {Building, Stopping, Taking, Swapping, Starting}
  }

  /** FORBIDDEN STATE, the other wheels. A wheel that does NOT read the data, which nothing refuses, is
      started on them if and only if it gets as far as its first start, whatever fails and whatever the
      live check says of it. */
  lemma OlderWheelServesForbidden(s: Instance, lit: Lit, blue: Venv, stamp: Stamp, w: ApplyWeather)
    requires Steady(s, lit) && NeverForbidden(s, lit)
    requires stamp !in s.root
    requires !Readable(s.data, lit(blue))
    ensures NeverForbidden(Apply(s, lit, blue, stamp, w).0, lit) <==> !Tried(w)
  {
    hide Stop, Photographed, Launch, Raise, Work, AfterCreate, Took;
    var s1 := s.(venvs := s.venvs + {blue});
    WorkKeeps(s1, lit, w.early, lit(s.link));
    StopKeeps(s1, lit, w.stop, lit(s.link));
    var taken := Photographed(s1, lit, stamp, w.stop, w.take);
    PhotographedKeeps(s1, lit, stamp, w.stop, w.take, lit(s.link));
    LaunchKeeps(taken, lit, w.relaunch, lit(s.link));
    PhotographedNeverGoesBack(s1, lit, stamp, w.stop, w.take);
    RaiseStarts(taken, lit, s.link, blue, stamp, w);
    if Tried(w) {
      assert Start(blue, taken.data) in (taken.starts + [Start(blue, taken.data)]);
    }
  }

  /** A live process never lowers the schema. */
  lemma PhotographedNeverGoesBack(s: Instance, lit: Lit, stamp: Stamp, stop: Step, take: TakeStep)
    requires s.data.Some?
    ensures var t := Photographed(s, lit, stamp, stop, take);
            t.data.Some? && t.data.value.schema >= s.data.value.schema
  {
    hide AfterCreate;
  }

  /** From its first start on the new venv, an update never forgets that start. */
  lemma RaiseStarts(taken: Instance, lit: Lit, before: Venv, blue: Venv, stamp: Stamp, w: ApplyWeather)
    ensures taken.starts + [Start(blue, taken.data)] <= Raise(taken, lit, before, blue, stamp, w).0.starts
  {
    hide Stop, Launch, Repose, Retreat;
    RaisedKeeps(taken, lit, blue, w, 0);
    var up := Repose(Launch(taken.(link := blue), lit, w.start), lit, blue, w.maps);
    StopKeeps(up, lit, w.stopBack, 0);
    RetreatStarts(Stop(up, lit, w.stopBack).(link := before), lit, before, blue, stamp, w);
  }

  lemma RetreatStarts(linked: Instance, lit: Lit, before: Venv, blue: Venv, stamp: Stamp, w: ApplyWeather)
    ensures linked.starts <= Retreat(linked, lit, before, blue, stamp, w).0.starts
  {
    hide Launch, Repose, PutBack, PutBackWhole;
    var put := PutBack(linked, lit, stamp, w.restore);
    PutBackKeeps(linked, lit, stamp, w.restore, 0);
    LaunchKeeps(put.(link := blue), lit, w.startForward, 0);
    LaunchKeeps(put, lit, w.startBack, 0);
    ReposeKeeps(Launch(put, lit, w.startBack), lit, before, w.mapsBack, 0);
  }

  lemma StopForgetsVenvs(s: Instance, lit: Lit, venvs: set<Venv>, w: Step)
    ensures Stop(s.(venvs := venvs), lit, w) == Stop(s, lit, w).(venvs := venvs)
  {
  }

  /** `Retreated` is what the report calls "back to the state before", when the report gets written. */
  lemma RevertedMeansRetreated(s: Instance, lit: Lit, blue: Venv, stamp: Stamp, w: ApplyWeather)
    requires stamp !in s.root
    ensures Apply(s, lit, blue, stamp, w).1.impact == Some(Reverted) <==>
              Retreated(s, lit, w) && w.halt != PosingBack && w.halt != Waiting
  {
    hide Stop, Photographed, Launch, Raise, Work, AfterCreate, Guard;
    var s1 := s.(venvs := s.venvs + {blue});
    StopForgetsVenvs(s, lit, s1.venvs, w.stop);
    PhotographedKeeps(s1, lit, stamp, w.stop, w.take, 0);
    if Took(w.take) {
      RaiseReverts(Photographed(s1, lit, stamp, w.stop, w.take), lit, s.link, blue, stamp, w);
    }
  }

  lemma RaiseReverts(taken: Instance, lit: Lit, before: Venv, blue: Venv, stamp: Stamp, w: ApplyWeather)
    requires stamp in taken.root
    ensures Raise(taken, lit, before, blue, stamp, w).1.impact == Some(Reverted) <==>
              w.halt !in {Posing, Judging, StoppingBack, SwappingBack, Restoring, StartingBack, PosingBack, Waiting}
              && !w.live && Guard(taken.root[stamp], before, lit, w.restore) && w.restore.fault == Whole
  {
    hide Stop, Launch, Repose, Guard, Retreat, PurgedVenvs;
    RaisedKeeps(taken, lit, blue, w, 0);
    var up := Repose(Launch(taken.(link := blue), lit, w.start), lit, blue, w.maps);
    StopKeeps(up, lit, w.stopBack, 0);
    RetreatReverts(Stop(up, lit, w.stopBack).(link := before), lit, before, blue, stamp, w);
  }

  lemma RetreatReverts(linked: Instance, lit: Lit, before: Venv, blue: Venv, stamp: Stamp, w: ApplyWeather)
    ensures Retreat(linked, lit, before, blue, stamp, w).1.impact == Some(Reverted) <==>
              w.halt !in {Restoring, StartingBack, PosingBack, Waiting} && PutBackWhole(linked, lit, stamp, w.restore)
  {
    hide Launch, Repose, PutBack, PutBackWhole;
  }

  /** And it can be LEFT there: an older wheel whose live check and whose restoration fail stays linked, and
      is started a second time, on a database it cannot read. */
  lemma OlderWheelEndsForbidden(s: Instance, lit: Lit, blue: Venv, stamp: Stamp)
    returns (w: ApplyWeather)
    requires Settled(s, lit) && stamp !in s.root
    requires s.data.Some? && s.data.value.schema > lit(blue)
    ensures var (after, report) := Apply(s, lit, blue, stamp, w);
            report.rc == 2 && report.impact == Some(LinkForward)
            && !NeverForbidden(after, lit) && after.link == blue && !Readable(after.data, lit(after.link))
  {
    var yes := Step(true, None);
    w := ApplyWeather(Nowhere, true, None, yes, TakeStep(Completed, true, None), yes, yes, MapsStep(NotMeasured, None),
                      false, yes, RestoreStep(true, true, true, Refused, None), yes, yes,
                      MapsStep(NotMeasured, None), true);
    var stopped := Stop(s.(venvs := s.venvs + {blue}), lit, yes);
    TookWhatWasThere(stopped, lit, stamp, w.take);
    var after := Apply(s, lit, blue, stamp, w).0;
    assert Start(blue, s.data) in after.starts;
  }

  // --- rollback -------------------------------------------------------------------------------------

  /** The restoration of the target succeeds, and the service is then started. */
  ghost predicate Crossed(s: Instance, lit: Lit, target: Venv, name: Stamp, w: RollbackWeather) {
    Accepts(s.root, name) && w.probed && Took(w.take) && w.swap
    && w.halt !in {Building, Stopping, Taking, Restoring, Starting}
    && name in s.root && Guard(s.root[name], target, lit, w.restore) && w.restore.fault == Whole
  }

  /** A later binary than the target survives the first `stop` and migrates the restored data. */
  predicate Overtaken(s: Instance, lit: Lit, target: Venv, w: RollbackWeather) {
    s.running.Some? && !w.stop.ok && w.restore.work.Some? && lit(s.running.value) > lit(target)
  }

  /** A target as `preflight_rollback` accepts them, or any that reads its own snapshot and no
      further than the current binary. */
  ghost predicate FitTarget(s: Instance, lit: Lit, target: Venv, name: Stamp) {
    name in s.root ==> Readable(s.root[name].db, lit(target)) && lit(target) <= lit(s.link)
  }

  /** The safety snapshot never takes the place of an accepted target. */
  lemma TargetSurvivesSafety(s: Instance, lit: Lit, name: Stamp, safety: Stamp, w: RollbackWeather)
    requires safety !in s.root && Accepts(s.root, name) && Took(w.take)
    requires name in s.root && s.root[name].complete
    ensures var taken := Photographed(s, lit, safety, w.stop, w.take);
            name in taken.root && taken.root[name] == s.root[name]
  {
    RefusalIsExact(s.root, name, safety, Stop(s, lit, w.stop).data);
  }

  lemma RestorableRoots(s: Instance, lit: Lit, name: Stamp, safety: Stamp, w: RollbackWeather)
    requires safety !in s.root && name != safety && Took(w.take)
    ensures var taken := Photographed(s, lit, safety, w.stop, w.take);
            name in taken.root ==> name in s.root && taken.root[name] == s.root[name]
  {
  }

  /** So the target is complete after the safety snapshot exactly when it was before. */
  lemma TargetAfterSafety(s: Instance, lit: Lit, name: Stamp, safety: Stamp, w: RollbackWeather)
    requires safety !in s.root && name != safety && Took(w.take) && Accepts(s.root, name)
    ensures var taken := Photographed(s, lit, safety, w.stop, w.take);
            (name in taken.root && taken.root[name].complete <==> name in s.root && s.root[name].complete)
            && (name in taken.root ==> name in s.root && taken.root[name] == s.root[name])
  {
    hide Photographed, Accepts;
    RestorableRoots(s, lit, name, safety, w);
    if name in s.root && s.root[name].complete {
      TargetSurvivesSafety(s, lit, name, safety, w);
    }
  }

  lemma ReinstateIsSafe(linked: Instance, lit: Lit, current: Venv, safety: Stamp, w: RollbackWeather)
    requires linked.link == current && Below(linked, lit, lit(current)) && NeverForbidden(linked, lit)
    requires safety in linked.root && Readable(linked.root[safety].db, lit(current))
    ensures NeverForbidden(Reinstate(linked, lit, current, safety, w).0, lit)
  {
    hide Launch, Repose, PutBack, PutBackWhole;
    var put := PutBack(linked, lit, safety, w.restoreBack);
    PutBackKeeps(linked, lit, safety, w.restoreBack, lit(current));
    LaunchKeeps(put, lit, w.startBack, lit(current));
    ReposeKeeps(Launch(put, lit, w.startBack), lit, current, w.mapsBack, lit(current));
  }

  /** FORBIDDEN STATE, rollback. Toward a target that reads its snapshot and no further than the
      current binary, every start is on data the linked binary reads, with one exception: a first
      `stop` that fails while the process alive migrates what has just been restored. */
  lemma RollbackNeverServesForbidden(s: Instance, lit: Lit, target: Venv, name: Stamp, safety: Stamp,
                                     w: RollbackWeather)
    requires Steady(s, lit) && NeverForbidden(s, lit)
    requires safety !in s.root && name != safety && FitTarget(s, lit, target, name)
    ensures NeverForbidden(Rollback(s, lit, target, name, safety, w).0, lit) <==>
              !(Crossed(s, lit, target, name, w) && Overtaken(s, lit, target, w))
  {
    hide Stop, Photographed, Launch, Cross, Work, AfterCreate, Accepts, Guard;
    var top := lit(s.link);
    WorkKeeps(s, lit, w.early, top);
    StopKeeps(s, lit, w.stop, top);
    var taken := Photographed(s, lit, safety, w.stop, w.take);
    PhotographedKeeps(s, lit, safety, w.stop, w.take, top);
    LaunchKeeps(taken, lit, w.relaunch, top);
    if Accepts(s.root, name) && Took(w.take) {
      TargetAfterSafety(s, lit, name, safety, w);
      GuardNeedsComplete(s, lit, target, name, w.restore);
      if name in taken.root && taken.root[name].complete {
        CrossIsSafe(taken.(link := target), lit, s.link, target, name, safety, w);
      }
    }
  }

  lemma GuardNeedsComplete(s: Instance, lit: Lit, target: Venv, name: Stamp, w: RestoreStep)
    ensures name in s.root && Guard(s.root[name], target, lit, w) ==> s.root[name].complete
  {
  }

  lemma CrossIsSafe(linked: Instance, lit: Lit, current: Venv, target: Venv, name: Stamp, safety: Stamp,
                    w: RollbackWeather)
    requires linked.link == target && Below(linked, lit, lit(current)) && NeverForbidden(linked, lit)
    requires lit(target) <= lit(current)
    requires name in linked.root && Readable(linked.root[name].db, lit(target))
    requires safety in linked.root && Readable(linked.root[safety].db, lit(current))
    ensures NeverForbidden(Cross(linked, lit, current, target, name, safety, w).0, lit) <==>
              !(w.halt != Restoring && w.halt != Starting
                && Guard(linked.root[name], target, lit, w.restore) && w.restore.fault == Whole
                && linked.running.Some? && w.restore.work.Some? && lit(linked.running.value) > lit(target))
  {
    hide Launch, Repose, PutBack, Stop, Reinstate, Guard;
    var put := PutBack(linked, lit, name, w.restore);
    PutBackKeeps(linked, lit, name, w.restore, lit(current));
    if PutBackWhole(linked, lit, name, w.restore) {
      RestoredReadable(linked, lit, name, w.restore, target);
      AfterCrossing(put, lit, current, target, safety, w);
    } else {
      LaunchKeeps(put.(link := current), lit, w.startForward, lit(current));
    }
  }

  /** Restored for `target`, the data stay readable by it unless a later binary is still at work. */
  lemma RestoredReadable(linked: Instance, lit: Lit, name: Stamp, w: RestoreStep, target: Venv)
    requires PutBackWhole(linked, lit, name, w) && Readable(linked.root[name].db, lit(target))
    ensures Readable(PutBack(linked, lit, name, w).data, lit(target)) <==>
              !(linked.running.Some? && w.work.Some? && lit(linked.running.value) > lit(target)
                && (linked.root[name].db.Some? ==> Readable(linked.root[name].db, lit(linked.running.value))))
  {
  }

  lemma AfterCrossing(put: Instance, lit: Lit, current: Venv, target: Venv, safety: Stamp, w: RollbackWeather)
    requires Below(put, lit, lit(current)) && NeverForbidden(put, lit) && lit(target) <= lit(current)
    requires put.link == target
    requires safety in put.root && Readable(put.root[safety].db, lit(current))
    ensures var launched := Launch(put, lit, w.start);
            var up := Repose(launched, lit, target, w.maps);
            var down := Stop(up, lit, w.stopBack);
            (NeverForbidden(launched, lit) <==> Readable(put.data, lit(target)))
            && (NeverForbidden(up, lit) <==> Readable(put.data, lit(target)))
            && (NeverForbidden(down, lit) <==> Readable(put.data, lit(target)))
            && (NeverForbidden(Reinstate(down.(link := current), lit, current, safety, w).0, lit)
                <==> Readable(put.data, lit(target)))
  {
    hide Stop, Launch, Repose, Reinstate;
    LaunchKeeps(put, lit, w.start, lit(current));
    var launched := Launch(put, lit, w.start);
    ReposeKeeps(launched, lit, target, w.maps, lit(current));
    var up := Repose(launched, lit, target, w.maps);
    StopKeeps(up, lit, w.stopBack, lit(current));
    var linked := Stop(up, lit, w.stopBack).(link := current);
    ReinstateKeeps(linked, lit, current, safety, w);
    if Readable(put.data, lit(target)) {
      ReinstateIsSafe(linked, lit, current, safety, w);
    } else {
      assert Start(target, put.data) in linked.starts;
    }
  }

  lemma ReinstateKeeps(linked: Instance, lit: Lit, current: Venv, safety: Stamp, w: RollbackWeather)
    requires linked.link == current
    ensures var (s, report) := Reinstate(linked, lit, current, safety, w);
            s.link == current && s.root == linked.root && linked.starts <= s.starts
            && (report == UNEXPECTED || report.run == Verdict(Some(current), None, Some(safety))) && report.rc != 0
  {
    hide Launch, Repose, PutBack, PutBackWhole;
    var put := PutBack(linked, lit, safety, w.restoreBack);
    PutBackKeeps(linked, lit, safety, w.restoreBack, 0);
    LaunchKeeps(put, lit, w.startBack, 0);
    ReposeKeeps(Launch(put, lit, w.startBack), lit, current, w.mapsBack, 0);
  }
}
