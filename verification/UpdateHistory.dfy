/** The life of an instance: updates, rollbacks and service, one after the other, whatever fails. */
module UpdateHistory {
  import opened Prelude
  import opened Stamps
  import opened Retention
  import opened RollbackTargets
  import opened UpdateEngine
  import opened UpdateRest
  import opened UpdateSafety
  import opened UpdateUndo

  datatype Gesture =
    | Update(blue: Venv, stamp: Stamp, aw: ApplyWeather)
    | Back(target: Venv, name: Stamp, safety: Stamp, rw: RollbackWeather)
    | Serve(rows: Option<seq<int>>)

  function Made(s: Instance, lit: Lit, g: Gesture): Instance {
    match g
    case Update(blue, stamp, w) => Apply(s, lit, blue, stamp, w).0
    case Back(target, name, safety, w) => Rollback(s, lit, target, name, safety, w).0
    case Serve(rows) => Work(s, lit, rows)
  }

  /** The linked binary reads the data, no process alive could migrate them further, and no start of the
      service ever was on data its binary does not read. */
  ghost predicate Sound(s: Instance, lit: Lit) {
    Steady(s, lit) && NeverForbidden(s, lit)
  }

  /** What is asked of a gesture: a fresh name, and, of a rollback, a target that reads its snapshot and no
      further than the current binary. A wheel may read less than the data; if it reads them, it reads as
      far as the process alive. */
  ghost predicate WellAsked(s: Instance, lit: Lit, g: Gesture) {
    match g
    case Update(blue, stamp, w) => stamp !in s.root && (Readable(s.data, lit(blue)) ==> Below(s, lit, lit(blue)))
    case Back(target, name, safety, w) => safety !in s.root && name != safety && FitTarget(s, lit, target, name)
    case Serve(_) => true
  }

  /** The link reaches the new venv. */
  predicate Linked(w: ApplyWeather) {
    w.built && Took(w.take) && w.halt !in {Building, Stopping, Taking, Swapping}
  }

  /** The weathers that do harm. Nothing else does, whatever fails and whatever exception escapes. */
  ghost predicate Harmful(s: Instance, lit: Lit, g: Gesture) {
    match g
    case Update(blue, stamp, w) => if Readable(s.data, lit(blue)) then Astray(s, lit, blue, w) else Linked(w)
    case Back(target, name, safety, w) =>
      (Crossed(s, lit, target, name, w) && Overtaken(s, lit, target, w)) || Adrift(s, lit, target, name, w)
    case Serve(_) => false
  }

  function Lived(s: Instance, lit: Lit, gestures: seq<Gesture>): Instance {
    if gestures == [] then s
    else Made(Lived(s, lit, gestures[..|gestures| - 1]), lit, gestures[|gestures| - 1])
  }

  lemma LateGoesAstray(s: Instance, lit: Lit, blue: Venv, w: ApplyWeather)
    requires Retreated(s, lit, w) && Late(s, lit, blue, w)
    ensures Astray(s, lit, blue, w)
  {
    hide Guard, Took;
  }

  /** A wheel that does not read the data does harm as soon as it is linked. */
  lemma OlderWheelExactly(s: Instance, lit: Lit, blue: Venv, stamp: Stamp, w: ApplyWeather)
    requires Sound(s, lit) && stamp !in s.root && !Readable(s.data, lit(blue))
    ensures Sound(Apply(s, lit, blue, stamp, w).0, lit) <==> !Linked(w)
  {
    hide Stop, Photographed, Launch, Raise, Work, AfterCreate, Took, NeverForbidden;
    OlderWheelServesForbidden(s, lit, blue, stamp, w);
    var s1 := s.(venvs := s.venvs + {blue});
    WorkKeeps(s1, lit, w.early, lit(s.link));
    StopKeeps(s1, lit, w.stop, lit(s.link));
    var taken := Photographed(s1, lit, stamp, w.stop, w.take);
    PhotographedKeeps(s1, lit, stamp, w.stop, w.take, lit(s.link));
    PhotographedNeverGoesBack(s1, lit, stamp, w.stop, w.take);
    LaunchKeeps(taken, lit, w.relaunch, lit(s.link));
  }

  /** ONE GESTURE, exactly. */
  lemma GestureExactly(s: Instance, lit: Lit, g: Gesture)
    requires Sound(s, lit) && WellAsked(s, lit, g)
    ensures Sound(Made(s, lit, g), lit) <==> !Harmful(s, lit, g)
  {
    hide Apply, Rollback, Work, NeverForbidden, FitTarget, Guard, Took, Astray, Adrift, Crossed, Overtaken, Below;
    match g
    case Update(blue, stamp, w) =>
      if Readable(s.data, lit(blue)) {
        ApplyNeverServesForbidden(s, lit, blue, stamp, w);
        ApplySteadies(s, lit, blue, stamp, w);
        if Retreated(s, lit, w) && Late(s, lit, blue, w) {
          LateGoesAstray(s, lit, blue, w);
        }
      } else {
        OlderWheelExactly(s, lit, blue, stamp, w);
      }
    case Back(target, name, safety, w) =>
      RollbackNeverServesForbidden(s, lit, target, name, safety, w);
      RollbackSteadies(s, lit, target, name, safety, w);
    case Serve(rows) =>
      WorkKeeps(s, lit, rows, lit(s.link));
      ServingStartsNothing(s, lit, rows);
  }

  lemma ServingStartsNothing(s: Instance, lit: Lit, rows: Option<seq<int>>)
    requires NeverForbidden(s, lit)
    ensures NeverForbidden(Work(s, lit, rows), lit)
  {
  }

  ghost predicate AllWellAsked(s: Instance, lit: Lit, gestures: seq<Gesture>) {
    forall k :: 0 <= k < |gestures| ==> WellAsked(Lived(s, lit, gestures[..k]), lit, gestures[k])
  }

  ghost predicate NoneHarmful(s: Instance, lit: Lit, gestures: seq<Gesture>) {
    forall k :: 0 <= k < |gestures| ==> !Harmful(Lived(s, lit, gestures[..k]), lit, gestures[k])
  }

  ghost predicate AlwaysSound(s: Instance, lit: Lit, gestures: seq<Gesture>) {
    forall k :: 0 <= k <= |gestures| ==> Sound(Lived(s, lit, gestures[..k]), lit)
  }

  lemma LivedNext(s: Instance, lit: Lit, gestures: seq<Gesture>, k: nat)
    requires k < |gestures|
    ensures Lived(s, lit, gestures[..k+1]) == Made(Lived(s, lit, gestures[..k]), lit, gestures[k])
  {
    hide Made;
    assert gestures[..k+1][..k] == gestures[..k];
  }

  lemma {:induction false} HarmlessIsSound(s: Instance, lit: Lit, gestures: seq<Gesture>, k: nat)
    requires Sound(s, lit) && AllWellAsked(s, lit, gestures) && NoneHarmful(s, lit, gestures) && k <= |gestures|
    ensures Sound(Lived(s, lit, gestures[..k]), lit)
  {
    hide Sound, Harmful, WellAsked, Made;
    if k > 0 {
      HarmlessIsSound(s, lit, gestures, k - 1);
      LivedNext(s, lit, gestures, k - 1);
      GestureExactly(Lived(s, lit, gestures[..k-1]), lit, gestures[k-1]);
    }
  }

  /** NEVER FORBIDDEN, over a whole life, exactly. Through any number of updates, rollbacks and hours of
      service -- refused, reverted, half restored, with stops that fail and processes that outlive them, cut
      by an exception in any step -- the instance stays sound if and only if none of its gestures met one of
      the harmful weathers. */
  lemma LifeIsNeverForbidden(s: Instance, lit: Lit, gestures: seq<Gesture>)
    requires Sound(s, lit) && AllWellAsked(s, lit, gestures)
    ensures AlwaysSound(s, lit, gestures) <==> NoneHarmful(s, lit, gestures)
  {
    hide Sound, Harmful, WellAsked, Made, Lived;
    if NoneHarmful(s, lit, gestures) {
      forall k | 0 <= k <= |gestures| ensures Sound(Lived(s, lit, gestures[..k]), lit) {
        HarmlessIsSound(s, lit, gestures, k);
      }
    }
    if AlwaysSound(s, lit, gestures) {
      forall k | 0 <= k < |gestures| ensures !Harmful(Lived(s, lit, gestures[..k]), lit, gestures[k]) {
        LivedNext(s, lit, gestures, k);
        GestureExactly(Lived(s, lit, gestures[..k]), lit, gestures[k]);
      }
    }
  }

  /** With stops that are obeyed, and no exception between the two halves, no gesture toward a binary that
      reads the data does harm. */
  lemma ObeyedIsHarmless(s: Instance, lit: Lit, g: Gesture)
    requires match g
             case Update(blue, _, w) =>
               Readable(s.data, lit(blue)) && w.stop.ok && w.stopBack.ok && w.halt !in {Restoring, SwappingForward}
             case Back(_, _, _, w) => w.stop.ok && w.stopBack.ok && w.halt !in {Restoring, SwappingForward}
             case Serve(_) => true
    ensures !Harmful(s, lit, g)
  {
    hide Guard, Took, Accepts;
  }

  /** The resolution only offers rollbacks of this kind: whatever target it accepts, on truthful probes, is
      one the theorem above covers. */
  lemma AcceptedTargetIsAdmissible(s: Instance, lit: Lit, disk: Disk, runs: seq<Run>, name: Stamp, safety: Stamp,
                                   w: RollbackWeather)
    requires name in s.root && Truthful(disk, lit) && s.link in disk.probe
    requires Judged(s.root, name, disk, runs, s.link).Ok?
    requires forall d :: d in s.root ==> d < safety  // dated names only grow
    ensures WellAsked(s, lit, Back(Judged(s.root, name, disk, runs, s.link).value, name, safety, w))
  {
    hide Judged, FitTarget;
    AcceptedTargetIsFit(s, lit, disk, runs, name);
  }
}
