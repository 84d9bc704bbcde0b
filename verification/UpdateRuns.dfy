/** The launcher's side of updates (`update.py`): the runs on disk, the guard against two of them at
    once, and the retention of the wheels they name. */
module UpdateRuns {
  import opened Prelude
  import opened Stamps

  type Path = nat

  const MAX_RUNS: nat := 50
  const KEEP_WHEELS: nat := 3

  /** A run directory: the wheel its intention names, if it is an `apply`; whether its transient unit is
      active; whether a log was ever written; whether the verdict is there. */
  datatype Run = Run(wheel: Option<Path>, active: bool, logged: bool, verdict: bool)

  /** `runs` under `<home>/updates`, `depot` under `<home>/wheels`, both by dated name. */
  datatype Yard = Yard(runs: map<Stamp, Run>, depot: map<Stamp, Path>)

  datatype RunState = Concluded | Alive | Interrupted | NeverStarted | Unknown

  /** `run_state`: the verdict first, then the probe -- `None` when nobody asks -- then the logs. */
  function StateOf(r: Run, probe: Option<bool>): RunState {
    if r.verdict then Concluded
    else if probe.None? then Unknown
    else if probe.value then Alive
    else if r.logged then Interrupted
    else NeverStarted
  }

  predicate InFlight(r: Run) {
    r.active && !r.verdict
  }

  // --- the guard -------------------------------------------------------------------------------------

  /** The newest-first scan: concluded and never-started runs are looked behind, any other stops it. */
  function Survey(listing: seq<Stamp>, runs: map<Stamp, Run>, probe: Stamp -> bool): Option<Stamp>
    requires forall s :: s in listing ==> s in runs
  {
    if listing == [] then None
    else
      match StateOf(runs[listing[0]], Some(probe(listing[0])))
      case Concluded => Survey(listing[1..], runs, probe)
      case NeverStarted => Survey(listing[1..], runs, probe)
      case Alive => Some(listing[0])
      case _ => None
  }

  /** `survey_updates_in_flight`. */
  method SurveyUpdatesInFlight(runs: map<Stamp, Run>, probe: Stamp -> bool) returns (found: Option<Stamp>)
    ensures found == Survey(NewestFirst(runs.Keys), runs, probe)
  {
    hide NewestFirst;
    var listing := NewestFirst(runs.Keys);
    for i := 0 to |listing|
      invariant Survey(listing, runs, probe) == Survey(listing[i..], runs, probe)
    {
      assert listing[i..][0] == listing[i] && listing[i..][1..] == listing[i+1..] && listing[i] in listing;
      var r := runs[listing[i]];
      if r.verdict {
        continue;
      }
      var state := StateOf(r, Some(probe(listing[i])));
      if state == Alive {
        return Some(listing[i]);
      }
      if state != NeverStarted {
        return None;
      }
    }
    return None;
  }

  /** A run the scan looks behind. */
  predicate LookedBehind(runs: map<Stamp, Run>, probe: Stamp -> bool, s: Stamp)
    requires s in runs
  {
    var state := StateOf(runs[s], Some(probe(s)));
    state == Concluded || state == NeverStarted
  }

  /** What the early stop finds: a live run, if and only if no newer run that HAS LIVED hides it. */
  lemma {:induction false} SurveyExactly(listing: seq<Stamp>, runs: map<Stamp, Run>, probe: Stamp -> bool, i: nat)
    requires Descending(listing) && forall s :: s in listing ==> s in runs
    requires i < |listing| && StateOf(runs[listing[i]], Some(probe(listing[i]))) == Alive
    ensures Survey(listing, runs, probe) == Some(listing[i]) <==>
              forall k :: 0 <= k < i ==> LookedBehind(runs, probe, listing[k])
  {
    hide StateOf;
    if i > 0 {
      var rest := listing[1..];
      assert rest[i - 1] == listing[i] && listing[0] in listing;
      SurveyExactly(rest, runs, probe, i - 1);
      assert forall k :: 0 <= k < i - 1 ==> rest[k] == listing[k + 1];
      assert forall k :: 1 <= k < i ==> listing[k] == rest[k - 1];
    }
  }

  lemma {:induction false} SurveyFindsMembers(listing: seq<Stamp>, runs: map<Stamp, Run>, probe: Stamp -> bool)
    requires forall s :: s in listing ==> s in runs
    ensures Survey(listing, runs, probe).Some? ==>
              var s := Survey(listing, runs, probe).value;
              s in listing && StateOf(runs[s], Some(probe(s))) == Alive
    ensures (forall s :: s in listing ==> StateOf(runs[s], Some(probe(s))) != Alive) ==>
              Survey(listing, runs, probe).None?
  {
    if listing != [] {
      assert listing[0] in listing;
      SurveyFindsMembers(listing[1..], runs, probe);
    }
  }

  // --- the wheels ------------------------------------------------------------------------------------------

  /** The `MAX_RUNS` newest runs: those a retention looks at. */
  predicate Recent(runs: map<Stamp, Run>, s: Stamp) {
    s in runs && |Newer(runs.Keys, s)| < MAX_RUNS
  }

  /** `wheels_in_use`: named by a recent run that has no verdict. */
  predicate Used(runs: map<Stamp, Run>, p: Path) {
    exists s :: s in runs && Recent(runs, s) && !runs[s].verdict && runs[s].wheel == Some(p)
  }

  predicate Newest(depot: map<Stamp, Path>, d: Stamp, keep: nat) {
    |Newer(depot.Keys, d)| < keep
  }

  /** What a retention leaves. */
  function Pruned(y: Yard, keep: nat): map<Stamp, Path> {
    map d | d in y.depot && (Newest(y.depot, d, keep) || Used(y.runs, y.depot[d])) :: y.depot[d]
  }

  /** `prune_wheels`: the deposits beyond the `keep` newest, except those in use. */
  method PruneWheels(y: Yard, keep: nat) returns (depot: map<Stamp, Path>, pruned: seq<Stamp>)
    ensures depot == Pruned(y, keep)
    ensures forall d :: d in pruned <==> d in y.depot && d !in depot
    ensures Descending(pruned)
  {
    DescendsFromNothing();
    hide NewestFirst, Used, Descending, Newer;
    var listing := NewestFirst(y.depot.Keys);
    RanksAreIndices(y.depot.Keys, listing);
    depot, pruned := y.depot, [];
    var first := if keep <= |listing| then keep else |listing|;
    for i := first to |listing|
      invariant Descending(pruned)
      invariant forall d :: d in depot <==> d in y.depot && d !in pruned
      invariant forall d :: d in depot ==> depot[d] == y.depot[d]
      invariant forall d :: d in pruned <==> exists k :: first <= k < i && listing[k] == d && !Used(y.runs, y.depot[d])
    {
      var d := listing[i];
      assert d in listing;
      if Used(y.runs, y.depot[d]) {
        continue;
      }
      DescendsFurther(listing, pruned, i);
      depot := depot - {d};
      pruned := pruned + [d];
    }
    PrunedByIndex(y, keep, listing, depot, pruned);
  }

  lemma DescendsFromNothing()
    ensures Descending([])
  {
  }

  lemma DescendsFurther(listing: seq<Stamp>, part: seq<Stamp>, i: nat)
    requires Descending(listing) && Descending(part) && i < |listing|
    requires forall d :: d in part ==> exists k :: 0 <= k < i && listing[k] == d
    ensures Descending(part + [listing[i]])
  {
    forall j | 0 <= j < |part| ensures part[j] > listing[i] {
      assert part[j] in part;
    }
  }

  lemma PrunedByIndex(y: Yard, keep: nat, listing: seq<Stamp>, depot: map<Stamp, Path>, pruned: seq<Stamp>)
    requires Descending(listing) && forall x :: x in listing <==> x in y.depot
    requires forall k :: 0 <= k < |listing| ==> |Newer(y.depot.Keys, listing[k])| == k
    requires forall d :: d in depot <==> d in y.depot && d !in pruned
    requires forall d :: d in depot ==> depot[d] == y.depot[d]
    requires forall d :: d in pruned <==>
               exists k :: keep <= k < |listing| && listing[k] == d && !Used(y.runs, y.depot[d])
    ensures depot == Pruned(y, keep)
  {
    hide Used, Newer;
    forall d | d in y.depot ensures d in depot <==> Newest(y.depot, d, keep) || Used(y.runs, y.depot[d]) {
      var k :| 0 <= k < |listing| && listing[k] == d;
    }
  }

  lemma RanksAreIndices(keys: set<Stamp>, listing: seq<Stamp>)
    requires Descending(listing) && forall x :: x in listing <==> x in keys
    ensures forall k :: 0 <= k < |listing| ==> |Newer(keys, listing[k])| == k
  {
    forall k | 0 <= k < |listing| ensures |Newer(keys, listing[k])| == k {
      RankIsIndex(listing, k);
      assert Newer(keys, listing[k]) == (set t | t in listing && t > listing[k]);
    }
  }

  // --- the history ---------------------------------------------------------------------------------------------

  datatype Event =
    | Spawn(at: Stamp, wheel: Option<Path>, started: bool)  // preflight and launch; `started`: the unit went active
    | Log(at: Stamp)       // the unit, or the applicator, writes its first log
    | Conclude(at: Stamp)  // the applicator writes its verdict
    | Stop(at: Stamp)      // the unit ends, with or without one
    | Stage(at: Stamp, path: Path)

  /** The probe of production, when the manager answers. */
  function Truth(runs: map<Stamp, Run>): Stamp -> bool {
    s => s in runs && runs[s].active
  }

  /** `spawn` alone: the run directory is created or the launch refused, and the intention is written
      before anyone knows whether the unit started. */
  function Started(y: Yard, at: Stamp, wheel: Option<Path>, started: bool): Yard {
    if at in y.runs then y else y.(runs := y.runs[at := Run(wheel, started, false, false)])
  }

  /** `preflight` then `spawn`, whatever the manager answers, when nothing comes between. */
  function Spawned(y: Yard, at: Stamp, wheel: Option<Path>, started: bool, probe: Stamp -> bool): Yard {
    if Survey(NewestFirst(y.runs.Keys), y.runs, probe).Some? then y else Started(y, at, wheel, started)
  }

  /** A unit whose registration was not awaited to the end, and that starts after all. */
  function Woken(y: Yard, at: Stamp): Yard {
    if at in y.runs then y.(runs := y.runs[at := y.runs[at].(active := true)]) else y
  }

  function Next(y: Yard, e: Event): Yard {
    match e
    case Spawn(at, wheel, started) => Spawned(y, at, wheel, started, Truth(y.runs))
    case Log(at) =>
      if at in y.runs && y.runs[at].active then y.(runs := y.runs[at := y.runs[at].(logged := true)]) else y
    case Conclude(at) =>
      if at in y.runs && y.runs[at].active then y.(runs := y.runs[at := y.runs[at].(verdict := true)]) else y
    case Stop(at) => if at in y.runs then y.(runs := y.runs[at := y.runs[at].(active := false)]) else y
    case Stage(at, path) =>
      if at in y.depot then y
      else y.(depot := Pruned(y.(depot := y.depot[at := path]), KEEP_WHEELS))
  }

  /** Dated names only grow. */
  ghost predicate Later(y: Yard, e: Event) {
    (e.Spawn? ==> forall s :: s in y.runs ==> s <= e.at) && (e.Stage? ==> forall d :: d in y.depot ==> d <= e.at)
  }

  function After(events: seq<Event>): Yard {
    if events == [] then Yard(map[], map[]) else Next(After(events[..|events| - 1]), events[|events| - 1])
  }

  ghost predicate Orderly(events: seq<Event>) {
    events == [] || (Orderly(events[..|events| - 1]) && Later(After(events[..|events| - 1]), events[|events| - 1]))
  }

  /** The run in flight, if there is one, is the newest of all. */
  ghost predicate OnlyTheNewestFlies(y: Yard) {
    forall s, t :: s in y.runs && t in y.runs && InFlight(y.runs[s]) ==> t <= s
  }

  /** In such a state the guard misses nothing: it names the run in flight if and only if there is one. */
  lemma GuardIsExact(y: Yard)
    requires OnlyTheNewestFlies(y)
    ensures var found := Survey(NewestFirst(y.runs.Keys), y.runs, Truth(y.runs));
            (found.Some? <==> exists s :: s in y.runs && InFlight(y.runs[s]))
            && (found.Some? ==> found.value in y.runs && InFlight(y.runs[found.value]))
  {
    hide NewestFirst, Survey;
    var listing := NewestFirst(y.runs.Keys);
    SurveyFindsMembers(listing, y.runs, Truth(y.runs));
    if s :| s in y.runs && InFlight(y.runs[s]) {
      assert s in listing && listing[0] in listing && listing[0] == s;
      SurveyExactly(listing, y.runs, Truth(y.runs), 0);
    }
  }

  lemma NextKeeps(y: Yard, e: Event)
    requires OnlyTheNewestFlies(y) && Later(y, e)
    ensures OnlyTheNewestFlies(Next(y, e))
  {
    hide NewestFirst, Survey, Pruned;
    GuardIsExact(y);
  }

  /** ONE UPDATE IN FLIGHT. Over any history of launches, failed launches, crashes, verdicts and deposits,
      at most one update is in flight, and the guard sees it. */
  lemma {:induction false} OneUpdateInFlight(events: seq<Event>)
    requires Orderly(events)
    ensures OnlyTheNewestFlies(After(events))
    ensures forall s, t :: (s in After(events).runs && t in After(events).runs
                            && InFlight(After(events).runs[s]) && InFlight(After(events).runs[t])) ==> s == t
    ensures Survey(NewestFirst(After(events).runs.Keys), After(events).runs, Truth(After(events).runs)).Some? <==>
              exists s :: s in After(events).runs && InFlight(After(events).runs[s])
  {
    if events != [] {
      OneUpdateInFlight(events[..|events| - 1]);
      NextKeeps(After(events[..|events| - 1]), events[|events| - 1]);
    }
    GuardIsExact(After(events));
  }

  /** ITS WHEEL IS SAFE. Whatever happens next, the deposit that the run in flight names is still there,
      and so are the newest ones. */
  lemma WheelInFlightIsKept(events: seq<Event>, e: Event, s: Stamp, d: Stamp)
    requires Orderly(events)
    requires s in After(events).runs && InFlight(After(events).runs[s]) && d in After(events).depot
    requires After(events).runs[s].wheel == Some(After(events).depot[d])
    ensures d in Next(After(events), e).depot && Next(After(events), e).depot[d] == After(events).depot[d]
  {
    hide Orderly, Next, After, Recent, OnlyTheNewestFlies, Survey, NewestFirst;
    OneUpdateInFlight(events);
    NewestRunIsRecent(After(events), s);
    assert Used(After(events).runs, After(events).depot[d]);
    UsedIsKept(After(events), e, d);
  }

  lemma UsedIsKept(y: Yard, e: Event, d: Stamp)
    requires d in y.depot && Used(y.runs, y.depot[d])
    ensures d in Next(y, e).depot && Next(y, e).depot[d] == y.depot[d]
  {
    hide Survey, NewestFirst, Used, Newest;
    if e.Stage? && e.at !in y.depot {
      var more := y.(depot := y.depot[e.at := e.path]);
      assert d in Pruned(more, KEEP_WHEELS);
    }
  }

  lemma NewestRunIsRecent(y: Yard, s: Stamp)
    requires OnlyTheNewestFlies(y) && s in y.runs && InFlight(y.runs[s])
    ensures Recent(y.runs, s)
  {
    assert Newer(y.runs.Keys, s) == {};
  }

  /** A deposit is never pruned by its own arrival, nor by that of the next `KEEP_WHEELS - 1`. */
  lemma StagedWheelIsKept(y: Yard, at: Stamp, path: Path)
    requires at !in y.depot && Later(y, Stage(at, path))
    ensures at in Next(y, Stage(at, path)).depot && Next(y, Stage(at, path)).depot[at] == path
    ensures forall d :: d in y.depot && Newest(y.depot, d, KEEP_WHEELS - 1) ==> d in Next(y, Stage(at, path)).depot
  {
    hide Used, Survey, NewestFirst, Newest;
    ArrivingIsNewest(y.depot, at, path);
    forall d | d in y.depot && Newest(y.depot, d, KEEP_WHEELS - 1) ensures d in Next(y, Stage(at, path)).depot {
      OneMoreDeposit(y.depot, at, path, d);
    }
  }

  lemma ArrivingIsNewest(depot: map<Stamp, Path>, at: Stamp, path: Path)
    requires forall d :: d in depot ==> d <= at
    ensures Newest(depot[at := path], at, KEEP_WHEELS)
  {
    assert Newer(depot[at := path].Keys, at) == {};
  }

  lemma OneMoreDeposit(depot: map<Stamp, Path>, at: Stamp, path: Path, d: Stamp)
    requires Newest(depot, d, KEEP_WHEELS - 1)
    ensures Newest(depot[at := path], d, KEEP_WHEELS)
  {
    var more := depot[at := path];
    assert Newer(more.Keys, d) <= Newer(depot.Keys, d) + {at};
    SubsetSize(Newer(more.Keys, d), Newer(depot.Keys, d) + {at});
  }

  /** THE GUARD UNDER ANY PROBE, exactly. While an update flies, the guard names it if and only if the
      probe says that its unit is active; and the next launch leaves a single update in flight if and only
      if the guard names one. */
  lemma ASecondUpdateExactly(y: Yard, s: Stamp, at: Stamp, wheel: Option<Path>, probe: Stamp -> bool)
    requires OnlyTheNewestFlies(y) && s in y.runs && InFlight(y.runs[s])
    requires at !in y.runs && forall t :: t in y.runs ==> t <= at  // dated names only grow
    ensures Survey(NewestFirst(y.runs.Keys), y.runs, probe) == Some(s) <==> probe(s)
    ensures OnlyTheNewestFlies(Spawned(y, at, wheel, true, probe)) <==>
              Survey(NewestFirst(y.runs.Keys), y.runs, probe).Some?
  {
    hide NewestFirst, Survey;
    var listing := NewestFirst(y.runs.Keys);
    SurveyFindsMembers(listing, y.runs, probe);
    assert listing[0] in listing && listing[0] == s;
    if probe(s) {
      SurveyExactly(listing, y.runs, probe, 0);
    }
    var z := Spawned(y, at, wheel, true, probe);
    assert s in z.runs && InFlight(z.runs[s]);
    if Survey(listing, y.runs, probe).None? {
      assert at in z.runs && s < at;
    }
  }

  /** So a manager that answers nothing lets a second update start beside the first. */
  lemma ASilentManagerHidesTheRun(y: Yard, s: Stamp, at: Stamp, wheel: Option<Path>)
    requires OnlyTheNewestFlies(y) && s in y.runs && InFlight(y.runs[s])
    requires at !in y.runs && forall t :: t in y.runs ==> t <= at
    ensures Survey(NewestFirst(y.runs.Keys), y.runs, t => false).None?
    ensures var z := Spawned(y, at, wheel, true, t => false);
            s != at && {s, at} <= z.runs.Keys && InFlight(z.runs[s]) && InFlight(z.runs[at])
  {
    hide NewestFirst, Survey;
    SurveyFindsMembers(NewestFirst(y.runs.Keys), y.runs, t => false);
  }

  // --- what comes between the guard and the unit ----------------------------------------------------------

  ghost predicate Idle(y: Yard) {
    forall s :: s in y.runs ==> !InFlight(y.runs[s])
  }

  lemma IdleIsSilent(y: Yard)
    requires Idle(y)
    ensures OnlyTheNewestFlies(y) && Survey(NewestFirst(y.runs.Keys), y.runs, Truth(y.runs)).None?
  {
    hide NewestFirst, Survey;
    GuardIsExact(y);
  }

  /** TWO STEPS, NOT ONE. Two gestures may both pass the guard before either has spawned. Then exactly one
      flies if and only if their names collide, to the second, and the collision touches nothing. */
  lemma TwoPreflightsExactly(y: Yard, a: Stamp, v: Option<Path>, b: Stamp, w: Option<Path>)
    requires Idle(y) && (forall s :: s in y.runs ==> s < a) && a <= b
    ensures Survey(NewestFirst(y.runs.Keys), y.runs, Truth(y.runs)).None?  // what both preflights saw
    ensures var z := Started(Started(y, a, v, true), b, w, true);
            (OnlyTheNewestFlies(z) <==> a == b)
            && (a == b ==> z == Started(y, a, v, true))
            && (a != b ==> InFlight(z.runs[a]) && InFlight(z.runs[b]))
  {
    hide NewestFirst, Survey;
    IdleIsSilent(y);
    var z := Started(Started(y, a, v, true), b, w, true);
    assert a in z.runs && b in z.runs;
  }

  /** A LATE UNIT. A launch reported as failed can still start: then a single update flies if and only if
      nothing has been launched since. */
  lemma ALateUnitExactly(y: Yard, at: Stamp)
    requires OnlyTheNewestFlies(y) && at in y.runs && !y.runs[at].verdict
    ensures OnlyTheNewestFlies(Woken(y, at)) <==> forall t :: t in y.runs ==> t <= at
  {
    var z := Woken(y, at);
    assert InFlight(z.runs[at]);
    if forall t :: t in y.runs ==> t <= at {
      assert forall s :: s in z.runs && InFlight(z.runs[s]) ==> s == at || InFlight(y.runs[s]);
    } else {
      var t :| t in y.runs && at < t;
      assert t in z.runs;
    }
  }

  // --- the gestures of the launcher -----------------------------------------------------------------------

  /** What the preflight of an update asks; that of a rollback asks no wheel, and a target at the end. */
  datatype Check =
    | WheelThere | WheelNamed                                        // a file, of that suffix
    | Runner | Rightful | UnitThere | UnitLegible | Linked | ThroughLink  // the service
    | Committed | NoJob | NoUpdate                                   // nothing to lose
    | Target

  const WHEEL: seq<Check> := [WheelThere, WheelNamed]
  const SERVICE: seq<Check> := [Runner, Rightful, UnitThere, UnitLegible, Linked, ThroughLink]
  const QUIET: seq<Check> := [Committed, NoJob, NoUpdate]

  function Checks(forward: bool): seq<Check> {
    if forward then WHEEL + (SERVICE + QUIET) else SERVICE + (QUIET + [Target])
  }

  /** The first check of a list that finds something amiss. */
  ghost predicate FirstAmiss(checks: seq<Check>, amiss: set<Check>, refusal: Option<Check>) {
    if refusal.None? then forall k :: 0 <= k < |checks| ==> checks[k] !in amiss
    else exists k :: 0 <= k < |checks| && checks[k] == refusal.value && refusal.value in amiss
                     && forall j :: 0 <= j < k ==> checks[j] !in amiss
  }

  lemma OneAfterTheOther(
      first: seq<Check>, second: seq<Check>, amiss: set<Check>, r: Option<Check>, q: Option<Check>)
    requires FirstAmiss(first, amiss, r) && (r.None? ==> FirstAmiss(second, amiss, q))
    ensures FirstAmiss(first + second, amiss, if r.Some? then r else q)
  {
    var all := first + second;
    if r.Some? {
      var k :| 0 <= k < |first| && first[k] == r.value && r.value in amiss
               && forall j :: 0 <= j < k ==> first[j] !in amiss;
      assert all[k] == r.value && forall j :: 0 <= j < k ==> all[j] == first[j];
    } else if q.Some? {
      var k :| 0 <= k < |second| && second[k] == q.value && q.value in amiss
               && forall j :: 0 <= j < k ==> second[j] !in amiss;
      assert all[|first| + k] == q.value;
    }
  }

  /** There is a refusal if and only if some check finds something amiss. */
  lemma RefusedExactly(checks: seq<Check>, amiss: set<Check>, refusal: Option<Check>)
    requires FirstAmiss(checks, amiss, refusal)
    ensures refusal.Some? <==> exists c :: c in checks && c in amiss
    ensures refusal.Some? ==> refusal.value in checks && refusal.value in amiss
  {
  }

  /** Both gestures ask about the update in flight, and the rollback alone about its target. */
  lemma BothAskAboutUpdates(forward: bool)
    ensures NoUpdate in Checks(forward) && (Target in Checks(forward) <==> !forward)
  {
    assert QUIET[2] == NoUpdate && [Target][0] == Target;
  }

  lemma Alone(c: Check, amiss: set<Check>)
    ensures FirstAmiss([c], amiss, if c in amiss then Some(c) else None)
  {
    assert [c][0] == c;
  }

  // --- each notion, spelled out -------------------------------------------------------------------------

  /** The five states: a verdict decides; without one, the probe, if anyone asks; and of a dead unit, its
      log. A run is in flight exactly when it is alive. */
  lemma StatesExactly(r: Run, probe: Option<bool>)
    ensures StateOf(r, probe) == Concluded <==> r.verdict
    ensures StateOf(r, probe) == Unknown <==> !r.verdict && probe == None
    ensures StateOf(r, probe) == Alive <==> !r.verdict && probe == Some(true)
    ensures StateOf(r, probe) == Interrupted <==> !r.verdict && probe == Some(false) && r.logged
    ensures StateOf(r, probe) == NeverStarted <==> !r.verdict && probe == Some(false) && !r.logged
    ensures InFlight(r) <==> StateOf(r, Some(r.active)) == Alive
  {
  }

  /** What one event does to one run: a launch names its wheel, without log nor verdict; a log and a verdict
      only come from a live unit; and nothing else of the run, or of another, moves. */
  lemma EventsExactly(y: Yard, e: Event, s: Stamp)
    ensures s in y.runs ==>
              s in Next(y, e).runs
              && Next(y, e).runs[s] == if e == Log(s) && y.runs[s].active then y.runs[s].(logged := true)
                                       else if e == Conclude(s) && y.runs[s].active then y.runs[s].(verdict := true)
                                       else if e == Stop(s) then y.runs[s].(active := false)
                                       else y.runs[s]
    ensures s !in y.runs && s in Next(y, e).runs ==>
              e.Spawn? && e.at == s && Next(y, e).runs[s].wheel == e.wheel && Next(y, e).runs[s].active == e.started
              && !Next(y, e).runs[s].logged && !Next(y, e).runs[s].verdict
    ensures e.Spawn? && s == e.at && s !in y.runs && OnlyTheNewestFlies(y) ==>
              (s in Next(y, e).runs <==> forall t :: t in y.runs ==> !InFlight(y.runs[t]))
    ensures !e.Stage? ==> Next(y, e).depot == y.depot
  {
    hide NewestFirst, Survey, Pruned, InFlight;
    if OnlyTheNewestFlies(y) {
      GuardIsExact(y);
    }
  }

  /** THE RETENTION OF WHEELS, from the yard alone: a deposit stays if and only if fewer than `keep` are more
      recent, or one of the fifty newest runs names it and has no verdict. */
  lemma PrunedExactly(y: Yard, keep: nat, d: Stamp)
    requires d in y.depot
    ensures MAX_RUNS == 50 && KEEP_WHEELS == 3
    ensures d in Pruned(y, keep) <==>
              |set x | x in y.depot && x > d| < keep
              || exists s :: s in y.runs && |set x | x in y.runs && x > s| < 50 && !y.runs[s].verdict
                             && y.runs[s].wheel == Some(y.depot[d])
    ensures d in Pruned(y, keep) ==> Pruned(y, keep)[d] == y.depot[d]
  {
    assert Newer(y.depot.Keys, d) == set x | x in y.depot && x > d;
    forall s ensures Recent(y.runs, s) <==> s in y.runs && |set x | x in y.runs && x > s| < 50 {
      assert Newer(y.runs.Keys, s) == set x | x in y.runs && x > s;
    }
  }

  /** The order in which each gesture asks. */
  lemma ChecksInOrder()
    ensures Checks(true) == [WheelThere, WheelNamed, Runner, Rightful, UnitThere, UnitLegible, Linked, ThroughLink,
                             Committed, NoJob, NoUpdate]
    ensures Checks(false) == [Runner, Rightful, UnitThere, UnitLegible, Linked, ThroughLink, Committed, NoJob, NoUpdate,
                              Target]
  {
  }

  datatype Launched = Collision | NotStarted | Registered | Refused(check: Check)

  class UpdateArea {
    var yard: Yard

    constructor ()
      ensures yard == Yard(map[], map[])
    {
      yard := Yard(map[], map[]);
    }

    /** `_preflight_service`, shared by both gestures. */
    method PreflightService(amiss: set<Check>) returns (refusal: Option<Check>)
      ensures FirstAmiss(SERVICE, amiss, refusal)
    {
      if Runner in amiss { return Some(SERVICE[0]); }
      if Rightful in amiss { return Some(SERVICE[1]); }
      if UnitThere in amiss { return Some(SERVICE[2]); }
      if UnitLegible in amiss { return Some(SERVICE[3]); }
      if Linked in amiss { return Some(SERVICE[4]); }
      if ThroughLink in amiss { return Some(SERVICE[5]); }
      return None;
    }

    /** The suffix and the presence of the wheel. */
    method PreflightWheel(amiss: set<Check>) returns (refusal: Option<Check>)
      ensures FirstAmiss(WHEEL, amiss, refusal)
    {
      if WheelThere in amiss { return Some(WHEEL[0]); }
      if WheelNamed in amiss { return Some(WHEEL[1]); }
      return None;
    }

    /** The three refusals to interrupt: work not committed, a job in flight, an update in flight. */
    method PreflightQuiet(amiss: set<Check>) returns (refusal: Option<Check>)
      ensures FirstAmiss(QUIET, amiss, refusal)
    {
      if Committed in amiss { return Some(QUIET[0]); }
      if NoJob in amiss { return Some(QUIET[1]); }
      if NoUpdate in amiss { return Some(QUIET[2]); }
      return None;
    }

    /** `preflight` and `preflight_rollback`: nothing is written, and the refusal is the first in the order
        of the gesture. `found`: what is amiss apart from an update in flight, which is surveyed. */
    method Preflight(forward: bool, found: set<Check>, probe: Stamp -> bool) returns (refusal: Option<Check>)
      ensures var busy := Survey(NewestFirst(yard.runs.Keys), yard.runs, probe);
              FirstAmiss(Checks(forward), if busy.Some? then found + {NoUpdate} else found - {NoUpdate}, refusal)
    {
      hide NewestFirst, Survey, FirstAmiss;
      var busy := SurveyUpdatesInFlight(yard.runs, probe);
      var amiss := if busy.Some? then found + {NoUpdate} else found - {NoUpdate};
      if forward {
        var wheel := PreflightWheel(amiss);
        if wheel.Some? {
          OneAfterTheOther(WHEEL, SERVICE + QUIET, amiss, wheel, None);
          return wheel;
        }
        var service := PreflightService(amiss);
        var quiet: Option<Check> := None;
        if service.None? {
          quiet := PreflightQuiet(amiss);
        }
        OneAfterTheOther(SERVICE, QUIET, amiss, service, quiet);
        refusal := if service.Some? then service else quiet;
        OneAfterTheOther(WHEEL, SERVICE + QUIET, amiss, wheel, refusal);
      } else {
        var service := PreflightService(amiss);
        if service.Some? {
          OneAfterTheOther(SERVICE, QUIET + [Target], amiss, service, None);
          return service;
        }
        var quiet := PreflightQuiet(amiss);
        refusal := if quiet.Some? then quiet else if Target in amiss then Some(Target) else None;
        assert quiet.None? ==> FirstAmiss([Target], amiss, refusal) by { Alone(Target, amiss); }
        OneAfterTheOther(QUIET, [Target], amiss, quiet, refusal);
        OneAfterTheOther(SERVICE, QUIET + [Target], amiss, service, refusal);
      }
    }

    /** `spawn`: the name of the run is taken first, and a collision touches nothing; the intention is
        there whether the unit started or not. */
    method Spawn(at: Stamp, wheel: Option<Path>, started: bool) returns (launched: Launched)
      modifies this
      ensures yard == Started(old(yard), at, wheel, started) && at in yard.runs
      ensures launched == Collision <==> at in old(yard.runs)
      ensures launched == Registered <==> at !in old(yard.runs) && InFlight(yard.runs[at])
      ensures launched == NotStarted <==> at !in old(yard.runs) && !InFlight(yard.runs[at])
      ensures !launched.Refused?
    {
      if at in yard.runs {
        return Collision;
      }
      yard := yard.(runs := yard.runs[at := Run(wheel, started, false, false)]);
      launched := if started then Registered else NotStarted;
    }

    /** A gesture whose preflight and spawn nobody comes between. */
    method Launch(at: Stamp, wheel: Option<Path>, found: set<Check>, started: bool, probe: Stamp -> bool)
      returns (launched: Launched)
      modifies this
      ensures launched.Refused? <==>
                Survey(NewestFirst(old(yard.runs.Keys)), old(yard.runs), probe).Some?
                || exists c :: c in Checks(wheel.Some?) && c in found - {NoUpdate}
      ensures launched.Refused? ==>
                var busy := Survey(NewestFirst(old(yard.runs.Keys)), old(yard.runs), probe);
                FirstAmiss(Checks(wheel.Some?), if busy.Some? then found + {NoUpdate} else found - {NoUpdate},
                           Some(launched.check))
      ensures yard == if launched.Refused? then old(yard) else Spawned(old(yard), at, wheel, started, probe)
      ensures launched == Registered ==> at !in old(yard.runs) && at in yard.runs && InFlight(yard.runs[at])
    {
      hide NewestFirst, Survey;
      hide FirstAmiss, Checks;
      var refusal := Preflight(wheel.Some?, found, probe);
      ghost var busy := Survey(NewestFirst(yard.runs.Keys), yard.runs, probe);
      RefusedExactly(Checks(wheel.Some?), if busy.Some? then found + {NoUpdate} else found - {NoUpdate}, refusal);
      BothAskAboutUpdates(wheel.Some?);
      if refusal.Some? {
        return Refused(refusal.value);
      }
      launched := Spawn(at, wheel, started);
    }

    /** `stage_wheel`: a deposit that has arrived whole, then the retention. */
    method StageWheel(at: Stamp, path: Path) returns (pruned: Option<seq<Stamp>>)
      modifies this
      ensures yard == Next(old(yard), Stage(at, path))
      ensures pruned.None? <==> at in old(yard.depot)
    {
      hide NewestFirst, Survey;
      if at in yard.depot {
        return None;
      }
      yard := yard.(depot := yard.depot[at := path]);
      var depot, gone := PruneWheels(yard, KEEP_WHEELS);
      yard := yard.(depot := depot);
      pruned := Some(gone);
    }
  }
}
