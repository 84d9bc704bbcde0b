/** `run_project` itself (`dispatch/orchestrator.py`): the loop over the board, the finalisation of
    the features whose work is done, and the accounting it reports. */
module DrainRun {
  import opened Prelude
  import opened Alerts
  import opened DrainBoard
  import opened Stamps
  import Headless

  // --- where each feature ends -----------------------------------------------------------------------

  datatype Place = Drained | AtInterview | AtSocle | AtRateLimit | CutOff | Broken | Blocked

  function PlaceOf(l: Ledger, drained: set<Slug>, s: Slug): Place {
    if s in l.failed then Broken
    else if s in l.interview then AtInterview
    else if s in l.rate then AtRateLimit
    else if s in l.interrupted then CutOff
    else if s in l.socle then AtSocle
    else if s in drained then Drained
    else Blocked
  }

  predicate Live(features: Roadmap, s: Slug) {
    s in features && !features[s].inert
  }

  function LiveOnes(order: seq<Slug>, features: Roadmap): seq<Slug> {
    if order == [] then []
    else LiveOnes(order[..|order| - 1], features)
         + if Live(features, order[|order| - 1]) then [order[|order| - 1]] else []
  }

  function Bucket(order: seq<Slug>, features: Roadmap, l: Ledger, drained: set<Slug>, p: Place): seq<Slug> {
    if order == [] then []
    else
      var s := order[|order| - 1];
      Bucket(order[..|order| - 1], features, l, drained, p)
      + if Live(features, s) && PlaceOf(l, drained, s) == p then [s] else []
  }

  type Places = map<Place, seq<Slug>>

  /** `_dispositions`. */
  method Dispositions(order: seq<Slug>, features: Roadmap, l: Ledger, drained: set<Slug>) returns (places: Places)
    ensures forall p :: p in places && places[p] == Bucket(order, features, l, drained, p)
  {
    places := map[Drained := [], AtInterview := [], AtSocle := [], AtRateLimit := [], CutOff := [],
                  Broken := [], Blocked := []];
    forall p: Place ensures p in places && places[p] == [] {
      match p
      case Drained | AtInterview | AtSocle | AtRateLimit =>
      case CutOff | Broken | Blocked =>
    }
    for i := 0 to |order|
      invariant forall p :: p in places && places[p] == Bucket(order[..i], features, l, drained, p)
    {
      var s := order[i];
      assert order[..i+1][..i] == order[..i];
      if !Live(features, s) {
        continue;
      }
      var p := PlaceOf(l, drained, s);
      places := places[p := places[p] + [s]];
    }
    assert order[..|order|] == order;
  }

  function Size(order: seq<Slug>, features: Roadmap, l: Ledger, drained: set<Slug>, p: Place): nat {
    |Bucket(order, features, l, drained, p)|
  }

  /** EXACT ACCOUNTING: every feature still in play is in one place and one only, so the counts of the
      places add up to their number. */
  lemma {:induction false} PlacesPartition(order: seq<Slug>, features: Roadmap, l: Ledger, drained: set<Slug>)
    ensures Size(order, features, l, drained, Drained) + Size(order, features, l, drained, AtInterview)
            + Size(order, features, l, drained, AtSocle) + Size(order, features, l, drained, AtRateLimit)
            + Size(order, features, l, drained, CutOff) + Size(order, features, l, drained, Broken)
            + Size(order, features, l, drained, Blocked) == |LiveOnes(order, features)|
  {
    if order != [] {
      PlacesPartition(order[..|order| - 1], features, l, drained);
    }
  }

  lemma {:induction false} BucketHolds(order: seq<Slug>, features: Roadmap, l: Ledger, drained: set<Slug>, p: Place,
                                       s: Slug)
    ensures s in Bucket(order, features, l, drained, p) <==>
              s in order && Live(features, s) && PlaceOf(l, drained, s) == p
  {
    if order != [] {
      BucketHolds(order[..|order| - 1], features, l, drained, p, s);
      assert order == order[..|order| - 1] + [order[|order| - 1]];
    }
  }

  // --- alerts -------------------------------------------------------------------------------------------

  predicate Actionable(r: Report) {
    Single(r) && (r.needsRedrain ==> Failed(r))
  }

  lemma ReportsAreActionable(s: Slug, o: Outcome)
    requires Contract(o)
    ensures Actionable(ReportOf(s, o))
  {
  }

  /** A report is filed in the ledger and announced under the SAME motive. */
  lemma MotivesFollowTheLedger(project: nat, l: Ledger, r: Report)
    requires Actionable(r)
    ensures Motives(project, Filed(l, r)) == Motives(project, l)
              + if Motive(r).Some? then {(Ref(project, r.feature), Motive(r).value)} else {}
    ensures Motive(r).None? <==> r.ok
  {
    KeysGrow(project, l.failed, r.feature, WorkerFailed);
    KeysGrow(project, l.interview, r.feature, InterviewHold);
    KeysGrow(project, l.rate, r.feature, RateLimited);
    KeysGrow(project, l.interrupted, r.feature, Interrupted);
    hide Keys;
  }

  lemma HeldFollowTheLedger(project: nat, b: Board, s: Slug)
    ensures Motives(project, Hold(b, s).ledger) == Motives(project, b.ledger) + {(Ref(project, s), SocleHold)}
  {
    KeysGrow(project, b.ledger.socle, s, SocleHold);
    hide Keys;
  }

  lemma KeysGrow(project: nat, s: set<Slug>, x: Slug, kind: Kind)
    ensures Keys(project, s + {x}, kind) == Keys(project, s, kind) + {(Ref(project, x), kind)}
  {
  }

  function NoticeOf(r: Report): Notice {
    if r.needsTerminal || r.rateLimited || r.interrupted then Notice(Warn, "held")
    else if r.needsRedrain then Notice(Blocker, "stale base: redrain")
    else Notice(Blocker, "worker failed")
  }

  /** What each outcome is announced as: a hold is a warning, and only a run that broke is a blocker. */
  lemma AnnouncedAs(s: Slug, o: Outcome)
    requires Contract(o)
    ensures var r := ReportOf(s, o);
            (Motive(r) == None <==> RanWell(o)) && (Motive(r) == Some(InterviewHold) <==> AsksHuman(o))
            && (Motive(r) == Some(RateLimited) <==> Throttles(o)) && (Motive(r) == Some(Interrupted) <==> Stopped(o))
            && (Motive(r) == Some(WorkerFailed) <==> Breaks(o))
            && (!RanWell(o) ==> (NoticeOf(r).severity == Blocker <==> Breaks(o))
                                && (NoticeOf(r).reason == "stale base: redrain" <==> o == StaleBase))
  {
  }

  /** `_emit_report_alert`. */
  method EmitReportAlert(project: nat, r: Report, alerts: AlertTable, now: nat)
    requires alerts.Valid() && Actionable(r)
    modifies alerts
    ensures alerts.Valid()
    ensures OpenKeys(alerts.rows) == old(OpenKeys(alerts.rows))
              + if Motive(r).Some? then {(Ref(project, r.feature), Motive(r).value)} else {}
    ensures alerts.rows == if Motive(r).None? then old(alerts.rows)
                           else Upserted(old(alerts.rows), old(alerts.nextId),
                                         (Ref(project, r.feature), Motive(r).value), NoticeOf(r), now)
  {
    hide Upserted;
    var ref := Ref(project, r.feature);
    if r.needsTerminal {
      alerts.Emit((ref, InterviewHold), NoticeOf(r), now, true);
    } else if r.rateLimited {
      alerts.Emit((ref, RateLimited), NoticeOf(r), now, true);
    } else if r.interrupted {
      alerts.Emit((ref, Interrupted), NoticeOf(r), now, true);
    } else if r.needsRedrain {
      alerts.Emit((ref, WorkerFailed), NoticeOf(r), now, true);
    } else if !r.ok {
      alerts.Emit((ref, WorkerFailed), NoticeOf(r), now, true);
    }
  }

  // --- the loop -------------------------------------------------------------------------------------------

  /** The parameters of a run: the features in listing order, the base feature that must be merged first, if
      there is one and it is not, and the roadmap as the run finds it. */
  datatype Plan = Plan(project: nat, order: seq<Slug>, gate: Option<Slug>, bound: nat, roadmap: Roadmap)

  /** The listing of the features of the project, and nothing else. */
  ghost predicate Listed(p: Plan, features: Roadmap) {
    forall s :: s in features <==> s in p.order
  }

  ghost predicate Running(p: Plan, b: Board, nextTicket: Ticket) {
    && Valid(b, p.bound, p.gate) && p.bound >= 1
    && Listed(p, b.features)
    && (forall t :: t in b.pending ==> t < nextTicket)
    && Progressed(p.roadmap, Runs(b.log), b.features) && Eligible(p.roadmap, b.log)
  }

  /** Only features that are neither merged, nor cancelled, nor waiting for another one, and that had a task to
      do, are ever submitted. */
  ghost predicate Eligible(initial: Roadmap, log: seq<Event>) {
    forall i :: 0 <= i < |log| && log[i].Submitted? ==>
      log[i].slug in initial && !initial[log[i].slug].inert && !initial[log[i].slug].held
      && initial[log[i].slug].left > 0
  }

  /** A feature `n` of whose tasks have been closed. */
  function Ahead(f: Feature, n: nat): Feature
    requires n <= f.left
  {
    f.(left := f.left - n, done := f.done + n)
  }

  /** Each feature is where its successful runs have taken it: one task closed by each, and none otherwise. */
  ghost predicate Progressed(initial: Roadmap, runs: seq<Run>, features: Roadmap) {
    features.Keys == initial.Keys
    && forall s :: s in initial ==>
         Gains(runs, s) <= initial[s].left && features[s] == Ahead(initial[s], Gains(runs, s))
  }

  /** A run was rejected by the rate limit of the organisation. */
  predicate Throttled(b: Board) {
    b.ledger.rate != {}
  }

  /** Nothing in flight, and nothing to submit. */
  ghost predicate NothingLeft(b: Board) {
    b.pending == map[] && forall s :: !Discoverable(b, s)
  }

  function Burden(p: Plan, b: Board): nat {
    Weight(p.order, b.features, b.ledger.All())
  }

  /** `_discoverable_features`. The ranking only orders the list; any order is covered here, since
      each feature is inserted at an arbitrary place. */
  method DiscoverableFeatures(p: Plan, b: Board) returns (listing: seq<Slug>)
    ensures forall s :: s in listing <==> s in p.order && Discoverable(b, s)
    ensures forall i, j :: 0 <= i < j < |listing| ==> listing[i] != listing[j]
  {
    listing := [];
    for i := 0 to |p.order|
      invariant forall s :: s in listing <==> s in p.order[..i] && Discoverable(b, s)
      invariant forall i, j :: 0 <= i < j < |listing| ==> listing[i] != listing[j]
    {
      assert p.order[..i+1] == p.order[..i] + [p.order[i]];
      if Discoverable(b, p.order[i]) && p.order[i] !in listing {
        var k :| 0 <= k <= |listing|;
        listing := listing[..k] + [p.order[i]] + listing[k..];
      }
    }
  }

  /** One feature of the listing: held for the base feature, submitted, or left when the pool is full. */
  method AssignOne(p: Plan, b0: Board, ticket0: Ticket, s: Slug, alerts: AlertTable, now: nat, ghost base: set<Key>)
    returns (b: Board, ticket: Ticket, full: bool)
    requires Running(p, b0, ticket0) && Discoverable(b0, s) && alerts.Valid()
    requires OpenKeys(alerts.rows) == base + Motives(p.project, b0.ledger)
    modifies alerts
    ensures Running(p, b, ticket) && alerts.Valid()
    ensures b.features == b0.features && b.reports == b0.reports && b.ledger.rate == b0.ledger.rate
    ensures Burden(p, b) <= Burden(p, b0)
    ensures OpenKeys(alerts.rows) == base + Motives(p.project, b.ledger)
    ensures forall x :: x != s ==> (Discoverable(b, x) <==> Discoverable(b0, x))
    ensures if full then b == b0 && b.pending != map[] else !Discoverable(b, s)
    ensures alerts.rows == if p.gate.None? || p.gate == Some(s) || s in b0.ledger.socle then old(alerts.rows)
                           else Upserted(old(alerts.rows), old(alerts.nextId), (Ref(p.project, s), SocleHold),
                                         Notice(Warn, "waits for the base feature"), now)
  {
    hide Running, Motives, OpenKeys, AlertTable.Valid, Discoverable, Burden, Upserted;
    full := false;
    if p.gate.Some? && s != p.gate.value {
      HoldStep(p, b0, ticket0, s);
      if s !in b0.ledger.socle {
        alerts.Emit((Ref(p.project, s), SocleHold), Notice(Warn, "waits for the base feature"), now, true);
      }
      b, ticket := Hold(b0, s), ticket0;
    } else if |b0.inFlight| >= p.bound {
      NoneMeansEmpty(p, b0, ticket0);
      b, ticket, full := b0, ticket0, true;
    } else {
      SubmitStep(p, b0, ticket0, s);
      b, ticket := Submit(b0, ticket0, s), ticket0 + 1;
    }
  }

  /** One pass of assignment: hold what must wait for the base feature, submit up to the bound. */
  method Assign(p: Plan, b0: Board, ticket0: Ticket, alerts: AlertTable, now: nat, ghost base: set<Key>)
    returns (b: Board, ticket: Ticket)
    requires Running(p, b0, ticket0) && alerts.Valid()
    requires OpenKeys(alerts.rows) == base + Motives(p.project, b0.ledger)
    modifies alerts
    ensures Running(p, b, ticket) && alerts.Valid()
    ensures b.features == b0.features && Burden(p, b) <= Burden(p, b0)
    ensures b.reports == b0.reports && b.ledger.rate == b0.ledger.rate
    ensures OpenKeys(alerts.rows) == base + Motives(p.project, b.ledger)
    ensures b.pending == map[] ==> NothingLeft(b)
  {
    var listing := DiscoverableFeatures(p, b0);
    b, ticket := b0, ticket0;
    hide Running, Motives, OpenKeys, AlertTable.Valid, Discoverable, Burden;
    for i := 0 to |listing|
      invariant Running(p, b, ticket) && alerts.Valid()
      invariant b.features == b0.features && b.reports == b0.reports && b.ledger.rate == b0.ledger.rate
      invariant Burden(p, b) <= Burden(p, b0)
      invariant OpenKeys(alerts.rows) == base + Motives(p.project, b.ledger)
      invariant forall k :: i <= k < |listing| ==> Discoverable(b, listing[k])
      invariant forall s :: Discoverable(b, s) ==> Discoverable(b0, s)
      invariant forall k :: 0 <= k < i ==> !Discoverable(b, listing[k])
    {
      var full;
      b, ticket, full := AssignOne(p, b, ticket, listing[i], alerts, now, base);
      if full {
        break;
      }
    }
    DiscoverableIsKnown(p, b0, ticket0);
  }

  lemma DiscoverableIsKnown(p: Plan, b: Board, ticket: Ticket)
    requires Running(p, b, ticket)
    ensures forall s :: Discoverable(b, s) ==> s in p.order
  {
  }

  lemma NoneMeansEmpty(p: Plan, b: Board, ticket: Ticket)
    requires Running(p, b, ticket) && |b.inFlight| >= p.bound
    ensures b.pending != map[]
  {
  }

  lemma HoldStep(p: Plan, b: Board, ticket: Ticket, s: Slug)
    requires Running(p, b, ticket) && Discoverable(b, s) && p.gate.Some? && s != p.gate.value
    ensures Running(p, Hold(b, s), ticket) && Burden(p, Hold(b, s)) <= Burden(p, b)
    ensures Motives(p.project, Hold(b, s).ledger) == Motives(p.project, b.ledger) + {(Ref(p.project, s), SocleHold)}
    ensures s !in b.ledger.socle && !Discoverable(Hold(b, s), s)
    ensures forall x :: x != s ==> (Discoverable(Hold(b, s), x) <==> Discoverable(b, x))
  {
    hide Valid, Motives, Weight, Listed, Ready, Progressed, Eligible;
    HoldKeeps(b, p.bound, p.gate, s);
    HeldFollowTheLedger(p.project, b, s);
    HoldWeighs(p.order, b.features, b.ledger.All(), Hold(b, s).ledger.All());
  }

  lemma SubmitStep(p: Plan, b: Board, ticket: Ticket, s: Slug)
    requires Running(p, b, ticket) && Discoverable(b, s) && |b.inFlight| < p.bound
    requires p.gate.None? || p.gate == Some(s)
    ensures Running(p, Submit(b, ticket, s), ticket + 1) && Burden(p, Submit(b, ticket, s)) == Burden(p, b)
    ensures ticket in Submit(b, ticket, s).pending && !Discoverable(Submit(b, ticket, s), s)
    ensures forall x :: x != s ==> (Discoverable(Submit(b, ticket, s), x) <==> Discoverable(b, x))
  {
    hide Valid, Weight, Ledger.All, Listed, Runs, Gains;
    assert ticket !in b.pending;
    assert Eligible(p.roadmap, b.log + [Submitted(s)]);
    hide Progressed, Eligible, Ready;
    RunsGrow(b.log, Submitted(s));
    assert Runs(b.log) + [] == Runs(b.log);
    SubmitKeeps(b, p.bound, p.gate, ticket, s);
  }

  /** `_dispatch_one`, as seen from the loop: any outcome the contract allows. */
  method DispatchOne() returns (o: Outcome)
    ensures Contract(o)
  {
    assert Contract(NeedsTerminal);
    o :| Contract(o);
  }

  /** Its result, as the loop asks for it: `None` is an exception of the worker, raised again. */
  method WorkerReturns() returns (o: Option<Outcome>)
    ensures o.Some? ==> Contract(o.value)
  {
    var raises: bool := *;
    if raises {
      return None;
    }
    var returned := DispatchOne();
    o := Some(returned);
  }

  /** How a collection ends: nothing special, the rate limit of the organisation, or the exception of a
      worker, which `result()` raises again. */
  datatype Hit = Nothing | Limit | Raised

  /** One future has completed: its report is filed, and announced when it tells of a block. If the worker
      raised, nothing is filed: the run itself raises. */
  method CollectOne(p: Plan, b0: Board, t: Ticket, ghost ticket: Ticket, alerts: AlertTable, now: nat,
                    ghost base: set<Key>)
    returns (b: Board, hit: Hit)
    requires Running(p, b0, ticket) && t in b0.pending && alerts.Valid()
    requires OpenKeys(alerts.rows) == base + Motives(p.project, b0.ledger)
    modifies alerts
    ensures Running(p, b, ticket) && alerts.Valid()
    ensures OpenKeys(alerts.rows) == base + Motives(p.project, b.ledger)
    ensures hit == Raised ==> b == b0
    ensures hit != Raised ==> Burden(p, b) < Burden(p, b0) && b.pending == b0.pending - {t}
    ensures hit != Raised ==> (Throttled(b) <==> hit == Limit || Throttled(b0))
  {
    hide Running, Motives, Motive, Burden, Throttled, Actionable, Contract, ReportOf, Collect, OpenKeys,
         AlertTable.Valid;
    var returned := WorkerReturns();
    if returned.None? {
      return b0, Raised;
    }
    var o := returned.value;
    CollectStep(p, b0, ticket, t, o);
    var r := ReportOf(b0.pending[t], o);
    EmitReportAlert(p.project, r, alerts, now);
    hit := if !r.needsTerminal && r.rateLimited then Limit else Nothing;
    b := Collect(b0, t, o);
  }

  /** `wait(FIRST_COMPLETED)`, then the collection of whatever has completed: at least one future, in any
      order, until one of them raises. */
  method Wait(p: Plan, b0: Board, ghost ticket: Ticket, alerts: AlertTable, now: nat, ghost base: set<Key>)
    returns (b: Board, hit: Hit)
    requires Running(p, b0, ticket) && b0.pending != map[] && alerts.Valid()
    requires OpenKeys(alerts.rows) == base + Motives(p.project, b0.ledger)
    modifies alerts
    ensures Running(p, b, ticket) && alerts.Valid()
    ensures OpenKeys(alerts.rows) == base + Motives(p.project, b.ledger)
    ensures hit == Raised ==> b.pending != map[]
    ensures hit != Raised ==> Burden(p, b) < Burden(p, b0)
    ensures hit != Raised ==> (Throttled(b) <==> hit == Limit || Throttled(b0))
  {
    hide Running, Motives, Burden, Throttled, OpenKeys, AlertTable.Valid;
    var t :| t in b0.pending;
    b, hit := CollectOne(p, b0, t, ticket, alerts, now, base);
    var more: bool := *;
    while b.pending != map[] && more && hit != Raised
      invariant Running(p, b, ticket) && alerts.Valid()
      invariant OpenKeys(alerts.rows) == base + Motives(p.project, b.ledger)
      invariant hit == Raised ==> b.pending != map[]
      invariant hit != Raised ==> Burden(p, b) < Burden(p, b0)
      invariant hit != Raised ==> (Throttled(b) <==> hit == Limit || Throttled(b0))
      decreases hit != Raised, |b.pending|
    {
      var u :| u in b.pending;
      var again;
      b, again := CollectOne(p, b, u, ticket, alerts, now, base);
      hit := if again == Nothing then hit else again;
      more := *;
    }
  }

  lemma CollectStep(p: Plan, b: Board, ticket: Ticket, t: Ticket, o: Outcome)
    requires Running(p, b, ticket) && t in b.pending && Contract(o)
    ensures b.pending[t] in b.features && Running(p, Collect(b, t, o), ticket)
    ensures Burden(p, Collect(b, t, o)) < Burden(p, b)
    ensures Actionable(ReportOf(b.pending[t], o))
    ensures var r := ReportOf(b.pending[t], o);
            Motives(p.project, Collect(b, t, o).ledger) == Motives(p.project, b.ledger)
              + if Motive(r).Some? then {(Ref(p.project, r.feature), Motive(r).value)} else {}
    ensures Collect(b, t, o).pending == b.pending - {t}
    ensures var r := ReportOf(b.pending[t], o);
            Throttled(Collect(b, t, o)) <==> Throttled(b) || (!r.needsTerminal && r.rateLimited)
  {
    hide Motives, Motive, Weight, Valid, Progressed, Runs;
    assert Eligible(p.roadmap, b.log + [Collected(b.pending[t], o)]);
    hide Eligible;
    CollectKeeps(b, p.bound, p.gate, t, o);
    RunsGrow(b.log, Collected(b.pending[t], o));
    CollectProgresses(p.roadmap, Runs(b.log), b.features, b.pending[t], o);
    ReportsAreActionable(b.pending[t], o);
    MotivesFollowTheLedger(p.project, b.ledger, ReportOf(b.pending[t], o));
    CollectWeighs(b, t, o, p.order);
  }

  lemma CollectProgresses(initial: Roadmap, runs: seq<Run>, features: Roadmap, s: Slug, o: Outcome)
    requires Progressed(initial, runs, features) && s in features && Ready(features[s])
    ensures Progressed(initial, runs + [Run(s, o)], features[s := Advanced(features[s], ReportOf(s, o).ok)])
  {
    hide Gains;
    ReportFollows(s, o);
    forall x ensures Gains(runs + [Run(s, o)], x) == Gains(runs, x) + if s == x && RanWell(o) then 1 else 0 {
      GainsGrow(runs, Run(s, o), x);
    }
  }

  // --- leaving the loop ------------------------------------------------------------------------------------

  /** The pool is joined on the way out: the workers still in flight finish, and advance their task
      when they succeed, but nobody collects their reports. */
  method Join(p: Plan, b: Board, ghost ticket: Ticket) returns (features: Roadmap, ghost lost: map<Slug, Outcome>)
    requires Running(p, b, ticket)
    ensures Left(b, features, lost) && lost.Keys == b.inFlight
  {
    features, lost := b.features, map[];
    var left := b.pending;
    hide Valid, Contract, ReportOf, Joined, Left;
    NobodyJoined(b);
    while left != map[]
      invariant Joined(b, left, features, lost)
      decreases |left|
    {
      var t :| t in left;
      var o := DispatchOne();
      JoinStep(p, b, left, features, lost, t, o);
      lost := lost[left[t] := o];
      features := features[left[t] := Advanced(features[left[t]], ReportOf(left[t], o).ok)];
      left := left - {t};
    }
    AllJoined(p, b, features, lost);
  }

  /** What the join leaves: each feature still in flight has closed one more task if its worker succeeded. */
  ghost predicate Left(b: Board, features: Roadmap, lost: map<Slug, Outcome>) {
    && features.Keys == b.features.Keys
    && (forall s :: s in lost ==>
          Contract(lost[s]) && s in b.features && Ready(b.features[s]) && s !in b.ledger.All())
    && (forall s :: s in features ==>
          features[s] == if s in lost && RanWell(lost[s]) then Ahead(b.features[s], 1) else b.features[s])
  }

  /** `left` are still to be joined; `lost` are the outcomes nobody collected. */
  ghost predicate Joined(b: Board, left: map<Ticket, Slug>, features: Roadmap, lost: map<Slug, Outcome>) {
    && (forall t :: t in left ==> t in b.pending && left[t] == b.pending[t])
    && lost.Keys <= b.inFlight && (forall t :: t in b.pending ==> (b.pending[t] in lost <==> t !in left))
    && Left(b, features, lost)
  }

  lemma NobodyJoined(b: Board)
    ensures Joined(b, b.pending, b.features, map[])
  {
  }

  lemma JoinStep(p: Plan, b: Board, left: map<Ticket, Slug>, features: Roadmap, lost: map<Slug, Outcome>, t: Ticket,
                 o: Outcome)
    requires Valid(b, p.bound, p.gate) && Joined(b, left, features, lost) && t in left && Contract(o)
    ensures left[t] in features
    ensures var r := ReportOf(left[t], o);
            Joined(b, left - {t}, features[left[t] := Advanced(features[left[t]], r.ok)], lost[left[t] := o])
  {
    hide Contract, ReportOf, Ledger.All, Valid, Left;
    Flying(p, b, t);
    OneTicketEach(p, b, t);
    OneMoreLeft(b, features, lost, left[t], o);
  }

  lemma OneMoreLeft(b: Board, features: Roadmap, lost: map<Slug, Outcome>, s: Slug, o: Outcome)
    requires Left(b, features, lost) && Contract(o) && s !in lost
    requires s in b.features && Ready(b.features[s]) && s !in b.ledger.All()
    ensures s in features && Left(b, features[s := Advanced(features[s], ReportOf(s, o).ok)], lost[s := o])
  {
    hide Contract, Ledger.All;
    ReportFollows(s, o);
  }

  lemma OneTicketEach(p: Plan, b: Board, t: Ticket)
    requires Valid(b, p.bound, p.gate) && t in b.pending
    ensures forall u :: u in b.pending && b.pending[u] == b.pending[t] ==> u == t
  {
  }

  lemma AllJoined(p: Plan, b: Board, features: Roadmap, lost: map<Slug, Outcome>)
    requires Valid(b, p.bound, p.gate) && Joined(b, map[], features, lost)
    ensures Left(b, features, lost) && lost.Keys == b.inFlight
  {
    hide Left, Safe, Excluded, InFlight, Counted, Filing, Recorded;
    forall s | s in b.inFlight ensures s in lost {
      var t :| t in b.pending && b.pending[t] == s;
    }
  }

  lemma Flying(p: Plan, b: Board, t: Ticket)
    requires Valid(b, p.bound, p.gate) && t in b.pending
    ensures b.pending[t] in b.inFlight
    ensures b.pending[t] in b.features && Ready(b.features[b.pending[t]]) && b.pending[t] !in b.ledger.All()
  {
    assert b.pending[t] in b.inFlight;
  }

  /** `_worked_complete_features`. */
  method WorkedComplete(order: seq<Slug>, features: Roadmap, out: set<Slug>) returns (worked: seq<Slug>)
    ensures forall s :: s in worked <==> s in order && s in features && Worked(features[s]) && s !in out
  {
    worked := [];
    for i := 0 to |order|
      invariant forall s :: s in worked <==> s in order[..i] && s in features && Worked(features[s]) && s !in out
    {
      assert order[..i+1] == order[..i] + [order[i]];
      if order[i] in features && Worked(features[order[i]]) && order[i] !in out {
        worked := worked + [order[i]];
      }
    }
  }

  /** The alerts a finalisation may touch: the gate of a feature of this project. */
  ghost predicate OnlyGates(project: nat, before: set<Key>, after: set<Key>) {
    forall k: Key :: k.1 != GateRed || k.0.project != project ==> (k in before <==> k in after)
  }

  /** How `finalize_feature` concludes: a green gate, a red one with its blockers, neither (a branch that was
      never made, no blocker to name), or an exception on the way. */
  datatype Gate = Green | Red | Unsettled | Raises

  /** `finalize_feature`, as far as alerts go: a red gate opens `gate_red`, a green one closes it. */
  method Finalize(project: nat, s: Slug, gate: Gate, alerts: AlertTable, now: nat) returns (raised: bool)
    requires alerts.Valid()
    modifies alerts
    ensures alerts.Valid() && (raised <==> gate == Raises)
    ensures alerts.rows == match gate
                           case Green => Closed(old(alerts.rows), Ref(project, s), {GateRed}, now)
                           case Red => Upserted(old(alerts.rows), old(alerts.nextId), (Ref(project, s), GateRed),
                                                Notice(Blocker, "gate red"), now)
                           case _ => old(alerts.rows)
    ensures forall k: Key :: k in OpenKeys(alerts.rows) <==>
              if k == (Ref(project, s), GateRed) then gate == Red || (gate != Green && k in old(OpenKeys(alerts.rows)))
              else k in old(OpenKeys(alerts.rows))
  {
    hide Closed, Upserted, OpenKeys;
    if gate == Green {
      alerts.Resolve(Ref(project, s), {GateRed}, now, true);
    } else if gate == Red {
      alerts.Emit((Ref(project, s), GateRed), Notice(Blocker, "gate red"), now, true);
    }
    raised := gate == Raises;
  }

  /** The gates of the project, exactly, once these features are finalised. */
  ghost predicate Gated(project: nat, finalized: seq<Slug>, gates: Slug -> Gate, before: set<Key>, after: set<Key>) {
    forall s :: (Ref(project, s), GateRed) in after <==>
                  if s in finalized then gates(s) == Red || (gates(s) != Green && (Ref(project, s), GateRed) in before)
                  else (Ref(project, s), GateRed) in before
  }

  /** The finalisations in order, until one raises. */
  method FinalizeAll(project: nat, worked: seq<Slug>, gates: Slug -> Gate, alerts: AlertTable, now: nat)
    returns (raised: bool, done: nat)
    requires alerts.Valid()
    modifies alerts
    ensures alerts.Valid() && OnlyGates(project, old(OpenKeys(alerts.rows)), OpenKeys(alerts.rows))
    ensures done <= |worked| && (raised <==> done < |worked|) && (raised ==> gates(worked[done]) == Raises)
    ensures forall s :: s in worked[..done] ==> gates(s) != Raises
    ensures Gated(project, worked[..done], gates, old(OpenKeys(alerts.rows)), OpenKeys(alerts.rows))
  {
    hide OpenKeys, Closed, Upserted;
    for i := 0 to |worked|
      invariant alerts.Valid() && OnlyGates(project, old(OpenKeys(alerts.rows)), OpenKeys(alerts.rows))
      invariant forall s :: s in worked[..i] ==> gates(s) != Raises
      invariant Gated(project, worked[..i], gates, old(OpenKeys(alerts.rows)), OpenKeys(alerts.rows))
    {
      raised := Finalize(project, worked[i], gates(worked[i]), alerts, now);
      if raised {
        return true, i;
      }
      assert worked[..i+1] == worked[..i] + [worked[i]];
    }
    assert worked[..|worked|] == worked;
    return false, |worked|;
  }

  /** What is announced, and then closed, besides the gates changes nothing to them. */
  lemma GatesStand(p: Plan, l: Ledger, finalized: seq<Slug>, gates: Slug -> Gate, base: set<Key>, judged: set<Key>,
                   after: set<Key>)
    requires Gated(p.project, finalized, gates, base + Motives(p.project, l), judged)
    requires forall k: Key :: k.1 == GateRed ==> (k in after <==> k in judged)
    ensures Gated(p.project, finalized, gates, base, after)
  {
    forall s ensures (Ref(p.project, s), GateRed) in base + Motives(p.project, l) <==>
                       (Ref(p.project, s), GateRed) in base
    {
      MotivesAreCalls(p.project, l, s, GateRed);
    }
    hide Motives;
  }

  const WORKER_KINDS: set<Kind> := {WorkerFailed, RateLimited, Interrupted, InterviewHold, SocleHold}

  /** A feature that drained its work is no longer held: its worker-level alerts are closed. */
  method ResolveDrained(project: nat, drained: seq<Slug>, alerts: AlertTable, now: nat)
    requires alerts.Valid()
    modifies alerts
    ensures alerts.Valid()
    ensures forall k: Key :: k in OpenKeys(alerts.rows) <==>
              k in old(OpenKeys(alerts.rows))
              && !(k.0.project == project && k.0.slug in drained && k.1 in WORKER_KINDS)
    ensures Settled(old(alerts.rows), alerts.rows, project, drained, now)
  {
    hide Closed, OpenKeys, Settled;
    NothingSettled(alerts.rows, project, now);
    for i := 0 to |drained|
      invariant alerts.Valid() && Settled(old(alerts.rows), alerts.rows, project, drained[..i], now)
      invariant forall k: Key :: k in OpenKeys(alerts.rows) <==>
                  k in old(OpenKeys(alerts.rows))
                  && !(k.0.project == project && k.0.slug in drained[..i] && k.1 in WORKER_KINDS)
    {
      assert drained[..i+1] == drained[..i] + [drained[i]];
      OneMoreSettled(old(alerts.rows), alerts.rows, project, drained[..i], drained[i], now);
      alerts.Resolve(Ref(project, drained[i]), WORKER_KINDS, now, true);
    }
    assert drained[..|drained|] == drained;
  }

  /** Row by row: the open worker-level alerts of these features are closed, dated now, and nothing else moves. */
  ghost predicate Settled(before: seq<Alert>, after: seq<Alert>, project: nat, drained: seq<Slug>, now: nat) {
    |after| == |before|
    && forall i :: 0 <= i < |after| ==>
         after[i] == if before[i].status == Open && before[i].ref.project == project && before[i].ref.slug in drained
                        && before[i].kind != GateRed
                     then before[i].(status := Resolved, resolved := Some(now)) else before[i]
  }

  lemma NothingSettled(rows: seq<Alert>, project: nat, now: nat)
    ensures Settled(rows, rows, project, [], now)
  {
  }

  lemma OneMoreSettled(before: seq<Alert>, after: seq<Alert>, project: nat, drained: seq<Slug>, s: Slug, now: nat)
    requires Settled(before, after, project, drained, now)
    ensures Settled(before, Closed(after, Ref(project, s), WORKER_KINDS, now), project, drained + [s], now)
  {
    forall kind: Kind ensures kind in WORKER_KINDS <==> kind != GateRed {
    }
    hide WORKER_KINDS;
  }

  // --- the whole run ------------------------------------------------------------------------------------------

  datatype Summary = Summary(dispatched: nat, ok: nat, failed: int, ledger: Ledger, worked: seq<Slug>,
                             places: Places, aborted: bool)

  /** `_summarize`: the failures are what remains of the runs once the others are counted. */
  function Summarize(reports: seq<Report>, l: Ledger, worked: seq<Slug>, places: Places, aborted: bool): Summary {
    Summary(|reports|, Count(reports, Succeeded),
            |reports| - Count(reports, Succeeded) - Count(reports, AsksTerminal) - Count(reports, AsksPatience)
            - Count(reports, WasCut), l, worked, places, aborted)
  }

  /** What the caller is told, against what happened. */
  ghost predicate Told(p: Plan, features: Roadmap, s: Summary, lost: map<Slug, Outcome>) {
    && s.ledger.Disjoint() && s.failed == |s.ledger.failed|
    && (forall x :: x in s.worked <==> x in p.order && x in features && Worked(features[x]) && x !in s.ledger.All())
    && (forall q :: q in s.places && s.places[q] == Bucket(p.order, features, s.ledger, Elements(s.worked), q))
    && (lost != map[] ==> s.aborted || s.ledger.rate != {})
    && (!s.aborted && s.ledger.rate == {} ==>
          forall x :: x in features && Ready(features[x]) ==> x in s.ledger.All())
    && (forall x :: x in lost ==> x in features && x !in s.ledger.All()
                                  && (!RanWell(lost[x]) ==> PlaceOf(s.ledger, Elements(s.worked), x) == Blocked))
  }

  /** The figures are those of the runs collected, and each place of the ledger holds exactly the features that
      one of them sent there. */
  ghost predicate Recounted(s: Summary, runs: seq<Run>) {
    && s.dispatched == |runs| && s.ok == Tally(runs, RanWell) && s.failed == Tally(runs, Breaks)
    && s.ledger.failed == Having(runs, Breaks) && s.ledger.interview == Having(runs, AsksHuman)
    && s.ledger.rate == Having(runs, Throttles) && s.ledger.interrupted == Having(runs, Stopped)
  }

  /** A task is closed by each run that went well, collected or not, and by nothing else. */
  ghost predicate Closes(initial: Roadmap, runs: seq<Run>, lost: map<Slug, Outcome>, features: Roadmap) {
    features.Keys == initial.Keys
    && forall s :: s in initial ==>
         var n := Gains(runs, s) + if s in lost && RanWell(lost[s]) then 1 else 0;
         n <= initial[s].left && features[s] == Ahead(initial[s], n)
  }

  /** The place of `x` in the ledger calls for this alert. */
  predicate Calls(l: Ledger, x: Slug, kind: Kind) {
    match kind
    case WorkerFailed => x in l.failed
    case InterviewHold => x in l.interview
    case SocleHold => x in l.socle
    case RateLimited => x in l.rate
    case Interrupted => x in l.interrupted
    case GateRed => false
  }

  lemma MotivesAreCalls(project: nat, l: Ledger, x: Slug, kind: Kind)
    ensures (Ref(project, x), kind) in Motives(project, l) <==> Calls(l, x, kind)
  {
  }

  /** NO SILENT BLOCK, exactly: the worker-level alerts open at the end are those of the ledger and
      those that were already open, minus those of the features that drained. */
  ghost predicate Announced(p: Plan, s: Summary, before: set<Key>, after: set<Key>) {
    && (forall k: Key :: k.0.project != p.project ==> (k in before <==> k in after))
    && (forall x, kind :: kind != GateRed ==>
          ((Ref(p.project, x), kind) in after <==>
             !(PlaceOf(s.ledger, Elements(s.worked), x) == Drained)
             && ((Ref(p.project, x), kind) in before || Calls(s.ledger, x, kind))))
  }

  /** A run that raises: what it had collected is announced, and nothing else but gates has moved. */
  ghost predicate CutOffBy(p: Plan, l: Ledger, lost: map<Slug, Outcome>, before: set<Key>, after: set<Key>) {
    l.All() !! lost.Keys && OnlyGates(p.project, before + Motives(p.project, l), after)
  }

  lemma StartIsReady(p: Plan, base: set<Key>)
    requires p.bound >= 1 && Listed(p, p.roadmap)
    ensures Running(p, Start(p.roadmap), 0) && base == base + Motives(p.project, Start(p.roadmap).ledger)
    ensures !Throttled(Start(p.roadmap))
  {
    StartIsValid(p.roadmap, p.bound, p.gate);
  }

  /** Why a pass left the loop. */
  datatype Exit = Abort | Exhausted | RateHit | WorkerRaised

  /** One pass of the loop: a human abort is seen before anything is assigned. */
  method Pass(p: Plan, b0: Board, ticket0: Ticket, aborted: bool, alerts: AlertTable, now: nat, ghost base: set<Key>)
    returns (b: Board, ticket: Ticket, exit: Option<Exit>)
    requires Running(p, b0, ticket0) && alerts.Valid() && !Throttled(b0)
    requires OpenKeys(alerts.rows) == base + Motives(p.project, b0.ledger)
    modifies alerts
    ensures Running(p, b, ticket) && alerts.Valid()
    ensures OpenKeys(alerts.rows) == base + Motives(p.project, b.ledger)
    ensures aborted ==> b == b0 && exit == Some(Abort)
    ensures exit == Some(Abort) ==> aborted
    ensures exit == Some(Exhausted) ==> NothingLeft(b)
    ensures exit == Some(WorkerRaised) ==> b.pending != map[]
    ensures exit != Some(WorkerRaised) ==> (Throttled(b) <==> exit == Some(RateHit))
    ensures exit.None? ==> Burden(p, b) < Burden(p, b0)
  {
    hide Running, Burden, NothingLeft, Motives, OpenKeys, AlertTable.Valid;
    if aborted {
      return b0, ticket0, Some(Abort);
    }
    b, ticket := Assign(p, b0, ticket0, alerts, now, base);
    if b.pending == map[] {
      return b, ticket, Some(Exhausted);
    }
    var hit;
    b, hit := Wait(p, b, ticket, alerts, now, base);
    exit := match hit case Nothing => None case Limit => Some(RateHit) case Raised => Some(WorkerRaised);
  }

  /** Nobody asked to stop before the first `n` passes. */
  ghost predicate Unasked(abort: nat -> bool, n: nat) {
    forall k :: 0 <= k < n ==> !abort(k)
  }

  lemma StillUnasked(abort: nat -> bool, n: nat)
    ensures Unasked(abort, 0)
    ensures Unasked(abort, n + 1) <==> Unasked(abort, n) && !abort(n)
  {
  }

  /** The loop: it terminates because each pass that does not leave collects at least one run. */
  method DrainLoop(p: Plan, abort: nat -> bool, alerts: AlertTable, now: nat, ghost base: set<Key>)
    returns (b: Board, ticket: Ticket, exit: Option<Exit>, passes: nat)
    requires alerts.Valid() && p.bound >= 1
    requires Listed(p, p.roadmap)
    requires OpenKeys(alerts.rows) == base
    modifies alerts
    ensures Running(p, b, ticket) && alerts.Valid()
    ensures OpenKeys(alerts.rows) == base + Motives(p.project, b.ledger)
    ensures exit.Some? && (exit == Some(Exhausted) ==> NothingLeft(b)) && (exit == Some(RateHit) ==> Throttled(b))
    ensures exit == Some(WorkerRaised) ==> b.pending != map[]
    ensures (exit == Some(Abort) <==> abort(passes)) && Unasked(abort, passes)
  {
    b, ticket, passes := Start(p.roadmap), 0, 0;
    StartIsReady(p, base);
    StillUnasked(abort, 0);
    hide Running, Listed, Burden, NothingLeft, Throttled, Start, Motives, OpenKeys, AlertTable.Valid, Unasked;
    b, ticket, exit := Pass(p, b, ticket, abort(passes), alerts, now, base);
    while exit.None?
      invariant (exit == Some(Abort) <==> abort(passes)) && Unasked(abort, passes)
      invariant Running(p, b, ticket) && alerts.Valid()
      invariant OpenKeys(alerts.rows) == base + Motives(p.project, b.ledger)
      invariant exit == Some(Exhausted) ==> NothingLeft(b)
      invariant exit == Some(WorkerRaised) ==> b.pending != map[]
      invariant exit != Some(WorkerRaised) ==> (Throttled(b) <==> exit == Some(RateHit))
      decreases exit.None?, Burden(p, b)
    {
      StillUnasked(abort, passes);
      passes := passes + 1;
      b, ticket, exit := Pass(p, b, ticket, abort(passes), alerts, now, base);
    }
  }

  /** Drains the roadmap of a project until nothing more can be dispatched. No summary: a worker raised, and
      the run raises once the pool is joined, without finalising nor accounting for anything; or a
      finalisation raised, and the alerts of the drained features are not closed. `log` holds the outcome of
      every run collected, `lost` those of the runs that were still in flight, and `finalized` the features
      whose finalisation went through; `abort(k)` is whether a human has asked to stop before pass `k`, and
      `passes` the pass it was left in. */
  method RunProject(p: Plan, abort: nat -> bool, gates: Slug -> Gate, alerts: AlertTable, now: nat)
    returns (summary: Option<Summary>, features: Roadmap, ghost log: seq<Event>, ghost lost: map<Slug, Outcome>,
             ghost ledger: Ledger, ghost finalized: seq<Slug>, ghost passes: nat)
    requires alerts.Valid() && p.bound >= 1
    requires Listed(p, p.roadmap)
    modifies alerts
    ensures alerts.Valid()
    ensures Safe(log, p.bound, p.gate) && lost.Keys == InFlight(log) && Eligible(p.roadmap, log)
    ensures Closes(p.roadmap, Runs(log), lost, features)
    ensures summary.Some? ==> Told(p, features, summary.value, lost) && Recounted(summary.value, Runs(log))
    ensures summary.Some? ==> Announced(p, summary.value, old(OpenKeys(alerts.rows)), OpenKeys(alerts.rows))
    ensures summary.None? ==> CutOffBy(p, ledger, lost, old(OpenKeys(alerts.rows)), OpenKeys(alerts.rows))
    ensures Gated(p.project, finalized, gates, old(OpenKeys(alerts.rows)), OpenKeys(alerts.rows))
    ensures Unasked(abort, passes)
    ensures summary.Some? ==> (summary.value.aborted <==> abort(passes))
    ensures summary.Some? ==> finalized == summary.value.worked && forall s :: s in finalized ==> gates(s) != Raises
    ensures summary.None? ==>
              (finalized == [] && lost != map[])
              || exists s :: gates(s) == Raises && s in p.order && s in features && Worked(features[s])
                             && s !in ledger.All()
  {
    hide Safe, InFlight, Excluded, Counted, Mutex, Filing, Motives, OpenKeys, Told, Announced, Eligible, Closes,
         Recounted, Recorded, Runs, Left, Progressed, Gated, Worked, OnlyGates, Listed, NothingLeft, Throttled;
    ghost var base := OpenKeys(alerts.rows);
    var b, ticket, exit, last := DrainLoop(p, abort, alerts, now, base);
    passes := last;
    log, ledger := b.log, b.ledger;
    assert exit.value.Abort? || exit.value.RateHit? || exit.value.Exhausted? || exit.value.WorkerRaised?;
    features, lost := Join(p, b, ticket);
    LeftCloses(p, b, features, lost);
    finalized := [];
    if exit == Some(WorkerRaised) {
      SomeoneFlies(b, p.bound);
      NothingIsJudged(p, ledger, lost, gates, base);
      return None, features, log, lost, ledger, finalized, passes;
    }
    assert exit == Some(Abort) || Throttled(b) || NothingLeft(b);
    summary, finalized := Conclude(p, b, features, lost, exit == Some(Abort), gates, alerts, now, base);
  }

  /** What follows the loop, when it was left without an exception. */
  method Conclude(p: Plan, b: Board, features: Roadmap, ghost lost: map<Slug, Outcome>, aborted: bool,
                  gates: Slug -> Gate, alerts: AlertTable, now: nat, ghost base: set<Key>)
    returns (summary: Option<Summary>, ghost finalized: seq<Slug>)
    requires alerts.Valid() && Valid(b, p.bound, p.gate) && Left(b, features, lost) && lost.Keys == b.inFlight
    requires OpenKeys(alerts.rows) == base + Motives(p.project, b.ledger)
    requires aborted || Throttled(b) || NothingLeft(b)
    modifies alerts
    ensures alerts.Valid()
    ensures summary.Some? ==>
              Told(p, features, summary.value, lost) && Recounted(summary.value, Runs(b.log))
              && Announced(p, summary.value, base, OpenKeys(alerts.rows))
    ensures summary.None? ==> OnlyGates(p.project, base + Motives(p.project, b.ledger), OpenKeys(alerts.rows))
    ensures Gated(p.project, finalized, gates, base, OpenKeys(alerts.rows))
    ensures summary.Some? ==> summary.value.aborted == aborted && summary.value.ledger == b.ledger
    ensures summary.Some? ==> finalized == summary.value.worked && forall s :: s in finalized ==> gates(s) != Raises
    ensures summary.None? ==>
              exists s :: gates(s) == Raises && s in p.order && s in features && Worked(features[s])
                          && s !in b.ledger.All()
  {
    hide Valid, Motives, OpenKeys, Told, Announced, Bucket, Count, Closed, Recounted, Runs, Left, Gated, Worked,
         OnlyGates, Ledger.All, Throttled, NothingLeft;
    var worked := WorkedComplete(p.order, features, b.ledger.All());
    ghost var drained := OpenKeys(alerts.rows);
    var raised, done := FinalizeAll(p.project, worked, gates, alerts, now);
    ghost var judged := OpenKeys(alerts.rows);
    finalized := worked[..done];
    if raised {
      assert worked[done] in worked;
      GatesStand(p, b.ledger, finalized, gates, base, judged, judged);
      return None, finalized;
    }
    var places := Dispositions(p.order, features, b.ledger, Elements(worked));
    ResolveDrained(p.project, places[Drained], alerts, now);
    var s := Summarize(b.reports, b.ledger, worked, places, aborted);
    TellsTheTruth(p, b, features, lost, s);
    RecountsTheRuns(p, b, s);
    AnnouncesAll(p, features, s, base, drained, judged, OpenKeys(alerts.rows));
    GatesStand(p, b.ledger, finalized, gates, base, judged, OpenKeys(alerts.rows));
    assert worked[..|worked|] == worked;
    summary := Some(s);
  }

  lemma SomeoneFlies(b: Board, bound: nat)
    requires Mutex(b, bound) && b.pending != map[]
    ensures b.inFlight != {}
  {
    var t :| t in b.pending;
  }

  lemma NothingIsJudged(p: Plan, l: Ledger, lost: map<Slug, Outcome>, gates: Slug -> Gate, base: set<Key>)
    requires forall x :: x in lost ==> x !in l.All()
    ensures CutOffBy(p, l, lost, base, base + Motives(p.project, l))
    ensures Gated(p.project, [], gates, base, base + Motives(p.project, l))
  {
    GatesStand(p, l, [], gates, base, base + Motives(p.project, l), base + Motives(p.project, l));
  }

  lemma LeftCloses(p: Plan, b: Board, features: Roadmap, lost: map<Slug, Outcome>)
    requires Left(b, features, lost) && Progressed(p.roadmap, Runs(b.log), b.features)
    ensures Closes(p.roadmap, Runs(b.log), lost, features)
    ensures forall x :: x in lost ==> x !in b.ledger.All()
  {
    hide Runs, Gains, Contract;
  }

  lemma RecountsTheRuns(p: Plan, b: Board, s: Summary)
    requires Valid(b, p.bound, p.gate) && s == Summarize(b.reports, b.ledger, s.worked, s.places, s.aborted)
    ensures Recounted(s, Runs(b.log))
  {
    hide Safe, InFlight, Excluded, Mutex, Filing, Count, Runs, Having, Tally;
    CountsAreTallies(b.reports, Runs(b.log));
  }

  /** The figures of the reports are those of the outcomes. */
  lemma {:induction false} CountsAreTallies(reports: seq<Report>, runs: seq<Run>)
    requires |reports| == |runs|
    requires forall i :: 0 <= i < |runs| ==>
               reports[i] == ReportOf(runs[i].slug, runs[i].outcome) && Contract(runs[i].outcome)
    ensures Count(reports, Succeeded) == Tally(runs, RanWell) && Count(reports, AsksTerminal) == Tally(runs, AsksHuman)
    ensures Count(reports, AsksPatience) == Tally(runs, Throttles) && Count(reports, WasCut) == Tally(runs, Stopped)
    ensures Count(reports, Failed) == Tally(runs, Breaks)
  {
    hide ReportOf, Contract, Failed, Breaks;
    if runs != [] {
      CountsAreTallies(reports[..|reports| - 1], runs[..|runs| - 1]);
      var r := runs[|runs| - 1];
      ReportFollows(r.slug, r.outcome);
    }
  }

  lemma TellsTheTruth(p: Plan, b: Board, features: Roadmap, lost: map<Slug, Outcome>, s: Summary)
    requires Valid(b, p.bound, p.gate) && Left(b, features, lost) && lost.Keys == b.inFlight
    requires forall x :: x in s.worked <==> x in p.order && x in features && Worked(features[x]) && x !in b.ledger.All()
    requires forall q :: q in s.places && s.places[q] == Bucket(p.order, features, b.ledger, Elements(s.worked), q)
    requires s == Summarize(b.reports, b.ledger, s.worked, s.places, s.aborted)
    requires s.aborted || Throttled(b) || NothingLeft(b)
    ensures Told(p, features, s, lost)
  {
    hide Safe, InFlight, Excluded, Bucket, Count, Mutex, Ledger.Disjoint, Ledger.All, PlaceOf, Contract, Recorded,
         RanWell;
    assert s.failed == |s.ledger.failed|;
    MutexMeans(b, p.bound);
    if !s.aborted && b.ledger.rate == {} {
      assert lost == map[];
      forall x | x in features && Ready(features[x]) ensures x in b.ledger.All() {
        assert !Discoverable(b, x);
      }
    }
    forall x | x in lost && !RanWell(lost[x]) ensures PlaceOf(s.ledger, Elements(s.worked), x) == Blocked {
      assert features[x] == b.features[x];
      NoPlaceIsBlocked(s.ledger, Elements(s.worked), x);
    }
  }

  lemma NoPlaceIsBlocked(l: Ledger, drained: set<Slug>, x: Slug)
    requires x !in l.All() && x !in drained
    ensures PlaceOf(l, drained, x) == Blocked
  {
  }

  /** Only the features of the ledger carry its motives; a drained one is not in it. */
  lemma AnnouncesAll(p: Plan, features: Roadmap, s: Summary, base: set<Key>, drained: set<Key>, finalized: set<Key>,
                     after: set<Key>)
    requires drained == base + Motives(p.project, s.ledger) && OnlyGates(p.project, drained, finalized)
    requires Drained in s.places
    requires s.places[Drained] == Bucket(p.order, features, s.ledger, Elements(s.worked), Drained)
    requires forall x :: x in s.worked ==> x in p.order && x in features && Worked(features[x])
    requires forall k: Key :: k in after <==>
               k in finalized && !(k.0.project == p.project && k.0.slug in s.places[Drained] && k.1 in WORKER_KINDS)
    ensures Announced(p, s, base, after)
  {
    hide Bucket;
    forall x ensures x in s.places[Drained] <==> PlaceOf(s.ledger, Elements(s.worked), x) == Drained {
      BucketHolds(p.order, features, s.ledger, Elements(s.worked), Drained, x);
    }
    forall x, kind ensures (Ref(p.project, x), kind) in Motives(p.project, s.ledger) <==> Calls(s.ledger, x, kind) {
      MotivesAreCalls(p.project, s.ledger, x, kind);
    }
    hide Motives, Calls;
  }

  /** THE PLACES, one by one. Each lists, among the features neither merged nor cancelled, exactly those the run
      left there: in the ledger, under its heading; else drained, when every task is done; else blocked. */
  lemma PlacesExactly(p: Plan, features: Roadmap, s: Summary, lost: map<Slug, Outcome>, x: Slug)
    requires Told(p, features, s, lost)
    ensures var live := x in p.order && x in features && !features[x].inert;
            var l := s.ledger;
            (forall q :: q in s.places)
            && (x in s.places[Broken] <==> live && x in l.failed)
            && (x in s.places[AtInterview] <==> live && x in l.interview)
            && (x in s.places[AtRateLimit] <==> live && x in l.rate)
            && (x in s.places[CutOff] <==> live && x in l.interrupted)
            && (x in s.places[AtSocle] <==> live && x in l.socle)
            && (x in s.places[Drained] <==>
                  live && x !in l.All() && features[x].left == 0 && features[x].stuck == 0 && features[x].done > 0)
            && (x in s.places[Blocked] <==> live && x !in l.All() && x !in s.places[Drained])
            && (x in s.worked <==> x in s.places[Drained])
            && (!s.aborted && l.rate == {} && live && !features[x].held && features[x].left > 0 ==> x in l.All())
  {
    hide Bucket, PlaceOf, Ledger.Disjoint;
    LedgerPlaces(p, features, s, lost, x);
    InItsPlace(p, features, s, lost, x, Drained);
    InItsPlace(p, features, s, lost, x, Blocked);
    PlaceExactly(s.ledger, Elements(s.worked), x);
  }

  lemma LedgerPlaces(p: Plan, features: Roadmap, s: Summary, lost: map<Slug, Outcome>, x: Slug)
    requires Told(p, features, s, lost)
    ensures var live := x in p.order && Live(features, x);
            var l := s.ledger;
            (forall q :: q in s.places)
            && (x in s.places[Broken] <==> live && x in l.failed)
            && (x in s.places[AtInterview] <==> live && x in l.interview)
            && (x in s.places[AtRateLimit] <==> live && x in l.rate)
            && (x in s.places[CutOff] <==> live && x in l.interrupted)
            && (x in s.places[AtSocle] <==> live && x in l.socle)
  {
    InItsPlace(p, features, s, lost, x, Broken);
    InItsPlace(p, features, s, lost, x, AtInterview);
    InItsPlace(p, features, s, lost, x, AtRateLimit);
    InItsPlace(p, features, s, lost, x, CutOff);
    InItsPlace(p, features, s, lost, x, AtSocle);
    hide Bucket, PlaceOf, Ready, Live, Ledger.All;
    PlaceExactly(s.ledger, Elements(s.worked), x);
  }

  lemma InItsPlace(p: Plan, features: Roadmap, s: Summary, lost: map<Slug, Outcome>, x: Slug, q: Place)
    requires Told(p, features, s, lost)
    ensures q in s.places
    ensures x in s.places[q] <==>
              x in p.order && Live(features, x) && PlaceOf(s.ledger, Elements(s.worked), x) == q
  {
    hide Bucket, PlaceOf;
    BucketHolds(p.order, features, s.ledger, Elements(s.worked), q, x);
  }

  /** And in the order of the roadmap. */
  lemma PlacesInOrder(p: Plan, features: Roadmap, s: Summary, lost: map<Slug, Outcome>, q: Place, i: nat, j: nat)
    requires Told(p, features, s, lost) && i < j < |s.places[q]|
    ensures exists m, n :: 0 <= m < n < |p.order| && p.order[m] == s.places[q][i] && p.order[n] == s.places[q][j]
  {
    hide Bucket;
    BucketInOrder(p.order, features, s.ledger, Elements(s.worked), q, i, j);
  }

  lemma {:induction false} BucketInOrder(order: seq<Slug>, features: Roadmap, l: Ledger, drained: set<Slug>, q: Place,
                                         i: nat, j: nat)
    requires i < j < |Bucket(order, features, l, drained, q)|
    ensures var b := Bucket(order, features, l, drained, q);
            exists m, n :: 0 <= m < n < |order| && order[m] == b[i] && order[n] == b[j]
  {
    hide PlaceOf, Live;
    var init, last := order[..|order| - 1], order[|order| - 1];
    var b, before := Bucket(order, features, l, drained, q), Bucket(init, features, l, drained, q);
    if j < |before| {
      BucketInOrder(init, features, l, drained, q, i, j);
      var m, n :| 0 <= m < n < |init| && init[m] == before[i] && init[n] == before[j];
      assert order[m] == b[i] && order[n] == b[j];
    } else {
      BucketHolds(init, features, l, drained, q, before[i]);
      var m :| 0 <= m < |init| && init[m] == before[i];
      assert order[m] == b[i] && order[|order| - 1] == b[j];
    }
  }

  lemma PlaceExactly(l: Ledger, drained: set<Slug>, x: Slug)
    requires l.Disjoint()
    ensures PlaceOf(l, drained, x) == Broken <==> x in l.failed
    ensures PlaceOf(l, drained, x) == AtInterview <==> x in l.interview
    ensures PlaceOf(l, drained, x) == AtRateLimit <==> x in l.rate
    ensures PlaceOf(l, drained, x) == CutOff <==> x in l.interrupted
    ensures PlaceOf(l, drained, x) == AtSocle <==> x in l.socle
    ensures PlaceOf(l, drained, x) == Drained <==> x !in l.All() && x in drained
    ensures PlaceOf(l, drained, x) == Blocked <==> x !in l.All() && x !in drained
  {
  }

  /** No silent block, for whatever was collected: a feature of the ledger ends with an open alert of
      its own motive, and one that drained with none. */
  lemma CollectedBlocksAreAnnounced(p: Plan, s: Summary, before: set<Key>, after: set<Key>, x: Slug)
    requires Announced(p, s, before, after)
    ensures x in s.ledger.All() ==> exists kind :: kind != GateRed && (Ref(p.project, x), kind) in after
    ensures PlaceOf(s.ledger, Elements(s.worked), x) == Drained ==>
              forall kind :: kind != GateRed ==> (Ref(p.project, x), kind) !in after
  {
    if x in s.ledger.All() {
      var kind := if x in s.ledger.failed then WorkerFailed
                  else if x in s.ledger.interview then InterviewHold
                  else if x in s.ledger.rate then RateLimited
                  else if x in s.ledger.interrupted then Interrupted
                  else SocleHold;
      assert Calls(s.ledger, x, kind);
    }
  }

  /** And exactly what escapes the rule: after an abort or a rate-limit rejection, a worker that was
      still in flight and then failed is reported `blocked` ("did nothing this run"), and no alert of
      this run speaks of it. With neither, nothing escapes. */
  lemma UncollectedBlocksAreSilent(p: Plan, features: Roadmap, s: Summary, lost: map<Slug, Outcome>,
                                   before: set<Key>, after: set<Key>, x: Slug, kind: Kind)
    requires Told(p, features, s, lost) && Announced(p, s, before, after)
    requires x in lost && !RanWell(lost[x]) && kind != GateRed
    ensures s.aborted || s.ledger.rate != {}
    ensures PlaceOf(s.ledger, Elements(s.worked), x) == Blocked
    ensures (Ref(p.project, x), kind) in after <==> (Ref(p.project, x), kind) in before
  {
    hide Bucket, Motives, Ledger.All, Ledger.Disjoint, PlaceOf, RanWell, Ready, Worked, Calls;
    NoPlaceNoMotive(p.project, s.ledger, x, kind);
    MotivesAreCalls(p.project, s.ledger, x, kind);
  }

  /** The run behind it: `x` and `y` are submitted, the rate limit of the organisation rejects `x`, and `y`,
      still in flight, fails while the pool is joined. */
  function BothFlying(initial: Roadmap, x: Slug, y: Slug): Board {
    Submit(Submit(Start(initial), 0, x), 1, y)
  }

  const REJECTED := Ran(Headless.Failure(Headless.RateLimit).(rateLimited := true))

  function LosingRun(initial: Roadmap, x: Slug, y: Slug): Board
    requires x in initial
  {
    Collect(BothFlying(initial, x, y), 0, REJECTED)
  }

  ghost predicate TwoReady(p: Plan, initial: Roadmap, x: Slug, y: Slug) {
    p.bound >= 2 && p.gate.None? && Listed(p, initial) && x != y && x in initial && y in initial
    && Ready(initial[x]) && Ready(initial[y])
  }

  lemma BothFlyingIsValid(p: Plan, initial: Roadmap, x: Slug, y: Slug)
    requires TwoReady(p, initial, x, y)
    ensures Valid(BothFlying(initial, x, y), p.bound, p.gate)
  {
    hide Valid, Ready;
    var b := Start(initial);
    StartIsValid(initial, p.bound, p.gate);
    SubmitKeeps(b, p.bound, p.gate, 0, x);
    SubmitKeeps(Submit(b, 0, x), p.bound, p.gate, 1, y);
  }

  lemma LosingRunIsValid(p: Plan, initial: Roadmap, x: Slug, y: Slug)
    requires TwoReady(p, initial, x, y)
    ensures var b := LosingRun(initial, x, y);
            Valid(b, p.bound, p.gate) && b.features == initial && b.inFlight == {y} && Throttled(b)
            && b.ledger.All() == {x} && Runs(b.log) == [Run(x, REJECTED)]
  {
    hide Valid;
    BothFlyingIsValid(p, initial, x, y);
    var b := BothFlying(initial, x, y);
    assert b.features == initial && b.inFlight == {x, y} && b.ledger == NOBODY && b.pending[0] == x;
    CollectKeeps(b, p.bound, p.gate, 0, REJECTED);
    assert initial[x := initial[x]] == initial;
    LosingLog(initial, x, y);
  }

  lemma LosingLog(initial: Roadmap, x: Slug, y: Slug)
    requires x in initial
    ensures Runs(LosingRun(initial, x, y).log) == [Run(x, REJECTED)]
  {
    hide ReportOf, Filed, Advanced;
    var log: seq<Event> := [Submitted(x), Submitted(y)];
    assert Start(initial).log + [Submitted(x)] == [Submitted(x)] && [Submitted(x)] + [Submitted(y)] == log;
    RunsGrow([], Submitted(x));
    RunsGrow([Submitted(x)], Submitted(y));
    RunsGrow(log, Collected(x, REJECTED));
    assert [] + [Submitted(x)] == [Submitted(x)];
  }

  lemma OneRejectionClosesNothing(initial: Roadmap, x: Slug, lost: map<Slug, Outcome>)
    requires forall s :: s in lost ==> !RanWell(lost[s])
    ensures Closes(initial, [Run(x, REJECTED)], lost, initial)
  {
    var runs := [Run(x, REJECTED)];
    assert runs[..0] == [];
    assert forall s :: Gains(runs, s) == 0;
  }

  lemma FlightsOfTheLog(p: Plan, b: Board)
    requires Valid(b, p.bound, p.gate)
    ensures InFlight(b.log) == b.inFlight && Safe(b.log, p.bound, p.gate)
  {
  }

  /** A silent block does happen, on every roadmap with two features ready and room for both: a safe run
      that nobody aborted ends with `y` failed, reported `blocked`, and no alert of this run about it. */
  lemma ABlockCanBeSilent(p: Plan, initial: Roadmap, x: Slug, y: Slug, before: set<Key>)
    returns (s: Summary, lost: map<Slug, Outcome>, log: seq<Event>, after: set<Key>)
    requires TwoReady(p, initial, x, y) && forall z :: z in initial ==> !Worked(initial[z])
    ensures Safe(log, p.bound, p.gate) && lost.Keys == InFlight(log)
    ensures Told(p, initial, s, lost) && Announced(p, s, before, after) && !s.aborted
    ensures y in lost && Breaks(lost[y]) && y in s.places[Blocked]
    ensures Closes(initial, Runs(log), lost, initial) && Recounted(s, Runs(log))
    ensures forall kind :: kind != GateRed ==>
              ((Ref(p.project, y), kind) in after <==> (Ref(p.project, y), kind) in before)
  {
    hide Valid, Bucket, Motives, LosingRun, Told, Announced, Safe, InFlight, Count, Closes, Recounted, Runs;
    LosingRunIsValid(p, initial, x, y);
    var b := LosingRun(initial, x, y);
    FlightsOfTheLog(p, b);
    lost := map[y := Ran(Headless.Failure(Headless.ExitCode(1)))];
    log := b.log;
    var l := b.ledger;
    var places: Places := map q: Place | true :: Bucket(p.order, initial, l, {}, q);
    s := Summarize(b.reports, l, [], places, false);
    after := before + Motives(p.project, l);
    assert Elements<Slug>([]) == {};
    TellsTheTruth(p, b, initial, lost, s);
    RecountsTheRuns(p, b, s);
    OneRejectionClosesNothing(initial, x, lost);
    forall z ensures z !in s.places[Drained] {
      BucketHolds(p.order, initial, l, {}, Drained, z);
    }
    AnnouncesAll(p, initial, s, before, after, after, after);
    BucketHolds(p.order, initial, l, {}, Blocked, y);
    forall kind | kind != GateRed
      ensures (Ref(p.project, y), kind) in after <==> (Ref(p.project, y), kind) in before
    {
      UncollectedBlocksAreSilent(p, initial, s, lost, before, after, y, kind);
    }
  }

  /** The other silence: one worker that raises -- its output need only hold one stray line, see
      `Headless.AStrayArrayRaises` -- or one finalisation takes the whole run down. No alert of this run then
      speaks of what was in flight, and a feature that drained keeps the alerts it had. */
  lemma ACrashIsSilent(p: Plan, l: Ledger, lost: map<Slug, Outcome>, before: set<Key>, after: set<Key>, x: Slug,
                       kind: Kind)
    requires CutOffBy(p, l, lost, before, after) && kind != GateRed
    ensures (Ref(p.project, x), kind) in after <==>
              (Ref(p.project, x), kind) in before || Calls(l, x, kind)
    ensures x in lost || x !in l.All() ==>
              ((Ref(p.project, x), kind) in after <==> (Ref(p.project, x), kind) in before)
  {
    if x in lost || x !in l.All() {
      NoPlaceNoMotive(p.project, l, x, kind);
    }
    MotivesAreCalls(p.project, l, x, kind);
    hide Motives, Ledger.All, Calls;
  }

  lemma NoPlaceNoMotive(project: nat, l: Ledger, x: Slug, kind: Kind)
    requires x !in l.All()
    ensures (Ref(project, x), kind) !in Motives(project, l)
  {
  }
}
