/** The parallel drain of a roadmap (`dispatch/orchestrator.py`): one assigning thread, up to
    `maxParallel` workers, one worker per feature.

    The board below is the set of local variables of `run_project`. A worker is a step with an
    arbitrary outcome that satisfies the contract of `worker.dispatch_next`; its effect on the tasks
    of its feature is applied when its future is collected (or joined), which the assigning thread
    cannot tell from any earlier instant since it never looks at a feature in flight. */
module DrainBoard {
  import opened Prelude
  import opened Alerts
  import Headless

  type Slug = nat
  type Ticket = nat

  /** A feature as the drain sees it. `inert`: merged or cancelled. `held`: a feature it depends on is not
      merged. The resolver will expose `left` tasks, one after the other; `stuck` more are unfinished and
      never become ready during the run. */
  datatype Feature = Feature(inert: bool, held: bool, left: nat, stuck: nat, done: nat)

  type Roadmap = map<Slug, Feature>

  predicate Ready(f: Feature) {
    !f.inert && !f.held && f.left > 0
  }

  /** Its work is finished: every task is done, and there is at least one. */
  predicate Worked(f: Feature) {
    !f.inert && f.left == 0 && f.stuck == 0 && f.done > 0
  }

  // --- one dispatch -------------------------------------------------------------------------------

  datatype Outcome = StaleBase | NeedsTerminal | NotDispatched | Ran(parsed: Headless.Parsed)

  datatype Report = Report(feature: Slug, ok: bool, needsRedrain: bool, needsTerminal: bool,
                           rateLimited: bool, interrupted: bool)

  /** The contract of `dispatch_next`: what ran was judged by the parser. */
  predicate Contract(o: Outcome) {
    o.Ran? ==> Headless.Exclusive(o.parsed)
  }

  /** `_dispatch_one`. */
  function ReportOf(s: Slug, o: Outcome): (r: Report)
    ensures r.feature == s
  {
    match o
    case StaleBase => Report(s, false, true, false, false, false)
    case NeedsTerminal => Report(s, false, false, true, false, false)
    case NotDispatched => Report(s, false, false, false, false, false)
    case Ran(p) => Report(s, p.ok, false, false, p.rateLimited, p.interrupted)
  }

  // What an outcome comes to: exactly one of these five.

  predicate RanWell(o: Outcome) { o.Ran? && o.parsed.ok }
  predicate AsksHuman(o: Outcome) { o.NeedsTerminal? }
  predicate Throttles(o: Outcome) { o.Ran? && o.parsed.rateLimited }
  predicate Stopped(o: Outcome) { o.Ran? && o.parsed.interrupted }
  predicate Breaks(o: Outcome) {
    o.StaleBase? || o.NotDispatched? || (o.Ran? && !o.parsed.ok && !o.parsed.rateLimited && !o.parsed.interrupted)
  }

  /** REPORTED, exactly: a run is `ok` if and only if it ran and its output was judged a success; it needs a
      terminal, or a new drain, if and only if it never ran for that reason; and it is held if and only if
      its output says so. */
  lemma ReportFollows(s: Slug, o: Outcome)
    ensures var r := ReportOf(s, o);
            r.feature == s && (r.ok <==> o.Ran? && o.parsed.ok)
            && (r.needsTerminal <==> o == NeedsTerminal) && (r.needsRedrain <==> o == StaleBase)
            && (r.rateLimited <==> o.Ran? && o.parsed.rateLimited)
            && (r.interrupted <==> o.Ran? && o.parsed.interrupted)
    ensures Contract(o) ==>
              (AsksTerminal(ReportOf(s, o)) <==> AsksHuman(o)) && (AsksPatience(ReportOf(s, o)) <==> Throttles(o))
              && (WasCut(ReportOf(s, o)) <==> Stopped(o)) && (Failed(ReportOf(s, o)) <==> Breaks(o))
  {
  }

  /** Success closes the NEXT task; anything else leaves it to be done. */
  function Advanced(f: Feature, ok: bool): Feature {
    if ok && f.left > 0 then f.(left := f.left - 1, done := f.done + 1) else f
  }

  // --- the ledger of features not to submit again -----------------------------------------------------

  datatype Ledger = Ledger(failed: set<Slug>, interview: set<Slug>, socle: set<Slug>,
                           rate: set<Slug>, interrupted: set<Slug>)
  {
    function All(): set<Slug> {
      failed + interview + socle + rate + interrupted
    }

    ghost predicate Disjoint() {
      && failed !! interview && failed !! socle && failed !! rate && failed !! interrupted
      && interview !! socle && interview !! rate && interview !! interrupted
      && socle !! rate && socle !! interrupted && rate !! interrupted
    }
  }

  const NOBODY: Ledger := Ledger({}, {}, {}, {}, {})

  /** The chain of tests that files a report. */
  function Filed(l: Ledger, r: Report): Ledger {
    if r.needsTerminal then l.(interview := l.interview + {r.feature})
    else if r.rateLimited then l.(rate := l.rate + {r.feature})
    else if r.interrupted then l.(interrupted := l.interrupted + {r.feature})
    else if !r.ok then l.(failed := l.failed + {r.feature})
    else l
  }

  /** `_emit_report_alert`: the motive of the alert, none for a success. */
  function Motive(r: Report): Option<Kind> {
    if r.needsTerminal then Some(InterviewHold)
    else if r.rateLimited then Some(RateLimited)
    else if r.interrupted then Some(Interrupted)
    else if r.needsRedrain || !r.ok then Some(WorkerFailed)
    else None
  }

  function Keys(project: nat, s: set<Slug>, kind: Kind): set<Key> {
    set x | x in s :: (Ref(project, x), kind)
  }

  /** The alerts that the ledger calls for. */
  function Motives(project: nat, l: Ledger): set<Key> {
    Keys(project, l.failed, WorkerFailed) + Keys(project, l.interview, InterviewHold)
    + Keys(project, l.socle, SocleHold) + Keys(project, l.rate, RateLimited)
    + Keys(project, l.interrupted, Interrupted)
  }

  // --- the log ------------------------------------------------------------------------------------------

  datatype Event = Submitted(slug: Slug) | Collected(slug: Slug, outcome: Outcome)

  /** Submitted and not collected yet. */
  function InFlight(log: seq<Event>): set<Slug> {
    if log == [] then {}
    else
      match log[|log| - 1]
      case Submitted(s) => InFlight(log[..|log| - 1]) + {s}
      case Collected(s, _) => InFlight(log[..|log| - 1]) - {s}
  }

  /** Collected at least once without success. */
  function Excluded(log: seq<Event>): set<Slug> {
    if log == [] then {}
    else
      match log[|log| - 1]
      case Submitted(_) => Excluded(log[..|log| - 1])
      case Collected(s, o) => Excluded(log[..|log| - 1]) + if RanWell(o) then {} else {s}
  }

  /** SAFETY, read off the log alone: a feature is never in flight twice, the bound is never exceeded,
      a feature that failed or is held is never submitted again, and while the base feature is not
      merged nothing else is submitted. `gate` is that base feature. */
  ghost predicate Safe(log: seq<Event>, bound: nat, gate: Option<Slug>) {
    log == [] ||
    (Safe(log[..|log| - 1], bound, gate) &&
     var before := log[..|log| - 1];
     match log[|log| - 1]
     case Submitted(s) =>
       s !in InFlight(before) && |InFlight(before)| < bound && s !in Excluded(before)
       && (gate.Some? ==> s == gate.value)
     case Collected(s, _) => s in InFlight(before))
  }

  lemma LogGrows(log: seq<Event>, e: Event, bound: nat, gate: Option<Slug>)
    ensures InFlight(log + [e]) == match e case Submitted(s) => InFlight(log) + {s}
                                           case Collected(s, _) => InFlight(log) - {s}
    ensures Excluded(log + [e]) == match e case Submitted(_) => Excluded(log)
                                           case Collected(s, o) => Excluded(log) + if RanWell(o) then {} else {s}
    ensures Safe(log + [e], bound, gate) <==>
              Safe(log, bound, gate)
              && match e
                 case Submitted(s) => s !in InFlight(log) && |InFlight(log)| < bound && s !in Excluded(log)
                                      && (gate.Some? ==> s == gate.value)
                 case Collected(s, _) => s in InFlight(log)
  {
    assert (log + [e])[..|log|] == log;
  }

  /** A run that was collected. */
  datatype Run = Run(slug: Slug, outcome: Outcome)

  /** The runs collected, in order. */
  function Runs(log: seq<Event>): seq<Run> {
    if log == [] then []
    else
      match log[|log| - 1]
      case Submitted(_) => Runs(log[..|log| - 1])
      case Collected(s, o) => Runs(log[..|log| - 1]) + [Run(s, o)]
  }

  /** How many of the runs of `s` went well: the tasks it has closed. */
  function Gains(runs: seq<Run>, s: Slug): nat {
    if runs == [] then 0
    else
      var r := runs[|runs| - 1];
      Gains(runs[..|runs| - 1], s) + if r.slug == s && RanWell(r.outcome) then 1 else 0
  }

  function Tally(runs: seq<Run>, p: Outcome -> bool): nat {
    if runs == [] then 0 else Tally(runs[..|runs| - 1], p) + if p(runs[|runs| - 1].outcome) then 1 else 0
  }

  /** The features one of whose runs came to `p`. */
  function Having(runs: seq<Run>, p: Outcome -> bool): set<Slug> {
    set r | r in runs && p(r.outcome) :: r.slug
  }

  lemma RunsGrow(log: seq<Event>, e: Event)
    ensures Runs(log + [e]) == Runs(log) + match e case Submitted(_) => [] case Collected(s, o) => [Run(s, o)]
  {
    assert (log + [e])[..|log|] == log;
  }

  lemma GainsGrow(runs: seq<Run>, r: Run, s: Slug)
    ensures Gains(runs + [r], s) == Gains(runs, s) + if r.slug == s && RanWell(r.outcome) then 1 else 0
  {
    assert (runs + [r])[..|runs|] == runs;
  }

  lemma HavingGrows(runs: seq<Run>, r: Run, p: Outcome -> bool)
    ensures Having(runs + [r], p) == Having(runs, p) + if p(r.outcome) then {r.slug} else {}
    ensures Tally(runs + [r], p) == Tally(runs, p) + if p(r.outcome) then 1 else 0
  {
    assert (runs + [r])[..|runs|] == runs;
  }

  // --- the board ------------------------------------------------------------------------------------------

  datatype Board = Board(features: Roadmap, ledger: Ledger, inFlight: set<Slug>, pending: map<Ticket, Slug>,
                         reports: seq<Report>, log: seq<Event>)

  function Count(reports: seq<Report>, p: Report -> bool): nat {
    if reports == [] then 0
    else Count(reports[..|reports| - 1], p) + if p(reports[|reports| - 1]) then 1 else 0
  }

  lemma CountGrows(reports: seq<Report>, r: Report, p: Report -> bool)
    ensures Count(reports + [r], p) == Count(reports, p) + if p(r) then 1 else 0
  {
    assert (reports + [r])[..|reports|] == reports;
  }

  predicate Succeeded(r: Report) { r.ok }
  predicate AsksTerminal(r: Report) { r.needsTerminal }
  predicate AsksPatience(r: Report) { r.rateLimited }
  predicate WasCut(r: Report) { r.interrupted }
  predicate Failed(r: Report) { !r.ok && !r.needsTerminal && !r.rateLimited && !r.interrupted }

  /** Exactly one of the five things a report can say. */
  predicate Single(r: Report) {
    && !(r.ok && r.needsTerminal) && !(r.ok && r.rateLimited) && !(r.ok && r.interrupted)
    && !(r.needsTerminal && r.rateLimited) && !(r.needsTerminal && r.interrupted) && !(r.rateLimited && r.interrupted)
  }

  ghost predicate Counted(reports: seq<Report>, l: Ledger) {
    && |l.failed| == Count(reports, Failed) && |l.interview| == Count(reports, AsksTerminal)
    && |l.rate| == Count(reports, AsksPatience) && |l.interrupted| == Count(reports, WasCut)
    && |reports| == Count(reports, Succeeded) + Count(reports, AsksTerminal) + Count(reports, AsksPatience)
                    + Count(reports, WasCut) + Count(reports, Failed)
  }

  /** The mutex: the slugs in flight are those of the pending futures, one future each. */
  ghost predicate Mutex(b: Board, bound: nat) {
    && b.inFlight == b.pending.Values
    && (forall t, u :: t in b.pending && u in b.pending && b.pending[t] == b.pending[u] ==> t == u)
    && |b.inFlight| <= bound
    && (forall s :: s in b.inFlight ==> s in b.features && Ready(b.features[s]))
  }

  /** The ledger: one place per feature, and none for a feature in flight. */
  ghost predicate Filing(b: Board, gate: Option<Slug>) {
    && b.ledger.Disjoint() && b.ledger.All() !! b.inFlight
    && (forall s :: s in b.ledger.All() ==> s in b.features && Ready(b.features[s]))
    && (gate.None? ==> b.ledger.socle == {}) && (gate.Some? ==> gate.value !in b.ledger.socle)
  }

  function Unsuccessful(l: Ledger): set<Slug> {
    l.failed + l.interview + l.rate + l.interrupted
  }

  /** The reports are those of the runs collected, and each place of the ledger holds exactly the features that
      a run sent there. */
  ghost predicate Recorded(reports: seq<Report>, l: Ledger, runs: seq<Run>) {
    && |reports| == |runs| && (forall i :: 0 <= i < |runs| ==> reports[i] == ReportOf(runs[i].slug, runs[i].outcome))
    && (forall i :: 0 <= i < |runs| ==> Contract(runs[i].outcome))
    && l.failed == Having(runs, Breaks) && l.interview == Having(runs, AsksHuman)
    && l.rate == Having(runs, Throttles) && l.interrupted == Having(runs, Stopped)
  }

  ghost predicate Valid(b: Board, bound: nat, gate: Option<Slug>) {
    && Mutex(b, bound) && Filing(b, gate) && Counted(b.reports, b.ledger) && Recorded(b.reports, b.ledger, Runs(b.log))
    && b.inFlight == InFlight(b.log) && Excluded(b.log) == Unsuccessful(b.ledger)
    && Safe(b.log, bound, gate)
  }

  /** What `run_project` may submit. */
  predicate Discoverable(b: Board, s: Slug) {
    s in b.features && Ready(b.features[s]) && s !in b.inFlight && s !in b.ledger.All()
  }

  function Start(features: Roadmap): Board {
    Board(features, NOBODY, {}, map[], [], [])
  }

  /** A work feature waits for the base feature to be merged. */
  function Hold(b: Board, s: Slug): Board {
    b.(ledger := b.ledger.(socle := b.ledger.socle + {s}))
  }

  function Submit(b: Board, t: Ticket, s: Slug): Board {
    b.(inFlight := b.inFlight + {s}, pending := b.pending[t := s], log := b.log + [Submitted(s)])
  }

  function Collect(b: Board, t: Ticket, o: Outcome): Board
    requires t in b.pending && b.pending[t] in b.features
  {
    var s := b.pending[t];
    var r := ReportOf(s, o);
    Board(b.features[s := Advanced(b.features[s], r.ok)], Filed(b.ledger, r), b.inFlight - {s}, b.pending - {t},
          b.reports + [r], b.log + [Collected(s, o)])
  }

  // --- every step keeps the board valid -----------------------------------------------------------------

  lemma StartIsValid(features: Roadmap, bound: nat, gate: Option<Slug>)
    ensures Valid(Start(features), bound, gate)
  {
  }

  /** A feature that had no place gets one. */
  lemma OnePlaceMore(l: Ledger, s: Slug)
    requires l.Disjoint() && s !in l.All()
    ensures l.(failed := l.failed + {s}).Disjoint() && l.(failed := l.failed + {s}).All() == l.All() + {s}
    ensures l.(interview := l.interview + {s}).Disjoint() && l.(interview := l.interview + {s}).All() == l.All() + {s}
    ensures l.(socle := l.socle + {s}).Disjoint() && l.(socle := l.socle + {s}).All() == l.All() + {s}
    ensures l.(rate := l.rate + {s}).Disjoint() && l.(rate := l.rate + {s}).All() == l.All() + {s}
    ensures l.(interrupted := l.interrupted + {s}).Disjoint()
            && l.(interrupted := l.interrupted + {s}).All() == l.All() + {s}
  {
  }

  lemma FiledOnce(l: Ledger, r: Report)
    requires l.Disjoint() && r.feature !in l.All() && Single(r)
    ensures Filed(l, r).Disjoint() && Filed(l, r).socle == l.socle
    ensures Filed(l, r).All() == l.All() + if r.ok then {} else {r.feature}
    ensures Unsuccessful(Filed(l, r)) == Unsuccessful(l) + if r.ok then {} else {r.feature}
  {
    OnePlaceMore(l, r.feature);
  }

  lemma HoldKeeps(b: Board, bound: nat, gate: Option<Slug>, s: Slug)
    requires Valid(b, bound, gate) && Discoverable(b, s) && gate.Some? && gate != Some(s)
    ensures Valid(Hold(b, s), bound, gate)
  {
    hide Safe, InFlight, Excluded, Count, Mutex, Runs, Recorded;
    RecordedBesidesTheSocle(b.reports, b.ledger, Hold(b, s).ledger, Runs(b.log));
    HoldKeepsTheLedger(b, gate, s);
    MutexIsAboutFlights(b, Hold(b, s), bound);
    hide Filing;
  }

  lemma RecordedBesidesTheSocle(reports: seq<Report>, l: Ledger, m: Ledger, runs: seq<Run>)
    requires Recorded(reports, l, runs) && m == l.(socle := m.socle)
    ensures Recorded(reports, m, runs)
  {
  }

  lemma HoldKeepsTheLedger(b: Board, gate: Option<Slug>, s: Slug)
    requires Filing(b, gate) && Discoverable(b, s) && gate.Some? && gate != Some(s)
    ensures Filing(Hold(b, s), gate)
  {
    hide Ledger.Disjoint, Ledger.All;
    OnePlaceMore(b.ledger, s);
  }

  lemma MutexIsAboutFlights(b: Board, c: Board, bound: nat)
    requires Mutex(b, bound) && c == b.(ledger := c.ledger)
    ensures Mutex(c, bound)
  {
  }

  lemma SubmitKeeps(b: Board, bound: nat, gate: Option<Slug>, t: Ticket, s: Slug)
    requires Valid(b, bound, gate) && Discoverable(b, s) && t !in b.pending && |b.inFlight| < bound
    requires gate.None? || gate == Some(s)
    ensures Valid(Submit(b, t, s), bound, gate)
  {
    hide Safe, Counted, InFlight, Excluded, Mutex, Filing, Recorded, Runs;
    LogGrows(b.log, Submitted(s), bound, gate);
    RunsGrow(b.log, Submitted(s));
    assert Runs(b.log) + [] == Runs(b.log);
    assert s !in Unsuccessful(b.ledger);
    SubmitKeepsTheMutex(b, bound, t, s);
    assert Filing(Submit(b, t, s), gate) by {
      SubmitKeepsTheLedger(b, gate, t, s);
    }
    assert b.inFlight == b.pending.Values by {
      MutexMeans(b, bound);
    }
  }

  lemma MutexMeans(b: Board, bound: nat)
    requires Mutex(b, bound)
    ensures b.inFlight == b.pending.Values && b.inFlight <= b.features.Keys
    ensures forall t :: t in b.pending ==> b.pending[t] in b.inFlight
  {
  }

  lemma SubmitKeepsTheLedger(b: Board, gate: Option<Slug>, t: Ticket, s: Slug)
    requires Filing(b, gate) && s !in b.ledger.All()
    ensures Filing(Submit(b, t, s), gate)
  {
  }

  lemma SubmitKeepsTheMutex(b: Board, bound: nat, t: Ticket, s: Slug)
    requires Mutex(b, bound) && t !in b.pending && s !in b.inFlight && |b.inFlight| < bound
    requires s in b.features && Ready(b.features[s])
    ensures Mutex(Submit(b, t, s), bound)
  {
    var more := b.pending[t := s];
    assert more.Values == b.pending.Values + {s} by {
      assert more[t] == s;
      forall x | x in b.pending.Values ensures x in more.Values {
        var u :| u in b.pending && b.pending[u] == x;
        assert more[u] == x;
      }
    }
  }

  lemma CollectKeeps(b: Board, bound: nat, gate: Option<Slug>, t: Ticket, o: Outcome)
    requires Valid(b, bound, gate) && t in b.pending && Contract(o)
    ensures b.pending[t] in b.features && b.pending[t] in b.inFlight && b.pending[t] !in b.ledger.All()
            && Ready(b.features[b.pending[t]])
    ensures Valid(Collect(b, t, o), bound, gate)
  {
    hide Safe, InFlight, Excluded, Counted, Recorded, Runs;
    var s := b.pending[t];
    assert s in b.inFlight;
    LogGrows(b.log, Collected(s, o), bound, gate);
    RunsGrow(b.log, Collected(s, o));
    CollectRecords(b, t, o);
    ReportFollows(s, o);
    CollectCounts(b, t, o);
    CollectKeepsTheMutex(b, bound, t, o);
    CollectKeepsTheLedger(b, bound, gate, t, o);
    hide Mutex, Filing;
  }

  lemma CollectRecords(b: Board, t: Ticket, o: Outcome)
    requires t in b.pending && b.pending[t] in b.features && Contract(o)
    requires Recorded(b.reports, b.ledger, Runs(b.log))
    ensures var c := Collect(b, t, o);
            Recorded(c.reports, c.ledger, Runs(b.log) + [Run(b.pending[t], o)])
  {
    hide Runs, Having;
    var runs, r := Runs(b.log), Run(b.pending[t], o);
    ReportFollows(r.slug, o);
    HavingGrows(runs, r, Breaks);
    HavingGrows(runs, r, AsksHuman);
    HavingGrows(runs, r, Throttles);
    HavingGrows(runs, r, Stopped);
    assert forall l: set<Slug> :: l + {} == l;
  }

  lemma CollectKeepsTheMutex(b: Board, bound: nat, t: Ticket, o: Outcome)
    requires Mutex(b, bound) && t in b.pending
    ensures b.pending[t] in b.features && Mutex(Collect(b, t, o), bound)
  {
    var s := b.pending[t];
    assert s in b.inFlight;
    var fewer := b.pending - {t};
    assert fewer.Values == b.pending.Values - {s} by {
      forall x | x in b.pending.Values && x != s ensures x in fewer.Values {
        var u :| u in b.pending && b.pending[u] == x;
        assert u in fewer && fewer[u] == x;
      }
    }
  }

  lemma CollectKeepsTheLedger(b: Board, bound: nat, gate: Option<Slug>, t: Ticket, o: Outcome)
    requires Mutex(b, bound) && Filing(b, gate) && t in b.pending && Contract(o)
    ensures b.pending[t] in b.features && Filing(Collect(b, t, o), gate)
    ensures Unsuccessful(Collect(b, t, o).ledger)
         == Unsuccessful(b.ledger) + if ReportOf(b.pending[t], o).ok then {} else {b.pending[t]}
  {
    hide Ledger.Disjoint, Ledger.All, Filed, Unsuccessful;
    assert b.pending[t] in b.inFlight;
    FiledOnce(b.ledger, ReportOf(b.pending[t], o));
  }

  lemma CollectCounts(b: Board, t: Ticket, o: Outcome)
    requires t in b.pending && b.pending[t] in b.features && b.pending[t] !in b.ledger.All() && Contract(o)
    requires Counted(b.reports, b.ledger)
    ensures Counted(Collect(b, t, o).reports, Collect(b, t, o).ledger)
  {
    hide Counted, ReportOf, Filed;
    ReportFollows(b.pending[t], o);
    CountedMore(b.reports, b.ledger, ReportOf(b.pending[t], o));
  }

  lemma CountedMore(reports: seq<Report>, l: Ledger, r: Report)
    requires Counted(reports, l) && Single(r) && r.feature !in l.All()
    ensures Counted(reports + [r], Filed(l, r))
  {
    hide Count, Filed, Ledger.All;
    FiledSizes(l, r);
    CountGrows(reports, r, Succeeded);
    CountGrows(reports, r, AsksTerminal);
    CountGrows(reports, r, AsksPatience);
    CountGrows(reports, r, WasCut);
    CountGrows(reports, r, Failed);
  }

  lemma FiledSizes(l: Ledger, r: Report)
    requires Single(r) && r.feature !in l.All()
    ensures var m := Filed(l, r);
            |m.failed| == |l.failed| + (if Failed(r) then 1 else 0)
            && |m.interview| == |l.interview| + (if r.needsTerminal then 1 else 0)
            && |m.rate| == |l.rate| + (if r.rateLimited then 1 else 0)
            && |m.interrupted| == |l.interrupted| + (if r.interrupted then 1 else 0)
  {
  }

  // --- termination ----------------------------------------------------------------------------------------

  function Load(features: Roadmap, out: set<Slug>, s: Slug): nat {
    if s !in features || s in out then 0 else features[s].left + 1
  }

  /** The work that may still be dispatched: what decreases. */
  function Weight(order: seq<Slug>, features: Roadmap, out: set<Slug>): nat {
    if order == [] then 0 else Load(features, out, order[0]) + Weight(order[1..], features, out)
  }

  lemma {:induction false} WeightFalls(order: seq<Slug>, f: Roadmap, out: set<Slug>, g: Roadmap, more: set<Slug>,
                                       s: Slug)
    requires forall x :: Load(g, more, x) <= Load(f, out, x)
    requires Load(g, more, s) < Load(f, out, s)
    ensures Weight(order, g, more) <= Weight(order, f, out)
    ensures s in order ==> Weight(order, g, more) < Weight(order, f, out)
  {
    if order != [] {
      WeightFalls(order[1..], f, out, g, more, s);
    }
  }

  /** Each collected run finishes a task or excludes its feature: the work left strictly decreases. */
  lemma CollectWeighs(b: Board, t: Ticket, o: Outcome, order: seq<Slug>)
    requires t in b.pending && b.pending[t] in b.features && b.pending[t] in order
    requires Ready(b.features[b.pending[t]]) && b.pending[t] !in b.ledger.All() && Contract(o)
    ensures var c := Collect(b, t, o);
            Weight(order, c.features, c.ledger.All()) < Weight(order, b.features, b.ledger.All())
  {
    hide Weight;
    var c := Collect(b, t, o);
    var s := b.pending[t];
    forall x ensures Load(c.features, c.ledger.All(), x) <= Load(b.features, b.ledger.All(), x) {
      assert x in b.ledger.All() ==> x in c.ledger.All();
    }
    WeightFalls(order, b.features, b.ledger.All(), c.features, c.ledger.All(), s);
  }

  lemma {:induction false} HoldWeighs(order: seq<Slug>, features: Roadmap, out: set<Slug>, more: set<Slug>)
    requires out <= more
    ensures Weight(order, features, more) <= Weight(order, features, out)
  {
    if order != [] {
      HoldWeighs(order[1..], features, out, more);
    }
  }
}
