/** `run_feature` (`dispatch/orchestrator.py`): the tasks of ONE feature, one worker at a time, then the
    finalisation and the accounting it shares with `run_project`. */
module DrainFeature {
  import opened Prelude
  import opened Alerts
  import opened DrainBoard
  import opened DrainRun
  import opened Stamps

  const NOWHERE: Places := map[Drained := [], AtInterview := [], AtSocle := [], AtRateLimit := [], CutOff := [],
                               Broken := [], Blocked := []]

  /** The runs of one feature: successes, each of which closes one task, then at most one run that does not. */
  ghost predicate OneByOne(slug: Slug, before: Feature, after: Feature, runs: seq<Run>) {
    (forall i :: 0 <= i < |runs| ==> runs[i].slug == slug && Contract(runs[i].outcome))
    && (forall i :: 0 <= i < |runs| - 1 ==> RanWell(runs[i].outcome))
    && Wells(runs) <= before.left && after == Ahead(before, Wells(runs))
  }

  /** How many of them went well: all, but the last when it did not. */
  function Wells(runs: seq<Run>): nat {
    if runs == [] || RanWell(runs[|runs| - 1].outcome) then |runs| else |runs| - 1
  }

  ghost predicate AllWell(runs: seq<Run>) {
    forall i :: 0 <= i < |runs| ==> RanWell(runs[i].outcome)
  }

  /** The reports of these runs. */
  ghost predicate Reported(runs: seq<Run>, reports: seq<Report>) {
    |reports| == |runs| && forall i :: 0 <= i < |runs| ==> reports[i] == ReportOf(runs[i].slug, runs[i].outcome)
  }

  /** A worker raised after these successes, its own task advanced or not, and reported nothing. */
  ghost predicate CutShort(slug: Slug, before: Feature, after: Feature, runs: seq<Run>) {
    AllWell(runs) && (forall i :: 0 <= i < |runs| ==> runs[i].slug == slug && Contract(runs[i].outcome))
    && |runs| < before.left
    && exists n :: |runs| <= n <= |runs| + 1 && n <= before.left && after == Ahead(before, n)
  }

  /** `run_feature`'s loop. Unlike `run_project`, it asks the resolver of the TASKS only: a feature that
      waits for another one to be merged (`held`), or is itself merged, is drained all the same. `abort(k)` is
      whether a human has asked to stop before run `k`. */
  method DrainTasks(slug: Slug, f0: Feature, abort: nat -> bool)
    returns (f: Feature, reports: seq<Report>, aborted: bool, raised: bool, ghost runs: seq<Run>)
    ensures Reported(runs, reports)
    ensures !raised ==> OneByOne(slug, f0, f, runs)
    ensures !raised && !aborted && (runs == [] || RanWell(runs[|runs| - 1].outcome)) ==> f.left == 0
    ensures !raised && f0.left > 0 && !aborted ==> runs != []
    ensures raised ==> CutShort(slug, f0, f, runs)
    ensures (forall k :: 0 <= k < |runs| ==> !abort(k)) && (raised ==> !abort(|runs|))
    ensures !raised ==> (aborted <==> AllWell(runs) && abort(|runs|))
  {
    hide OneByOne, AllWell, Contract, ReportOf, CutShort, Reported, RanWell;
    f, reports, aborted, raised, runs := f0, [], false, false, [];
    NoneYet(slug, f0);
    while f.left > 0
      invariant !raised && OneByOne(slug, f0, f, runs) && AllWell(runs) && Reported(runs, reports)
      invariant f0.left > 0 && runs == [] ==> f.left > 0
      invariant |reports| == |runs| && forall k :: 0 <= k < |runs| ==> !abort(k)
      decreases f.left
    {
      aborted := abort(|reports|);
      if aborted {
        return;
      }
      var returned := WorkerReturns();
      if returned.None? {
        raised := true;
        var advanced: bool := *;
        RaisedHere(slug, f0, f, runs, advanced);
        f := Advanced(f, advanced);
        return;
      }
      var o := returned.value;
      ReportFollows(slug, o);
      var r := ReportOf(slug, o);
      OneMore(slug, f0, f, runs, reports, o);
      reports, runs := reports + [r], runs + [Run(slug, o)];
      f := Advanced(f, r.ok);
      if !r.ok {
        return;
      }
    }
    aborted := abort(|reports|);
  }

  lemma NoneYet(slug: Slug, f: Feature)
    ensures OneByOne(slug, f, f, []) && AllWell([]) && Reported([], [])
  {
  }

  lemma RaisedHere(slug: Slug, before: Feature, f: Feature, runs: seq<Run>, advanced: bool)
    requires OneByOne(slug, before, f, runs) && AllWell(runs) && f.left > 0
    ensures CutShort(slug, before, Advanced(f, advanced), runs)
  {
    hide Contract, RanWell;
    var n := |runs| + if advanced then 1 else 0;
    assert n <= before.left && Advanced(f, advanced) == Ahead(before, n);
  }

  lemma OneMore(slug: Slug, before: Feature, f: Feature, runs: seq<Run>, reports: seq<Report>, o: Outcome)
    requires OneByOne(slug, before, f, runs) && AllWell(runs) && Reported(runs, reports) && f.left > 0 && Contract(o)
    ensures OneByOne(slug, before, Advanced(f, ReportOf(slug, o).ok), runs + [Run(slug, o)])
    ensures Reported(runs + [Run(slug, o)], reports + [ReportOf(slug, o)])
    ensures RanWell(o) <==> AllWell(runs + [Run(slug, o)])
    ensures ReportOf(slug, o).ok <==> RanWell(o)
  {
    hide Contract;
    ReportFollows(slug, o);
    assert ReportOf(slug, o).ok <==> RanWell(o);
    hide ReportOf, RanWell;
    var more := runs + [Run(slug, o)];
    assert Wells(runs) == |runs| && Wells(more) == |runs| + if RanWell(o) then 1 else 0;
    forall i | 0 <= i < |more|
      ensures more[i].slug == slug && Contract(more[i].outcome) && (i < |runs| ==> RanWell(more[i].outcome))
    {
      assert more[i] == if i < |runs| then runs[i] else Run(slug, o);
    }
  }

  /** What `run_feature` reports on a feature that is not gated: the figures, and the place, are those of its
      runs. */
  ghost predicate FeatureTold(p: Plan, slug: Slug, features: Roadmap, runs: seq<Run>, s: Summary) {
    && slug in p.roadmap && slug in features && features == p.roadmap[slug := features[slug]]
    && OneByOne(slug, p.roadmap[slug], features[slug], runs)
    && Recounted(s, runs) && s.ledger.socle == {} && s.failed == |s.ledger.failed|
    && (p.roadmap[slug].left > 0 && !s.aborted ==> runs != [])
    && (!s.aborted && s.ledger == NOBODY ==> features[slug].left == 0)
    && (forall x :: x in s.worked <==> x in p.order && x in features && Worked(features[x]) && x !in s.ledger.All())
    && (forall q :: q in s.places && s.places[q] == Bucket(p.order, features, s.ledger, Elements(s.worked), q))
  }

  /** The ledger of one feature: its last report, if it is a block. */
  function LedgerOf(reports: seq<Report>): Ledger {
    if reports == [] then NOBODY else Filed(NOBODY, reports[|reports| - 1])
  }

  /** `run_feature` raised: its worker did, with tasks left; or the finalisation of the finished feature. Only what
      was collected is announced: the alerts the feature had are still open. */
  ghost predicate FeatureCut(p: Plan, slug: Slug, gates: Slug -> Gate, features: Roadmap, runs: seq<Run>,
                             before: set<Key>, after: set<Key>)
  {
    && slug in p.roadmap && slug in features && features == p.roadmap[slug := features[slug]]
    && (CutShort(slug, p.roadmap[slug], features[slug], runs)
        || (OneByOne(slug, p.roadmap[slug], features[slug], runs) && gates(slug) == Raises && Worked(features[slug])))
    && (forall k: Key :: k.0 != Ref(p.project, slug) ==> (k in before <==> k in after))
    && (forall kind :: (Ref(p.project, slug), kind) in after <==>
          (Ref(p.project, slug), kind) in before || (runs != [] && Blocks(runs[|runs| - 1].outcome, kind)))
  }

  /** The outcome calls for this alert. */
  predicate Blocks(o: Outcome, kind: Kind) {
    match kind
    case WorkerFailed => Breaks(o)
    case InterviewHold => AsksHuman(o)
    case RateLimited => Throttles(o)
    case Interrupted => Stopped(o)
    case _ => false
  }

  /** `run_feature`, gated when the base feature is not merged and this is another one. No summary: it raised.
      `runs` holds the outcome of every run that returned. */
  method RunFeature(p: Plan, slug: Slug, abort: nat -> bool, gates: Slug -> Gate, alerts: AlertTable, now: nat)
    returns (summary: Option<Summary>, features: Roadmap, ghost runs: seq<Run>)
    requires alerts.Valid() && slug in p.roadmap && Listed(p, p.roadmap)
    modifies alerts
    ensures alerts.Valid()
    ensures p.gate.Some? && p.gate.value != slug ==>
              runs == [] && features == p.roadmap
              && summary == Some(Summary(0, 0, 0, Ledger({}, {}, {slug}, {}, {}), [], NOWHERE, false))
              && OpenKeys(alerts.rows) == old(OpenKeys(alerts.rows)) + {(Ref(p.project, slug), SocleHold)}
              && alerts.rows == Upserted(old(alerts.rows), old(alerts.nextId), (Ref(p.project, slug), SocleHold),
                                         Notice(Warn, "waits for the base feature"), now)
    ensures (p.gate.None? || p.gate == Some(slug)) && summary.Some? ==>
              FeatureTold(p, slug, features, runs, summary.value)
              && Announced(p, summary.value, old(OpenKeys(alerts.rows)), OpenKeys(alerts.rows))
              && Gated(p.project, if slug in summary.value.worked then [slug] else [], gates,
                       old(OpenKeys(alerts.rows)), OpenKeys(alerts.rows))
              && (slug in summary.value.worked ==> gates(slug) != Raises)
              && (summary.value.aborted <==> AllWell(runs) && abort(|runs|))
    ensures forall k :: 0 <= k < |runs| ==> !abort(k)
    ensures summary.None? ==>
              FeatureCut(p, slug, gates, features, runs, old(OpenKeys(alerts.rows)), OpenKeys(alerts.rows))
  {
    if p.gate.Some? && p.gate.value != slug {
      alerts.Emit((Ref(p.project, slug), SocleHold), Notice(Warn, "waits for the base feature"), now, true);
      summary := Some(Summarize([], NOBODY.(socle := {slug}), [], NOWHERE, false));
      features, runs := p.roadmap, [];
    } else {
      hide FeatureTold, FeatureCut, Announced, OpenKeys, Gated;
      summary, features, runs := DrainAndFinalize(p, slug, abort, gates, alerts, now);
    }
  }

  method DrainAndFinalize(p: Plan, slug: Slug, abort: nat -> bool, gates: Slug -> Gate, alerts: AlertTable, now: nat)
    returns (summary: Option<Summary>, features: Roadmap, ghost runs: seq<Run>)
    requires alerts.Valid() && slug in p.roadmap && Listed(p, p.roadmap)
    modifies alerts
    ensures alerts.Valid()
    ensures summary.Some? ==>
              FeatureTold(p, slug, features, runs, summary.value)
              && Announced(p, summary.value, old(OpenKeys(alerts.rows)), OpenKeys(alerts.rows))
              && Gated(p.project, if slug in summary.value.worked then [slug] else [], gates,
                       old(OpenKeys(alerts.rows)), OpenKeys(alerts.rows))
              && (slug in summary.value.worked ==> gates(slug) != Raises)
              && (summary.value.aborted <==> AllWell(runs) && abort(|runs|))
    ensures forall k :: 0 <= k < |runs| ==> !abort(k)
    ensures summary.None? ==>
              FeatureCut(p, slug, gates, features, runs, old(OpenKeys(alerts.rows)), OpenKeys(alerts.rows))
  {
    hide CutShort, FeatureCut, FeatureTold, Motives, OpenKeys, Announced, Upserted, OneByOne, AlertTable.Valid, Motive,
         Reported, RanWell, Gated, AllWell;
    ghost var base := OpenKeys(alerts.rows);
    var f, reports, aborted, raised;
    f, reports, aborted, raised, runs := DrainTasks(slug, p.roadmap[slug], abort);
    features := p.roadmap[slug := f];
    var l := LedgerOf(reports);
    NobodyHasMotives(p.project);
    if raised {
      CutIsSilent(p, slug, gates, features, runs, base);
      return None, features, runs;
    }
    if reports != [] {
      LastIsActionable(slug, p.roadmap[slug], f, runs, reports);
      MotivesFollowTheLedger(p.project, NOBODY, reports[|reports| - 1]);
      EmitReportAlert(p.project, reports[|reports| - 1], alerts, now);
    }
    assert OpenKeys(alerts.rows) == base + Motives(p.project, l);
    summary := Account(p, slug, gates, features, reports, aborted, alerts, now, base, runs);
  }

  /** Its finalisation, if it is finished, and the accounting it shares with `run_project`. */
  method Account(p: Plan, slug: Slug, gates: Slug -> Gate, features: Roadmap, reports: seq<Report>, aborted: bool,
                 alerts: AlertTable, now: nat, ghost base: set<Key>, ghost runs: seq<Run>)
    returns (summary: Option<Summary>)
    requires alerts.Valid() && slug in p.roadmap && slug in features && features == p.roadmap[slug := features[slug]]
    requires OneByOne(slug, p.roadmap[slug], features[slug], runs) && Reported(runs, reports)
    requires !aborted && (runs == [] || RanWell(runs[|runs| - 1].outcome)) ==> features[slug].left == 0
    requires p.roadmap[slug].left > 0 && !aborted ==> runs != []
    requires OpenKeys(alerts.rows) == base + Motives(p.project, LedgerOf(reports))
    modifies alerts
    ensures alerts.Valid()
    ensures summary.Some? ==>
              FeatureTold(p, slug, features, runs, summary.value)
              && Announced(p, summary.value, base, OpenKeys(alerts.rows))
              && Gated(p.project, if slug in summary.value.worked then [slug] else [], gates, base,
                       OpenKeys(alerts.rows))
              && (slug in summary.value.worked ==> gates(slug) != Raises) && summary.value.aborted == aborted
    ensures summary.None? ==> FeatureCut(p, slug, gates, features, runs, base, OpenKeys(alerts.rows))
  {
    hide FeatureCut, FeatureTold, Motives, OpenKeys, Announced, Bucket, Count, OneByOne, AlertTable.Valid, Reported,
         RanWell, Gated, OnlyGates, Worked, Settled, LedgerOf;
    var l := LedgerOf(reports);
    var worked := WorkedComplete(p.order, features, l.All());
    ghost var drained := OpenKeys(alerts.rows);
    var raised := FinalizeIt(p.project, slug, slug in worked, gates, alerts, now);
    ghost var judged := OpenKeys(alerts.rows);
    if raised {
      LateCut(p, slug, gates, features, runs, reports, base, judged);
      return None;
    }
    var places := Dispositions(p.order, features, l, Elements(worked));
    ResolveDrained(p.project, places[Drained], alerts, now);
    var s := Summarize(reports, l, worked, places, aborted);
    AnnouncesAll(p, features, s, base, drained, judged, OpenKeys(alerts.rows));
    GatesStand(p, l, if slug in worked then [slug] else [], gates, base, judged, OpenKeys(alerts.rows));
    TellsOfOneFeature(p, slug, features, runs, reports, s);
    summary := Some(s);
  }

  method FinalizeIt(project: nat, slug: Slug, finished: bool, gates: Slug -> Gate, alerts: AlertTable, now: nat)
    returns (raised: bool)
    requires alerts.Valid()
    modifies alerts
    ensures alerts.Valid() && (raised <==> finished && gates(slug) == Raises)
    ensures raised ==> OpenKeys(alerts.rows) == old(OpenKeys(alerts.rows))
    ensures Gated(project, if finished then [slug] else [], gates, old(OpenKeys(alerts.rows)), OpenKeys(alerts.rows))
    ensures OnlyGates(project, old(OpenKeys(alerts.rows)), OpenKeys(alerts.rows))
  {
    hide OpenKeys, Closed, Upserted, Gated, OnlyGates;
    raised := false;
    if finished {
      raised := Finalize(project, slug, gates(slug), alerts, now);
    }
    OneGate(project, slug, if finished then [slug] else [], gates, old(OpenKeys(alerts.rows)), OpenKeys(alerts.rows));
  }

  lemma CutIsSilent(p: Plan, slug: Slug, gates: Slug -> Gate, features: Roadmap, runs: seq<Run>, keys: set<Key>)
    requires slug in p.roadmap && slug in features && features == p.roadmap[slug := features[slug]]
    requires CutShort(slug, p.roadmap[slug], features[slug], runs)
    ensures FeatureCut(p, slug, gates, features, runs, keys, keys)
  {
    hide OneByOne;
    if runs != [] {
      assert RanWell(runs[|runs| - 1].outcome) && Contract(runs[|runs| - 1].outcome);
    }
  }

  lemma LastIsActionable(slug: Slug, before: Feature, after: Feature, runs: seq<Run>, reports: seq<Report>)
    requires OneByOne(slug, before, after, runs) && Reported(runs, reports) && reports != []
    ensures Actionable(reports[|reports| - 1]) && reports[|reports| - 1].feature == slug
  {
    ReportsAreActionable(slug, runs[|runs| - 1].outcome);
    ReportFollows(slug, runs[|runs| - 1].outcome);
    hide Contract, ReportOf;
  }

  /** What the ledger of one feature calls for is what its last run calls for. */
  lemma LedgerIsOfTheLast(slug: Slug, before: Feature, after: Feature, runs: seq<Run>, reports: seq<Report>)
    requires OneByOne(slug, before, after, runs) && Reported(runs, reports)
    ensures var l := LedgerOf(reports);
            (forall x, kind :: Calls(l, x, kind) <==>
               x == slug && runs != [] && Blocks(runs[|runs| - 1].outcome, kind))
            && l.socle == {} && (l == NOBODY <==> runs == [] || RanWell(runs[|runs| - 1].outcome))
  {
    if runs != [] {
      ReportFollows(slug, runs[|runs| - 1].outcome);
      hide ReportOf;
    }
  }

  lemma LateCut(p: Plan, slug: Slug, gates: Slug -> Gate, features: Roadmap, runs: seq<Run>, reports: seq<Report>,
                before: set<Key>, after: set<Key>)
    requires slug in p.roadmap && slug in features && features == p.roadmap[slug := features[slug]]
    requires OneByOne(slug, p.roadmap[slug], features[slug], runs) && Reported(runs, reports)
    requires gates(slug) == Raises && Worked(features[slug])
    requires after == before + Motives(p.project, LedgerOf(reports))
    ensures FeatureCut(p, slug, gates, features, runs, before, after)
  {
    hide OneByOne, Reported, Motives, Calls, Blocks, LedgerOf;
    var l := LedgerOf(reports);
    LedgerIsOfTheLast(slug, p.roadmap[slug], features[slug], runs, reports);
    forall k: Key ensures k in Motives(p.project, l) <==> k.0.project == p.project && Calls(l, k.0.slug, k.1) {
      KeysOfTheLedger(p.project, l, k);
    }
  }

  lemma KeysOfTheLedger(project: nat, l: Ledger, k: Key)
    ensures k in Motives(project, l) <==> k.0.project == project && Calls(l, k.0.slug, k.1)
  {
  }

  lemma TellsOfOneFeature(p: Plan, slug: Slug, features: Roadmap, runs: seq<Run>, reports: seq<Report>, s: Summary)
    requires slug in p.roadmap && slug in features && features == p.roadmap[slug := features[slug]]
    requires OneByOne(slug, p.roadmap[slug], features[slug], runs) && Reported(runs, reports)
    requires !s.aborted && (runs == [] || RanWell(runs[|runs| - 1].outcome)) ==> features[slug].left == 0
    requires p.roadmap[slug].left > 0 && !s.aborted ==> runs != []
    requires s == Summarize(reports, LedgerOf(reports), s.worked, s.places, s.aborted)
    requires forall x :: x in s.worked <==> x in p.order && x in features && Worked(features[x]) && x !in s.ledger.All()
    requires forall q :: q in s.places && s.places[q] == Bucket(p.order, features, s.ledger, Elements(s.worked), q)
    ensures FeatureTold(p, slug, features, runs, s)
  {
    hide Bucket, Elements, Count, Tally, Having, RanWell, Contract, ReportOf, LedgerOf;
    LedgerIsOfTheLast(slug, p.roadmap[slug], features[slug], runs, reports);
    CountsAreTallies(reports, runs);
    OneFailure(slug, p.roadmap[slug], features[slug], runs, reports);
  }

  /** One finalisation, or none. */
  lemma OneGate(project: nat, slug: Slug, finalized: seq<Slug>, gates: Slug -> Gate, before: set<Key>, after: set<Key>)
    requires finalized == [slug] || finalized == []
    requires forall k: Key :: k in after <==>
               if finalized == [slug] && k == (Ref(project, slug), GateRed)
               then gates(slug) == Red || (gates(slug) != Green && k in before) else k in before
    ensures Gated(project, finalized, gates, before, after) && OnlyGates(project, before, after)
  {
  }

  lemma NobodyHasMotives(project: nat)
    ensures Motives(project, NOBODY) == {}
  {
  }

  /** The places of the ledger hold the feature, or nobody, as its last run went. */
  lemma OneFailure(slug: Slug, before: Feature, after: Feature, runs: seq<Run>, reports: seq<Report>)
    requires OneByOne(slug, before, after, runs) && Reported(runs, reports)
    ensures var l := LedgerOf(reports);
            l.failed == Having(runs, Breaks) && l.interview == Having(runs, AsksHuman)
            && l.rate == Having(runs, Throttles) && l.interrupted == Having(runs, Stopped)
            && |reports| - Tally(runs, RanWell) - Tally(runs, AsksHuman) - Tally(runs, Throttles) - Tally(runs, Stopped)
            == Tally(runs, Breaks) == |l.failed|
  {
    if runs != [] {
      var init, last := runs[..|runs| - 1], runs[|runs| - 1];
      assert init + [last] == runs;
      AllSucceeded(init);
      ReportFollows(slug, last.outcome);
      HavingGrows(init, last, RanWell);
      HavingGrows(init, last, AsksHuman);
      HavingGrows(init, last, Throttles);
      HavingGrows(init, last, Stopped);
      HavingGrows(init, last, Breaks);
      hide Having, Tally, ReportOf;
    }
  }

  lemma {:induction false} AllSucceeded(runs: seq<Run>)
    requires forall i :: 0 <= i < |runs| ==> RanWell(runs[i].outcome) && Contract(runs[i].outcome)
    ensures Tally(runs, RanWell) == |runs|
    ensures Tally(runs, AsksHuman) == Tally(runs, Throttles) == Tally(runs, Stopped) == Tally(runs, Breaks) == 0
    ensures Having(runs, AsksHuman) == Having(runs, Throttles) == Having(runs, Stopped) == Having(runs, Breaks) == {}
  {
    if runs != [] {
      AllSucceeded(runs[..|runs| - 1]);
    }
  }
}
