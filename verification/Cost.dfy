/** The cost of a project (`dispatch/cost.py`): job rows rolled up by step, by feature and by project,
    in nested accumulators filled in one pass. Dollars are exact reals. */
module Cost {
  import opened Prelude

  type Slug = nat

  datatype Kind = Task | Fix | Review | Toolchain

  type Model = nat

  /** `model`: the model the row names, if it names one that is not empty. */
  datatype Row = Row(feature: Slug, task: Slug, kind: Kind, model: Option<Model>, cost: Option<real>,
                     input: Option<int>, output: Option<int>, cacheRead: Option<int>, cacheCreation: Option<int>)

  datatype Acc = Acc(cost: real, input: int, output: int, cacheRead: int, cacheCreation: int, tokens: int, jobs: int)

  const BLANK := Acc(0.0, 0, 0, 0, 0, 0, 0)

  function OrZero(v: Option<int>): int {
    if v.Some? then v.value else 0
  }

  function Of(row: Row): Acc {
    var i, o, cr, cc := OrZero(row.input), OrZero(row.output), OrZero(row.cacheRead), OrZero(row.cacheCreation);
    Acc(if row.cost.Some? then row.cost.value else 0.0, i, o, cr, cc, i + o + cr + cc, 1)
  }

  function Plus(a: Acc, b: Acc): Acc {
    Acc(a.cost + b.cost, a.input + b.input, a.output + b.output, a.cacheRead + b.cacheRead,
        a.cacheCreation + b.cacheCreation, a.tokens + b.tokens, a.jobs + b.jobs)
  }

  /** `_add`. */
  function Add(acc: Acc, row: Row): Acc {
    Plus(acc, Of(row))
  }

  // --- what each accumulator stands for ----------------------------------------------------------------

  datatype Bucket = Everything | Nonwork | Work | OfFeature(f: Slug) | OfStep(f: Slug, t: Slug) | OfFix(f: Slug)

  predicate Working(row: Row) {
    row.kind == Task || row.kind == Fix
  }

  predicate In(row: Row, b: Bucket) {
    match b
    case Everything => true
    case Nonwork => !Working(row)
    case Work => Working(row)
    case OfFeature(f) => Working(row) && row.feature == f
    case OfStep(f, t) => row.kind == Task && row.feature == f && row.task == t
    case OfFix(f) => row.kind == Fix && row.feature == f
  }

  /** The usage of the rows of a bucket, from their definition. */
  function Sum(rows: seq<Row>, b: Bucket): Acc {
    if rows == [] then BLANK
    else
      var r := rows[|rows| - 1];
      if In(r, b) then Add(Sum(rows[..|rows| - 1], b), r) else Sum(rows[..|rows| - 1], b)
  }

  predicate Occurs(rows: seq<Row>, b: Bucket) {
    exists i :: 0 <= i < |rows| && In(rows[i], b)
  }

  lemma PlusRearranged(a: Acc, b: Acc, c: Acc)
    ensures Plus(Plus(a, b), c) == Plus(a, Plus(b, c)) == Plus(Plus(a, c), b)
    ensures Plus(a, BLANK) == a && Plus(BLANK, a) == a
  {
  }

  lemma SumGrows(rows: seq<Row>, r: Row, b: Bucket)
    ensures Sum(rows + [r], b) == if In(r, b) then Add(Sum(rows, b), r) else Sum(rows, b)
    ensures Occurs(rows + [r], b) <==> Occurs(rows, b) || In(r, b)
  {
    var more := rows + [r];
    assert more[..|rows|] == rows && more[|rows|] == r;
    if Occurs(rows, b) {
      var i :| 0 <= i < |rows| && In(rows[i], b);
      assert more[i] == rows[i];
    }
  }

  lemma {:induction false} AbsentIsBlank(rows: seq<Row>, b: Bucket)
    requires !Occurs(rows, b)
    ensures Sum(rows, b) == BLANK
  {
    if rows != [] {
      assert !In(rows[|rows| - 1], b);
      assert forall i :: 0 <= i < |rows| - 1 ==> rows[..|rows| - 1][i] == rows[i];
      AbsentIsBlank(rows[..|rows| - 1], b);
    }
  }

  /** `order` names each key once. */
  ghost predicate Lists(order: seq<Slug>, keys: set<Slug>) {
    (forall i, j :: 0 <= i < j < |order| ==> order[i] != order[j]) && (forall k :: k in order <==> k in keys)
  }

  lemma ListGrows<T>(order: seq<Slug>, entries: map<Slug, T>, k: Slug, v: T)
    requires Lists(order, entries.Keys) && k !in entries
    ensures Lists(order + [k], entries[k := v].Keys)
  {
  }

  lemma ListKeeps<T>(order: seq<Slug>, entries: map<Slug, T>, k: Slug, v: T)
    requires Lists(order, entries.Keys) && k in entries
    ensures Lists(order, entries[k := v].Keys)
  {
  }

  /** The steps of a feature, or the features of the project. */
  function Keyed(f: Option<Slug>, k: Slug): Bucket {
    if f.Some? then OfStep(f.value, k) else OfFeature(k)
  }

  /** Bucket `a` has a row before `b` has any. */
  ghost predicate MetFirst(rows: seq<Row>, a: Bucket, b: Bucket) {
    exists k :: 0 <= k < |rows| && In(rows[k], a) && forall q :: 0 <= q <= k ==> !In(rows[q], b)
  }

  /** `order` names the keys as the rows meet them. */
  ghost predicate InOrder(rows: seq<Row>, f: Option<Slug>, order: seq<Slug>) {
    forall i, j :: 0 <= i < j < |order| ==> MetFirst(rows, Keyed(f, order[i]), Keyed(f, order[j]))
  }

  lemma MetAlready(rows: seq<Row>, r: Row, a: Bucket, b: Bucket)
    requires MetFirst(rows, a, b) || (Occurs(rows, a) && !Occurs(rows, b))
    ensures MetFirst(rows + [r], a, b)
  {
    var k :| 0 <= k < |rows| && In(rows[k], a) && forall q :: 0 <= q <= k ==> !In(rows[q], b);
    assert (rows + [r])[k] == rows[k];
  }

  lemma OrderKeeps(rows: seq<Row>, r: Row, f: Option<Slug>, order: seq<Slug>)
    requires InOrder(rows, f, order)
    ensures InOrder(rows + [r], f, order)
  {
    hide MetFirst, Keyed;
    forall i, j | 0 <= i < j < |order| ensures MetFirst(rows + [r], Keyed(f, order[i]), Keyed(f, order[j])) {
      MetAlready(rows, r, Keyed(f, order[i]), Keyed(f, order[j]));
    }
  }

  lemma OrderGrows(rows: seq<Row>, r: Row, f: Option<Slug>, order: seq<Slug>, k: Slug)
    requires InOrder(rows, f, order) && !Occurs(rows, Keyed(f, k))
    requires forall x :: x in order ==> Occurs(rows, Keyed(f, x))
    ensures InOrder(rows + [r], f, order + [k])
  {
    hide MetFirst, Keyed, Occurs;
    var more := order + [k];
    forall i, j | 0 <= i < j < |more| ensures MetFirst(rows + [r], Keyed(f, more[i]), Keyed(f, more[j])) {
      assert more[i] == order[i] && order[i] in order;
      MetAlready(rows, r, Keyed(f, more[i]), Keyed(f, more[j]));
    }
  }

  // --- the dominant model --------------------------------------------------------------------------------

  /** What one row, or one turn of an interview, adds to the tally of a model. */
  datatype Vote = Vote(model: Model, weight: real)

  /** A dictionary that keeps the order of its insertions. */
  datatype Tally = Tally(amounts: map<Model, real>, order: seq<Model>)

  const UNCOUNTED := Tally(map[], [])

  function Models(votes: seq<Vote>): set<Model> {
    set v | v in votes :: v.model
  }

  function Weight(votes: seq<Vote>, m: Model): real {
    if votes == [] then 0.0
    else
      var v := votes[|votes| - 1];
      Weight(votes[..|votes| - 1], m) + if v.model == m then v.weight else 0.0
  }

  /** The rank of the first vote for `m`; their number when there is none. */
  function First(votes: seq<Vote>, m: Model): (k: nat)
    ensures k <= |votes|
    ensures k < |votes| <==> m in Models(votes)
    ensures k < |votes| ==> votes[k].model == m
  {
    if votes == [] then 0
    else
      var k, v := First(votes[..|votes| - 1], m), votes[|votes| - 1];
      assert votes == votes[..|votes| - 1] + [v];
      if k < |votes| - 1 || v.model == m then k else |votes|
  }

  /** The heaviest, and of several the one that was named first. */
  ghost predicate Dominates(votes: seq<Vote>, m: Model) {
    m in Models(votes)
    && forall n :: n in Models(votes) && n != m ==>
         Weight(votes, n) < Weight(votes, m)
         || (Weight(votes, n) == Weight(votes, m) && First(votes, m) < First(votes, n))
  }

  ghost predicate Elected(votes: seq<Vote>, m: Option<Model>) {
    if votes == [] then m.None? else m.Some? && Dominates(votes, m.value)
  }

  /** The tally of a list of votes. */
  ghost predicate Counts(votes: seq<Vote>, t: Tally) {
    && Lists(t.order, t.amounts.Keys) && t.amounts.Keys == Models(votes)
    && (forall m :: m in t.amounts ==> t.amounts[m] == Weight(votes, m))
    && (forall i, j :: 0 <= i < j < |t.order| ==> First(votes, t.order[i]) < First(votes, t.order[j]))
  }

  function Counted(t: Tally, v: Vote): Tally {
    if v.model in t.amounts then t.(amounts := t.amounts[v.model := t.amounts[v.model] + v.weight])
    else Tally(t.amounts[v.model := 0.0 + v.weight], t.order + [v.model])
  }

  lemma VotesGrow(votes: seq<Vote>, v: Vote, m: Model)
    ensures Models(votes + [v]) == Models(votes) + {v.model}
    ensures Weight(votes + [v], m) == Weight(votes, m) + if v.model == m then v.weight else 0.0
    ensures First(votes + [v], m) == if m in Models(votes) then First(votes, m)
                                     else if v.model == m then |votes| else |votes| + 1
  {
    assert (votes + [v])[..|votes|] == votes;
  }

  lemma {:induction false} UnnamedWeighsNothing(votes: seq<Vote>, m: Model)
    requires m !in Models(votes)
    ensures Weight(votes, m) == 0.0
  {
    if votes != [] {
      var init, v := votes[..|votes| - 1], votes[|votes| - 1];
      assert votes == init + [v];
      VotesGrow(init, v, m);
      UnnamedWeighsNothing(init, m);
    }
  }

  /** `First` and `Weight` after one more vote, for every model at once. */
  ghost predicate Grown(votes: seq<Vote>, v: Vote) {
    && Models(votes + [v]) == Models(votes) + {v.model}
    && (forall m :: Weight(votes + [v], m) == Weight(votes, m) + if v.model == m then v.weight else 0.0)
    && (forall m :: m in Models(votes) ==> First(votes + [v], m) == First(votes, m) < |votes|)
    && (v.model !in Models(votes) ==> First(votes + [v], v.model) == |votes| && Weight(votes, v.model) == 0.0)
  }

  lemma AllGrow(votes: seq<Vote>, v: Vote)
    ensures Grown(votes, v)
  {
    hide Weight, Models;
    VotesGrow(votes, v, v.model);
    forall m ensures Weight(votes + [v], m) == Weight(votes, m) + (if v.model == m then v.weight else 0.0)
                     && (m in Models(votes) ==> First(votes + [v], m) == First(votes, m))
    {
      VotesGrow(votes, v, m);
    }
    if v.model !in Models(votes) {
      UnnamedWeighsNothing(votes, v.model);
    }
  }

  lemma CountedKeeps(votes: seq<Vote>, t: Tally, v: Vote)
    requires Counts(votes, t)
    ensures Counts(votes + [v], Counted(t, v))
  {
    hide Weight, First, Models;
    AllGrow(votes, v);
    if v.model !in t.amounts {
      ListGrows(t.order, t.amounts, v.model, 0.0 + v.weight);
    }
  }

  lemma SomeoneIsNamed(votes: seq<Vote>)
    ensures votes != [] ==> Models(votes) != {}
  {
    if votes != [] {
      assert votes[0].model in Models(votes);
    }
  }

  /** `max(tally, key=...)`: the first of the heaviest, in the order of insertion. */
  method Elect(ghost votes: seq<Vote>, t: Tally) returns (m: Option<Model>)
    requires Counts(votes, t)
    ensures Elected(votes, m)
  {
    hide Weight, First;
    SomeoneIsNamed(votes);
    if t.order == [] {
      return None;
    }
    var best := 0;
    for i := 1 to |t.order|
      invariant 0 <= best < i
      invariant forall k :: 0 <= k < i && k != best ==>
                  t.amounts[t.order[k]] < t.amounts[t.order[best]]
                  || (t.amounts[t.order[k]] == t.amounts[t.order[best]] && best < k)
    {
      if t.amounts[t.order[i]] > t.amounts[t.order[best]] {
        best := i;
      }
    }
    m := Some(t.order[best]);
    assert m.value in Models(votes);
  }

  // --- the pass ------------------------------------------------------------------------------------------

  datatype Feature = Feature(acc: Acc, steps: map<Slug, Acc>, stepOrder: seq<Slug>, fix: Option<Acc>)
  datatype Report = Report(
    total: Acc, nonwork: Acc, feats: map<Slug, Feature>, order: seq<Slug>, model: Option<Model>, models: nat)

  ghost predicate FeatureIs(rows: seq<Row>, f: Slug, feat: Feature) {
    && feat.acc == Sum(rows, OfFeature(f))
    && Lists(feat.stepOrder, feat.steps.Keys) && InOrder(rows, Some(f), feat.stepOrder)
    && (forall t :: t in feat.steps <==> Occurs(rows, OfStep(f, t)))
    && (forall t :: t in feat.steps ==> feat.steps[t] == Sum(rows, OfStep(f, t)))
    && feat.fix == (if Occurs(rows, OfFix(f)) then Some(Sum(rows, OfFix(f))) else None)
  }

  /** Every accumulator is exactly the sum of its bucket, and every list names its keys exactly once, as the
      rows meet them. */
  ghost predicate ReportIs(rows: seq<Row>, r: Report) {
    && r.total == Sum(rows, Everything) && r.nonwork == Sum(rows, Nonwork)
    && Lists(r.order, r.feats.Keys) && InOrder(rows, None, r.order)
    && (forall f :: f in r.feats <==> Occurs(rows, OfFeature(f)))
    && (forall f :: f in r.feats ==> FeatureIs(rows, f, r.feats[f]))
  }

  /** One row entered in the accumulators of its feature. */
  method AddToFeature(ghost rows: seq<Row>, feat0: Feature, r: Row) returns (feat: Feature)
    requires Working(r) && FeatureIs(rows, r.feature, feat0)
    ensures FeatureIs(rows + [r], r.feature, feat)
  {
    hide FeatureIs, Add, Sum;
    feat := feat0.(acc := Add(feat0.acc, r));
    if r.kind == Fix {
      FixEntered(rows, feat0, r);
      if feat.fix.None? {
        feat := feat.(fix := Some(BLANK));
      }
      feat := feat.(fix := Some(Add(feat.fix.value, r)));
    } else {
      StepEntered(rows, feat0, r);
      if r.task !in feat.steps {
        feat := feat.(steps := feat.steps[r.task := BLANK], stepOrder := feat.stepOrder + [r.task]);
      }
      feat := feat.(steps := feat.steps[r.task := Add(feat.steps[r.task], r)]);
      assert r.task !in feat0.steps ==> feat.steps == feat0.steps[r.task := Add(BLANK, r)];
    }
  }

  lemma FixEntered(rows: seq<Row>, feat: Feature, r: Row)
    requires r.kind == Fix && FeatureIs(rows, r.feature, feat)
    ensures FeatureIs(rows + [r], r.feature,
                      feat.(acc := Add(feat.acc, r),
                            fix := Some(Add(if feat.fix.Some? then feat.fix.value else BLANK, r))))
  {
    hide Sum, Occurs, Lists, Add, InOrder;
    OrderKeeps(rows, r, Some(r.feature), feat.stepOrder);
    SumGrows(rows, r, OfFeature(r.feature));
    SumGrows(rows, r, OfFix(r.feature));
    if feat.fix.None? {
      AbsentIsBlank(rows, OfFix(r.feature));
    }
    forall t ensures Sum(rows + [r], OfStep(r.feature, t)) == Sum(rows, OfStep(r.feature, t))
                     && (Occurs(rows + [r], OfStep(r.feature, t)) <==> Occurs(rows, OfStep(r.feature, t)))
    {
      SumGrows(rows, r, OfStep(r.feature, t));
    }
  }

  lemma StepEntered(rows: seq<Row>, feat: Feature, r: Row)
    requires r.kind == Task && FeatureIs(rows, r.feature, feat)
    ensures r.task in feat.steps ==>
              FeatureIs(rows + [r], r.feature,
                        feat.(acc := Add(feat.acc, r), steps := feat.steps[r.task := Add(feat.steps[r.task], r)]))
    ensures r.task !in feat.steps ==>
              FeatureIs(rows + [r], r.feature,
                        feat.(acc := Add(feat.acc, r), stepOrder := feat.stepOrder + [r.task],
                              steps := feat.steps[r.task := Add(BLANK, r)]))
  {
    hide Sum, Occurs, Lists, Add, InOrder;
    SumGrows(rows, r, OfFeature(r.feature));
    SumGrows(rows, r, OfFix(r.feature));
    forall t ensures Sum(rows + [r], OfStep(r.feature, t))
                     == (if t == r.task then Add(Sum(rows, OfStep(r.feature, t)), r)
                         else Sum(rows, OfStep(r.feature, t)))
                     && (Occurs(rows + [r], OfStep(r.feature, t))
                         <==> t == r.task || Occurs(rows, OfStep(r.feature, t)))
    {
      SumGrows(rows, r, OfStep(r.feature, t));
    }
    if r.task in feat.steps {
      ListKeeps(feat.stepOrder, feat.steps, r.task, Add(feat.steps[r.task], r));
      OrderKeeps(rows, r, Some(r.feature), feat.stepOrder);
    } else {
      AbsentIsBlank(rows, OfStep(r.feature, r.task));
      ListGrows(feat.stepOrder, feat.steps, r.task, Add(BLANK, r));
      NewStepIsLast(rows, r, feat);
    }
  }

  lemma NewStepIsLast(rows: seq<Row>, r: Row, feat: Feature)
    requires FeatureIs(rows, r.feature, feat) && r.task !in feat.steps
    ensures InOrder(rows + [r], Some(r.feature), feat.stepOrder + [r.task])
  {
    hide Sum, Occurs, InOrder;
    OrderGrows(rows, r, Some(r.feature), feat.stepOrder, r.task);
  }

  lemma OtherFeatureIs(rows: seq<Row>, r: Row, f: Slug, feat: Feature)
    requires FeatureIs(rows, f, feat) && (!Working(r) || r.feature != f)
    ensures FeatureIs(rows + [r], f, feat)
  {
    hide Sum, Occurs, Lists, Add, InOrder;
    OrderKeeps(rows, r, Some(f), feat.stepOrder);
    SumGrows(rows, r, OfFeature(f));
    SumGrows(rows, r, OfFix(f));
    forall t ensures Sum(rows + [r], OfStep(f, t)) == Sum(rows, OfStep(f, t))
                     && (Occurs(rows + [r], OfStep(f, t)) <==> Occurs(rows, OfStep(f, t)))
    {
      SumGrows(rows, r, OfStep(f, t));
    }
  }

  /** A feature that has no row yet. */
  lemma NewFeatureIs(rows: seq<Row>, f: Slug)
    requires !Occurs(rows, OfFeature(f))
    ensures FeatureIs(rows, f, Feature(BLANK, map[], [], None))
  {
    AbsentIsBlank(rows, OfFeature(f));
    forall i | 0 <= i < |rows| ensures !In(rows[i], OfFix(f)) && forall t :: !In(rows[i], OfStep(f, t)) {
      assert !In(rows[i], OfFeature(f));
    }
    hide Sum;
  }

  /** The rows that name a model, by what they cost. */
  function Ballots(rows: seq<Row>): (votes: seq<Vote>) {
    if rows == [] then []
    else
      var r := rows[|rows| - 1];
      Ballots(rows[..|rows| - 1])
      + if r.model.Some? then [Vote(r.model.value, if r.cost.Some? then r.cost.value else 0.0)] else []
  }

  /** The accumulators after some rows. */
  ghost predicate Tallied(rows: seq<Row>, report: Report, tally: Tally) {
    ReportIs(rows, report) && Counts(Ballots(rows), tally)
  }

  /** `project_cost`, up to the interview: the model of the total is the dearest one, and of several the
      one that was met first. */
  method ProjectCost(rows: seq<Row>) returns (report: Report)
    ensures ReportIs(rows, report)
    ensures Elected(Ballots(rows), report.model)
    ensures report.models == |Models(Ballots(rows))|
  {
    report := Report(BLANK, BLANK, map[], [], None, 0);
    var tally := UNCOUNTED;
    hide Tallied, Ballots, Elected, Models;
    NothingIsTallied();
    for i := 0 to |rows|
      invariant Tallied(rows[..i], report, tally)
    {
      report, tally := Next(rows[..i], report, tally, rows[i]);
      assert rows[..i] + [rows[i]] == rows[..i+1];
    }
    assert rows[..|rows|] == rows;
    report := WithModel(rows, report, tally);
  }

  /** One row, in the accumulators and in the tally of the models. */
  method Next(ghost rows: seq<Row>, report0: Report, tally0: Tally, r: Row) returns (report: Report, tally: Tally)
    requires Tallied(rows, report0, tally0)
    ensures Tallied(rows + [r], report, tally)
  {
    hide ReportIs, Counts, Counted, Ballots;
    report := Enter(rows, report0, r);
    tally := tally0;
    BallotsGrow(rows, r);
    if r.model.Some? {
      var v := Vote(r.model.value, if r.cost.Some? then r.cost.value else 0.0);
      CountedKeeps(Ballots(rows), tally, v);
      tally := Counted(tally, v);
    }
  }

  lemma BallotsGrow(rows: seq<Row>, r: Row)
    ensures r.model.None? ==> Ballots(rows + [r]) == Ballots(rows)
    ensures r.model.Some? ==>
              Ballots(rows + [r]) == Ballots(rows) + [Vote(r.model.value, if r.cost.Some? then r.cost.value else 0.0)]
  {
    assert (rows + [r])[..|rows|] == rows;
  }

  lemma NothingIsTallied()
    ensures Tallied([], Report(BLANK, BLANK, map[], [], None, 0), UNCOUNTED)
  {
  }

  lemma NothingIsUncounted()
    ensures Counts([], UNCOUNTED)
  {
  }

  /** `total["model"]` and `total["n_models"]`. */
  method WithModel(ghost rows: seq<Row>, report0: Report, tally: Tally) returns (report: Report)
    requires Tallied(rows, report0, tally)
    ensures ReportIs(rows, report)
    ensures Elected(Ballots(rows), report.model) && report.models == |Models(Ballots(rows))|
  {
    hide FeatureIs, Sum, Occurs, Lists, InOrder, First, Weight, Ballots, Elected;
    var model := Elect(Ballots(rows), tally);
    report := report0.(model := model, models := |tally.amounts|);
    assert tally.amounts.Keys == Models(Ballots(rows));
  }

  /** One turn of its loop. */
  method Enter(ghost rows: seq<Row>, report0: Report, r: Row) returns (report: Report)
    requires ReportIs(rows, report0)
    ensures ReportIs(rows + [r], report)
  {
    report := report0.(total := Add(report0.total, r));
    if r.kind == Review || r.kind == Toolchain {
      NonworkEntered(rows, report0, r);
      report := report.(nonwork := Add(report.nonwork, r));
      return;
    }
    hide FeatureIs, Add, Sum, Lists, InOrder, Occurs;
    var feat := Feature(BLANK, map[], [], None);
    if r.feature in report.feats {
      feat := report.feats[r.feature];
    } else {
      NewFeatureIs(rows, r.feature);
      report := report.(order := report.order + [r.feature]);
    }
    feat := AddToFeature(rows, feat, r);
    WorkEntered(rows, report0, r, feat);
    report := report.(feats := report.feats[r.feature := feat]);
  }

  lemma NonworkEntered(rows: seq<Row>, report: Report, r: Row)
    requires ReportIs(rows, report) && !Working(r)
    ensures ReportIs(rows + [r], report.(total := Add(report.total, r), nonwork := Add(report.nonwork, r)))
  {
    hide Sum, Occurs, FeatureIs, Add, Lists, InOrder;
    OrderKeeps(rows, r, None, report.order);
    SumGrows(rows, r, Everything);
    SumGrows(rows, r, Nonwork);
    forall f ensures Occurs(rows + [r], OfFeature(f)) <==> Occurs(rows, OfFeature(f)) {
      SumGrows(rows, r, OfFeature(f));
    }
    forall f | f in report.feats ensures FeatureIs(rows + [r], f, report.feats[f]) {
      OtherFeatureIs(rows, r, f, report.feats[f]);
    }
  }

  lemma WorkEntered(rows: seq<Row>, report: Report, r: Row, feat: Feature)
    requires ReportIs(rows, report) && Working(r) && FeatureIs(rows + [r], r.feature, feat)
    ensures var order := if r.feature in report.feats then report.order else report.order + [r.feature];
            ReportIs(rows + [r], report.(total := Add(report.total, r), order := order,
                                         feats := report.feats[r.feature := feat]))
  {
    hide Sum, Occurs, FeatureIs, Add, Lists, InOrder;
    SumGrows(rows, r, Everything);
    SumGrows(rows, r, Nonwork);
    forall f ensures Occurs(rows + [r], OfFeature(f)) <==> Occurs(rows, OfFeature(f)) || r.feature == f {
      SumGrows(rows, r, OfFeature(f));
    }
    forall f | f in report.feats && r.feature != f ensures FeatureIs(rows + [r], f, report.feats[f]) {
      OtherFeatureIs(rows, r, f, report.feats[f]);
    }
    if r.feature in report.feats {
      ListKeeps(report.order, report.feats, r.feature, feat);
      OrderKeeps(rows, r, None, report.order);
    } else {
      ListGrows(report.order, report.feats, r.feature, feat);
      NewFeatureIsLast(rows, r, report);
    }
  }

  lemma NewFeatureIsLast(rows: seq<Row>, r: Row, report: Report)
    requires ReportIs(rows, report) && r.feature !in report.feats
    ensures InOrder(rows + [r], None, report.order + [r.feature])
  {
    hide Sum, Occurs, FeatureIs, InOrder;
    OrderGrows(rows, r, None, report.order, r.feature);
  }

  // --- conservation ------------------------------------------------------------------------------------------

  /** The sum of the sums of the features (or steps) that a list names. */
  function SumOver(rows: seq<Row>, order: seq<Bucket>): Acc {
    if order == [] then BLANK else Plus(Sum(rows, order[0]), SumOver(rows, order[1..]))
  }

  /** Each row of `b` is in exactly one of the buckets of the list, which hold nothing else. */
  ghost predicate Splits(r: Row, b: Bucket, order: seq<Bucket>) {
    && (forall i, j :: 0 <= i < j < |order| ==> !(In(r, order[i]) && In(r, order[j])))
    && (In(r, b) <==> exists i :: 0 <= i < |order| && In(r, order[i]))
  }

  lemma {:induction false} SumOverGrows(rows: seq<Row>, r: Row, order: seq<Bucket>)
    requires forall i, j :: 0 <= i < j < |order| ==> !(In(r, order[i]) && In(r, order[j]))
    ensures SumOver(rows + [r], order)
         == if exists i :: 0 <= i < |order| && In(r, order[i]) then Add(SumOver(rows, order), r)
            else SumOver(rows, order)
    decreases |order|
  {
    hide Sum, In, Of;
    if order != [] {
      SumGrows(rows, r, order[0]);
      SumOverGrows(rows, r, order[1..]);
      if In(r, order[0]) {
        assert forall i :: 0 <= i < |order[1..]| ==> order[1..][i] == order[i + 1];
      } else if i :| 0 <= i < |order| && In(r, order[i]) {
        assert order[1..][i - 1] == order[i];
      }
    }
  }

  lemma {:induction false} SumOverNothing(order: seq<Bucket>)
    ensures SumOver([], order) == BLANK
  {
    if order != [] {
      SumOverNothing(order[1..]);
    }
  }

  /** A bucket split into others is the sum of their sums, field by field. */
  lemma {:induction false} SplitAddsUp(rows: seq<Row>, b: Bucket, order: seq<Bucket>)
    requires forall i :: 0 <= i < |rows| ==> Splits(rows[i], b, order)
    ensures Sum(rows, b) == SumOver(rows, order)
  {
    hide In, Of;
    if rows == [] {
      SumOverNothing(order);
    } else {
      var init, last := rows[..|rows| - 1], rows[|rows| - 1];
      assert init + [last] == rows;
      assert forall i :: 0 <= i < |init| ==> init[i] == rows[i];
      SplitAddsUp(init, b, order);
      SumGrows(init, last, b);
      assert Splits(last, b, order);
      SumOverGrows(init, last, order);
    }
  }

  function FeatureBuckets(order: seq<Slug>): seq<Bucket> {
    seq(|order|, i requires 0 <= i < |order| => OfFeature(order[i]))
  }

  function StepBuckets(f: Slug, order: seq<Slug>): seq<Bucket> {
    seq(|order|, i requires 0 <= i < |order| => OfStep(f, order[i]))
  }

  /** RECONCILED. For every list of job rows, in every field: the total is the features plus the
      non-work, each feature is its steps plus its fixes, and tokens are the four kinds added. */
  lemma Reconciles(rows: seq<Row>, report: Report)
    requires ReportIs(rows, report)
    ensures report.total == Plus(SumOver(rows, FeatureBuckets(report.order)), report.nonwork)
    ensures forall f :: f in report.feats ==>
              var feat := report.feats[f];
              feat.acc == Plus(SumOver(rows, StepBuckets(f, feat.stepOrder)),
                               if feat.fix.Some? then feat.fix.value else BLANK)
    ensures report.total.tokens
         == report.total.input + report.total.output + report.total.cacheRead + report.total.cacheCreation
  {
    TwoHalves(rows);
    TokensAddUp(rows, Everything);
    forall i | 0 <= i < |rows| ensures Splits(rows[i], Work, FeatureBuckets(report.order)) {
      FeaturesSplit(rows, report, i);
    }
    SplitAddsUp(rows, Work, FeatureBuckets(report.order));
    forall f | f in report.feats
      ensures report.feats[f].acc
           == Plus(SumOver(rows, StepBuckets(f, report.feats[f].stepOrder)),
                   if report.feats[f].fix.Some? then report.feats[f].fix.value else BLANK)
    {
      FeatureReconciles(rows, f, report.feats[f]);
    }
  }

  lemma {:induction false} TwoHalves(rows: seq<Row>)
    ensures Sum(rows, Everything) == Plus(Sum(rows, Work), Sum(rows, Nonwork))
  {
    hide Plus, Of;
    PlusRearranged(BLANK, BLANK, BLANK);
    if rows != [] {
      TwoHalves(rows[..|rows| - 1]);
      PlusRearranged(Sum(rows[..|rows| - 1], Work), Sum(rows[..|rows| - 1], Nonwork), Of(rows[|rows| - 1]));
    }
  }

  lemma {:induction false} TokensAddUp(rows: seq<Row>, b: Bucket)
    ensures var a := Sum(rows, b); a.tokens == a.input + a.output + a.cacheRead + a.cacheCreation
  {
    if rows != [] {
      TokensAddUp(rows[..|rows| - 1], b);
    }
  }

  lemma FeaturesSplit(rows: seq<Row>, report: Report, i: nat)
    requires ReportIs(rows, report) && i < |rows|
    ensures Splits(rows[i], Work, FeatureBuckets(report.order))
  {
    hide Sum, FeatureIs;
    var r, order := rows[i], FeatureBuckets(report.order);
    if Working(r) {
      assert In(rows[i], OfFeature(r.feature)) && Occurs(rows, OfFeature(r.feature));
      assert r.feature in report.order;
      var k :| 0 <= k < |report.order| && report.order[k] == r.feature;
      assert In(r, order[k]);
    }
  }

  lemma FeatureReconciles(rows: seq<Row>, f: Slug, feat: Feature)
    requires FeatureIs(rows, f, feat)
    ensures feat.acc == Plus(SumOver(rows, StepBuckets(f, feat.stepOrder)),
                             if feat.fix.Some? then feat.fix.value else BLANK)
  {
    if feat.fix.None? {
      AbsentIsBlank(rows, OfFix(f));
    }
    var order := StepBuckets(f, feat.stepOrder) + [OfFix(f)];
    forall i | 0 <= i < |rows| ensures Splits(rows[i], OfFeature(f), order) {
      StepsSplit(rows, f, feat, i);
    }
    SplitAddsUp(rows, OfFeature(f), order);
    SumOverLast(rows, StepBuckets(f, feat.stepOrder), OfFix(f));
  }

  lemma StepsSplit(rows: seq<Row>, f: Slug, feat: Feature, i: nat)
    requires FeatureIs(rows, f, feat) && i < |rows|
    ensures Splits(rows[i], OfFeature(f), StepBuckets(f, feat.stepOrder) + [OfFix(f)])
  {
    hide Sum;
    var r, order := rows[i], StepBuckets(f, feat.stepOrder) + [OfFix(f)];
    if In(r, OfFeature(f)) {
      if r.kind == Fix {
        assert In(r, order[|feat.stepOrder|]);
      } else {
        assert In(rows[i], OfStep(f, r.task)) && Occurs(rows, OfStep(f, r.task));
        assert r.task in feat.stepOrder;
        var k :| 0 <= k < |feat.stepOrder| && feat.stepOrder[k] == r.task;
        assert In(r, order[k]);
      }
    }
  }

  lemma {:induction false} SumOverLast(rows: seq<Row>, order: seq<Bucket>, b: Bucket)
    ensures SumOver(rows, order + [b]) == Plus(SumOver(rows, order), Sum(rows, b))
    decreases |order|
  {
    hide Sum;
    if order == [] {
      assert [b][1..] == [];
    } else {
      assert (order + [b])[0] == order[0] && (order + [b])[1..] == order[1..] + [b];
      SumOverLast(rows, order[1..], b);
    }
  }

  // --- the interview --------------------------------------------------------------------------------------------

  /** One line of the transcript of an interview: one that carries a usage; one with nothing to count, JSON
      or not; or JSON that is not an object, which has no `get`. */
  datatype Turn =
    | Silent
    | Usage(input: int, output: int, cacheRead: int, cacheCreation: int, model: Option<Model>)
    | Stray

  /** The lines read before the file ended or failed; none when the session has no transcript here. */
  type Session = Option<seq<Turn>>

  /** What the lines of a transcript are promised to be shielded from. */
  datatype Escape = AttributeError

  /** Tokens only: an interactive session is not priced. */
  datatype Interview = Interview(
    input: int, output: int, cacheRead: int, cacheCreation: int, tokens: int, sessions: nat, model: Option<Model>)

  function Heard(a: Interview, turn: Turn): Interview {
    match turn
    case Usage(i, o, cr, cc, _) =>
      a.(input := a.input + i, output := a.output + o, cacheRead := a.cacheRead + cr,
         cacheCreation := a.cacheCreation + cc, tokens := a.tokens + i + o + cr + cc)
    case _ => a
  }

  function HeardAll(a: Interview, turns: seq<Turn>): Interview {
    if turns == [] then a else Heard(HeardAll(a, turns[..|turns| - 1]), turns[|turns| - 1])
  }

  /** `total` once the interview is counted in. */
  function WithInterview(total: Acc, i: Option<Interview>): Acc {
    if i.None? then total
    else total.(input := total.input + i.value.input, output := total.output + i.value.output,
                cacheRead := total.cacheRead + i.value.cacheRead,
                cacheCreation := total.cacheCreation + i.value.cacheCreation, tokens := total.tokens + i.value.tokens)
  }

  const UNHEARD := Interview(0, 0, 0, 0, 0, 0, None)

  /** The turns that name a model, by what they wrote. */
  function Voices(turns: seq<Turn>): (votes: seq<Vote>) {
    if turns == [] then []
    else
      var t := turns[|turns| - 1];
      Voices(turns[..|turns| - 1])
      + if t.Usage? && t.model.Some? then [Vote(t.model.value, t.output as real)] else []
  }

  /** Every line of every transcript found, one session after the other. */
  function Spoken(sessions: seq<Session>): seq<Turn> {
    if sessions == [] then []
    else Spoken(sessions[..|sessions| - 1])
         + if sessions[|sessions| - 1].Some? then sessions[|sessions| - 1].value else []
  }

  function Found(sessions: seq<Session>): nat {
    if sessions == [] then 0
    else Found(sessions[..|sessions| - 1]) + if sessions[|sessions| - 1].Some? then 1 else 0
  }

  ghost predicate HasStray(turns: seq<Turn>) {
    exists t :: t in turns && t.Stray?
  }

  lemma {:induction false} HeardMore(a: Interview, turns: seq<Turn>, t: Turn)
    ensures HeardAll(a, turns + [t]) == Heard(HeardAll(a, turns), t)
    ensures HasStray(turns + [t]) <==> HasStray(turns) || t.Stray?
  {
    assert (turns + [t])[..|turns|] == turns;
  }

  lemma VoicesGrow(turns: seq<Turn>, t: Turn)
    ensures Voices(turns + [t]) == if t.Usage? && t.model.Some?
                                   then Voices(turns) + [Vote(t.model.value, t.output as real)] else Voices(turns)
  {
    assert (turns + [t])[..|turns|] == turns;
  }

  lemma CountApart(a: Interview, t: Turn, n: nat)
    ensures Heard(a.(sessions := n), t) == Heard(a, t).(sessions := n)
  {
  }

  lemma {:induction false} HeardIsCounted(turns: seq<Turn>)
    ensures var a := HeardAll(UNHEARD, turns);
            a.tokens == a.input + a.output + a.cacheRead + a.cacheCreation && a.sessions == 0 && a.model == None
  {
    if turns != [] {
      HeardIsCounted(turns[..|turns| - 1]);
    }
  }

  /** The accumulators after some turns of some sessions, none of which was stray. */
  ghost predicate Listened(turns: seq<Turn>, sessions: nat, acc: Interview, tally: Tally) {
    && acc == HeardAll(UNHEARD, turns).(sessions := sessions)
    && Counts(Voices(turns), tally)
    && !HasStray(turns)
  }

  lemma ListenedKeeps(turns: seq<Turn>, n: nat, acc: Interview, tally: Tally, t: Turn)
    requires Listened(turns, n, acc, tally) && !t.Stray?
    ensures var votes := if t.Usage? && t.model.Some? then Some(Vote(t.model.value, t.output as real)) else None;
            Listened(turns + [t], n, Heard(acc, t), if votes.Some? then Counted(tally, votes.value) else tally)
  {
    hide Counts, Counted, Voices, HasStray, Heard;
    HeardMore(UNHEARD, turns, t);
    CountApart(HeardAll(UNHEARD, turns), t, n);
    VoicesGrow(turns, t);
    if t.Usage? && t.model.Some? {
      CountedKeeps(Voices(turns), tally, Vote(t.model.value, t.output as real));
    }
  }

  /** `_sum_interview_transcript`: the lines of one transcript, up to the first stray one. */
  method SumTranscript(ghost said: seq<Turn>, turns: seq<Turn>, n: nat, acc0: Interview, tally0: Tally)
    returns (acc: Interview, tally: Tally, stray: Option<nat>)
    requires Listened(said, n, acc0, tally0)
    ensures stray.None? ==> Listened(said + turns, n, acc, tally)
    ensures stray.Some? ==> stray.value < |turns| && turns[stray.value].Stray?
  {
    hide Listened, Counted, Heard;
    acc, tally := acc0, tally0;
    assert said + turns[..0] == said;
    for k := 0 to |turns|
      invariant Listened(said + turns[..k], n, acc, tally)
    {
      assert said + turns[..k+1] == (said + turns[..k]) + [turns[k]];
      if turns[k].Stray? {
        return acc, tally, Some(k);
      }
      ListenedKeeps(said + turns[..k], n, acc, tally, turns[k]);
      acc := Heard(acc, turns[k]);
      if turns[k].Usage? && turns[k].model.Some? {
        tally := Counted(tally, Vote(turns[k].model.value, turns[k].output as real));
      }
    }
    assert turns[..|turns|] == turns;
    stray := None;
  }

  /** `_interview_cost`: none when no transcript was found; otherwise exactly what the transcripts found
      hold, line by line, with the model that wrote most. One stray line raises, against the promise to
      skip what cannot be read. */
  method InterviewCost(sessions: seq<Session>) returns (cost: Result<Option<Interview>, Escape>)
    ensures cost.Err? <==> HasStray(Spoken(sessions))
    ensures cost.Ok? ==> (cost.value.None? <==> Found(sessions) == 0)
    ensures cost.Ok? && cost.value.Some? ==>
              cost.value.value.(model := None) == HeardAll(UNHEARD, Spoken(sessions)).(sessions := Found(sessions))
              && Elected(Voices(Spoken(sessions)), cost.value.value.model)
              && cost.value.value.tokens == cost.value.value.input + cost.value.value.output
                                            + cost.value.value.cacheRead + cost.value.value.cacheCreation
  {
    var acc, tally := UNHEARD, UNCOUNTED;
    hide Listened, Elected, Voices, Counts;
    assert Listened([], 0, acc, tally) by { SilenceIsListened(); }
    for i := 0 to |sessions|
      invariant Listened(Spoken(sessions[..i]), Found(sessions[..i]), acc, tally)
    {
      assert sessions[..i+1][..i] == sessions[..i];
      ghost var said := Spoken(sessions[..i]);
      assert said + [] == said;
      if sessions[i].None? {
        continue;
      }
      OneMore(said, Found(sessions[..i]), acc, tally);
      acc := acc.(sessions := acc.sessions + 1);
      var stray;
      acc, tally, stray := SumTranscript(said, sessions[i].value, Found(sessions[..i+1]), acc, tally);
      if stray.Some? {
        StrayIsSpoken(sessions, i, stray.value);
        return Err(AttributeError);
      }
    }
    assert sessions[..|sessions|] == sessions;
    WhatWasHeard(Spoken(sessions), Found(sessions), acc, tally);
    if acc.sessions == 0 {
      return Ok(None);
    }
    var model := Elect(Voices(Spoken(sessions)), tally);
    cost := Ok(Some(acc.(model := model)));
  }

  lemma SilenceIsListened()
    ensures Listened([], 0, UNHEARD, UNCOUNTED)
  {
  }

  lemma OneMore(turns: seq<Turn>, n: nat, acc: Interview, tally: Tally)
    requires Listened(turns, n, acc, tally)
    ensures acc.sessions == n && Listened(turns, n + 1, acc.(sessions := n + 1), tally)
  {
    hide HeardAll, Counts, Voices, HasStray;
  }

  lemma WhatWasHeard(turns: seq<Turn>, n: nat, acc: Interview, tally: Tally)
    requires Listened(turns, n, acc, tally)
    ensures acc == HeardAll(UNHEARD, turns).(sessions := n) && acc.model == None
    ensures acc.tokens == acc.input + acc.output + acc.cacheRead + acc.cacheCreation
    ensures Counts(Voices(turns), tally) && !HasStray(turns)
  {
    hide Counts, Voices, HasStray;
    HeardIsCounted(turns);
  }

  lemma {:induction false} StrayIsSpoken(sessions: seq<Session>, i: nat, k: nat)
    requires i < |sessions| && sessions[i].Some? && k < |sessions[i].value| && sessions[i].value[k].Stray?
    ensures HasStray(Spoken(sessions))
  {
    var init, last := sessions[..|sessions| - 1], sessions[|sessions| - 1];
    if i < |init| {
      StrayIsSpoken(init, i, k);
      var t :| t in Spoken(init) && t.Stray?;
      assert t in Spoken(sessions);
    } else {
      assert sessions[i].value[k] in Spoken(sessions);
    }
  }

  // --- what each figure is ---------------------------------------------------------------------------------

  /** The sum of `f` over the elements of a list that `p` holds of. */
  ghost function Total<T(!new)>(list: seq<T>, p: T -> bool, f: T -> int): int {
    if list == [] then 0
    else
      var x := list[|list| - 1];
      Total(list[..|list| - 1], p, f) + if p(x) then f(x) else 0
  }

  ghost function Dollars(rows: seq<Row>, p: Row -> bool): real {
    if rows == [] then 0.0
    else
      var r := rows[|rows| - 1];
      Dollars(rows[..|rows| - 1], p) + if p(r) && r.cost.Some? then r.cost.value else 0.0
  }

  /** Every figure of `a` is that of the rows `p` holds of, a missing one counting for nothing. */
  ghost predicate Figures(rows: seq<Row>, p: Row -> bool, a: Acc) {
    && a.jobs == Total(rows, p, (r: Row) => 1)
    && a.cost == Dollars(rows, p)
    && a.input == Total(rows, p, (r: Row) => match r.input case Some(n) => n case None => 0)
    && a.output == Total(rows, p, (r: Row) => match r.output case Some(n) => n case None => 0)
    && a.cacheRead == Total(rows, p, (r: Row) => match r.cacheRead case Some(n) => n case None => 0)
    && a.cacheCreation == Total(rows, p, (r: Row) => match r.cacheCreation case Some(n) => n case None => 0)
    && a.tokens == a.input + a.output + a.cacheRead + a.cacheCreation
  }

  lemma {:induction false} SumIsFigures(rows: seq<Row>, b: Bucket, p: Row -> bool)
    requires forall r :: p(r) <==> In(r, b)
    ensures Figures(rows, p, Sum(rows, b))
  {
    hide In;
    if rows != [] {
      SumIsFigures(rows[..|rows| - 1], b, p);
    }
  }

  /** THE FIGURES, from the rows alone. The total is that of every job; the non-work, of reviews and
      toolchain jobs; a feature, of its tasks and fixes; a step, of its own task; the fixes, of its fixes. */
  lemma FiguresAreTheRows(rows: seq<Row>, report: Report)
    requires ReportIs(rows, report)
    ensures report.total.jobs == |rows| && Figures(rows, r => true, report.total)
    ensures Figures(rows, (r: Row) => r.kind in {Review, Toolchain}, report.nonwork)
    ensures forall f :: f in report.feats ==>
              Figures(rows, (r: Row) => r.kind in {Task, Fix} && r.feature == f, report.feats[f].acc)
              && (report.feats[f].fix.Some? ==>
                    Figures(rows, (r: Row) => r.kind == Fix && r.feature == f, report.feats[f].fix.value))
    ensures forall f, t :: f in report.feats && t in report.feats[f].steps ==>
              Figures(rows, (r: Row) => r.kind == Task && r.feature == f && r.task == t, report.feats[f].steps[t])
    ensures forall r :: r in rows ==>
              (r.kind in {Task, Fix} ==> r.feature in report.feats)
              && (r.kind == Task ==> r.task in report.feats[r.feature].steps)
              && (r.kind == Fix ==> report.feats[r.feature].fix.Some?)
  {
    hide Figures, FeatureIs, Sum, Occurs, Lists, InOrder;
    SumIsFigures(rows, Everything, r => true);
    SumIsFigures(rows, Nonwork, (r: Row) => r.kind in {Review, Toolchain});
    CountIsLength(rows);
    forall f | f in report.feats
      ensures Figures(rows, (r: Row) => r.kind in {Task, Fix} && r.feature == f, report.feats[f].acc)
              && (report.feats[f].fix.Some? ==>
                    Figures(rows, (r: Row) => r.kind == Fix && r.feature == f, report.feats[f].fix.value))
    {
      FeatureFigures(rows, f, report.feats[f]);
    }
    forall f, t | f in report.feats && t in report.feats[f].steps
      ensures Figures(rows, (r: Row) => r.kind == Task && r.feature == f && r.task == t, report.feats[f].steps[t])
    {
      StepFigures(rows, f, report.feats[f], t);
    }
    forall r | r in rows
      ensures (r.kind in {Task, Fix} ==> r.feature in report.feats)
              && (r.kind == Task ==> r.task in report.feats[r.feature].steps)
              && (r.kind == Fix ==> report.feats[r.feature].fix.Some?)
    {
      RowIsFiled(rows, report, r);
    }
  }

  lemma FeatureFigures(rows: seq<Row>, f: Slug, feat: Feature)
    requires FeatureIs(rows, f, feat)
    ensures Figures(rows, (r: Row) => r.kind in {Task, Fix} && r.feature == f, feat.acc)
    ensures feat.fix.Some? ==> Figures(rows, (r: Row) => r.kind == Fix && r.feature == f, feat.fix.value)
  {
    hide Figures, Sum, Occurs, Lists, InOrder;
    SumIsFigures(rows, OfFeature(f), (r: Row) => r.kind in {Task, Fix} && r.feature == f);
    SumIsFigures(rows, OfFix(f), (r: Row) => r.kind == Fix && r.feature == f);
  }

  lemma StepFigures(rows: seq<Row>, f: Slug, feat: Feature, t: Slug)
    requires FeatureIs(rows, f, feat) && t in feat.steps
    ensures Figures(rows, (r: Row) => r.kind == Task && r.feature == f && r.task == t, feat.steps[t])
  {
    hide Figures, Sum, Occurs, Lists, InOrder;
    SumIsFigures(rows, OfStep(f, t), (r: Row) => r.kind == Task && r.feature == f && r.task == t);
  }

  lemma RowIsFiled(rows: seq<Row>, report: Report, r: Row)
    requires ReportIs(rows, report) && r in rows
    ensures r.kind in {Task, Fix} ==> r.feature in report.feats
    ensures r.kind == Task ==> r.task in report.feats[r.feature].steps
    ensures r.kind == Fix ==> report.feats[r.feature].fix.Some?
  {
    hide Sum;
    var i :| 0 <= i < |rows| && rows[i] == r;
    if r.kind in {Task, Fix} {
      assert In(rows[i], OfFeature(r.feature)) && Occurs(rows, OfFeature(r.feature));
      if r.kind == Task {
        assert In(rows[i], OfStep(r.feature, r.task)) && Occurs(rows, OfStep(r.feature, r.task));
      } else {
        assert In(rows[i], OfFix(r.feature)) && Occurs(rows, OfFix(r.feature));
      }
    }
  }

  lemma {:induction false} CountIsLength(rows: seq<Row>)
    ensures Sum(rows, Everything).jobs == |rows|
  {
    if rows != [] {
      CountIsLength(rows[..|rows| - 1]);
    }
  }

  /** And those of the interview, from its turns. */
  lemma {:induction false} HeardIsTheTurns(turns: seq<Turn>)
    ensures var a := HeardAll(UNHEARD, turns);
            a.input == Total(turns, (t: Turn) => t.Usage?, (t: Turn) => if t.Usage? then t.input else 0)
            && a.output == Total(turns, (t: Turn) => t.Usage?, (t: Turn) => if t.Usage? then t.output else 0)
            && a.cacheRead == Total(turns, (t: Turn) => t.Usage?, (t: Turn) => if t.Usage? then t.cacheRead else 0)
            && a.cacheCreation
            == Total(turns, (t: Turn) => t.Usage?, (t: Turn) => if t.Usage? then t.cacheCreation else 0)
  {
    if turns != [] {
      HeardIsTheTurns(turns[..|turns| - 1]);
    }
  }

  lemma {:induction false} VotersAreNamed(rows: seq<Row>, m: Model)
    ensures m in Models(Ballots(rows)) <==> exists j :: 0 <= j < |rows| && rows[j].model == Some(m)
  {
    if rows != [] {
      var init, r := rows[..|rows| - 1], rows[|rows| - 1];
      assert init + [r] == rows;
      VotersAreNamed(init, m);
      BallotsGrow(init, r);
      if r.model.Some? {
        VotesGrow(Ballots(init), Vote(r.model.value, if r.cost.Some? then r.cost.value else 0.0), m);
      }
      if j :| 0 <= j < |rows| && rows[j].model == Some(m) {
        assert j == |init| || init[j].model == Some(m);
      }
    }
  }

  lemma {:induction false} WeightIsDollars(rows: seq<Row>, m: Model)
    ensures Weight(Ballots(rows), m) == Dollars(rows, (r: Row) => r.model == Some(m))
  {
    if rows != [] {
      var init, r := rows[..|rows| - 1], rows[|rows| - 1];
      assert init + [r] == rows;
      WeightIsDollars(init, m);
      BallotsGrow(init, r);
      if r.model.Some? {
        VotesGrow(Ballots(init), Vote(r.model.value, if r.cost.Some? then r.cost.value else 0.0), m);
      }
    }
  }

  /** Who was named first in the ballots was named first in the rows. */
  lemma {:induction false} FirstInTheRows(rows: seq<Row>, i: nat, m: Model, n: Model) returns (j: nat)
    requires i < |rows| && rows[i].model == Some(n) && First(Ballots(rows), m) < First(Ballots(rows), n)
    ensures j < i && rows[j].model == Some(m)
  {
    hide First, Models;
    var init, r := rows[..|rows| - 1], rows[|rows| - 1];
    assert init + [r] == rows;
    BallotsGrow(init, r);
    VotersAreNamed(init, n);
    VotersAreNamed(init, m);
    FirstAmong(Ballots(init), m);
    FirstAmong(Ballots(init), n);
    FirstAmong(Ballots(rows), m);
    if r.model.Some? {
      var v := Vote(r.model.value, if r.cost.Some? then r.cost.value else 0.0);
      VotesGrow(Ballots(init), v, m);
      VotesGrow(Ballots(init), v, n);
    }
    if i < |init| {
      assert init[i].model == Some(n);
      j := FirstInTheRows(init, i, m, n);
    } else if k :| 0 <= k < |init| && init[k].model == Some(n) {
      j := FirstInTheRows(init, k, m, n);
    } else {
      j :| 0 <= j < |init| && init[j].model == Some(m);
    }
  }

  lemma FirstAmong(votes: seq<Vote>, m: Model)
    ensures First(votes, m) <= |votes| && (First(votes, m) < |votes| <==> m in Models(votes))
  {
  }

  /** THE DEAREST MODEL, from the rows alone: no model named by a row cost more, and one that cost as much
      was first named later. */
  lemma TheDearestModel(rows: seq<Row>, m: Option<Model>)
    requires Elected(Ballots(rows), m)
    ensures m.None? <==> forall r :: r in rows ==> r.model.None?
    ensures m.Some? ==> forall i :: 0 <= i < |rows| && rows[i].model.Some? ==>
              var mine := Dollars(rows, (r: Row) => r.model == m);
              var its := Dollars(rows, (r: Row) => r.model == rows[i].model);
              its < mine || (its == mine && exists j :: 0 <= j <= i && rows[j].model == m)
  {
    hide Ballots, Weight, First;
    forall i | 0 <= i < |rows| ensures rows[i].model.Some? ==> rows[i].model.value in Models(Ballots(rows)) {
      if rows[i].model.Some? {
        VotersAreNamed(rows, rows[i].model.value);
        assert rows[i].model == Some(rows[i].model.value);
      }
    }
    if m.Some? {
      VotersAreNamed(rows, m.value);
      forall i | 0 <= i < |rows| && rows[i].model.Some?
        ensures var mine := Dollars(rows, (r: Row) => r.model == m);
                var its := Dollars(rows, (r: Row) => r.model == rows[i].model);
                its < mine || (its == mine && exists j :: 0 <= j <= i && rows[j].model == m)
      {
        DearestAgainst(rows, m.value, i);
      }
    }
  }

  lemma DearestAgainst(rows: seq<Row>, m: Model, i: nat)
    requires Dominates(Ballots(rows), m) && i < |rows| && rows[i].model.Some?
    ensures var mine := Dollars(rows, (r: Row) => r.model == Some(m));
            var its := Dollars(rows, (r: Row) => r.model == rows[i].model);
            its < mine || (its == mine && exists j :: 0 <= j <= i && rows[j].model == Some(m))
  {
    hide Ballots, Weight, First, Dollars, Models;
    var n := rows[i].model.value;
    VotersAreNamed(rows, n);
    WeightIsDollars(rows, m);
    WeightIsDollars(rows, n);
    assert rows[i].model == Some(n);
    if n != m && Weight(Ballots(rows), n) == Weight(Ballots(rows), m) {
      var j := FirstInTheRows(rows, i, m, n);
    }
  }

  /** The transcripts are read one after the other, whole, and those that are not found count for nothing. */
  lemma {:induction false} SpokenInOrder(before: seq<Session>, after: seq<Session>, turns: seq<Turn>)
    ensures Spoken(before + after) == Spoken(before) + Spoken(after)
    ensures Found(before + after) == Found(before) + Found(after)
    ensures Spoken([Some(turns)]) == turns && Found([Some(turns)]) == 1
    ensures Spoken([None]) == [] && Found([None]) == 0
    decreases |after|
  {
    var one, none: seq<Session> := [Some(turns)], [None];
    assert one[..0] == [] && none[..0] == [] && Spoken([]) == [] && Found([]) == 0;
    if after == [] {
      assert before + after == before;
    } else {
      assert (before + after)[..|before + after| - 1] == before + after[..|after| - 1];
      SpokenInOrder(before, after[..|after| - 1], turns);
    }
  }

  /** The interview adds to the tokens, kind by kind, and never to the dollars nor to the jobs. */
  lemma InterviewIsTokensOnly(rows: seq<Row>, report: Report, i: Option<Interview>)
    requires ReportIs(rows, report)
    requires i.Some? ==> i.value.tokens == i.value.input + i.value.output + i.value.cacheRead + i.value.cacheCreation
    ensures var t := WithInterview(report.total, i);
            t.cost == SumOver(rows, FeatureBuckets(report.order)).cost + report.nonwork.cost
            && t.jobs == report.total.jobs
            && (i.Some? ==> t.input == report.total.input + i.value.input
                            && t.output == report.total.output + i.value.output
                            && t.cacheRead == report.total.cacheRead + i.value.cacheRead
                            && t.cacheCreation == report.total.cacheCreation + i.value.cacheCreation)
            && t.tokens == t.input + t.output + t.cacheRead + t.cacheCreation
            && t.tokens == SumOver(rows, FeatureBuckets(report.order)).tokens + report.nonwork.tokens
                           + (if i.Some? then i.value.tokens else 0)
  {
    Reconciles(rows, report);
    hide ReportIs, Sum, SumOver;
  }
}
