/** What an update and a rollback DO, as a flat list of steps: which ones, in which order, and how much of
    the list is done when an exception escapes. The nested functions of the engine come to the same, and what
    the report says is read off the list. */
module UpdateScript {
  import opened Prelude
  import opened Stamps
  import opened Retention
  import opened RollbackTargets
  import opened UpdateEngine
  import opened UpdateReports
  import opened UpdateSafety

  /** One step on the instance. `Looks` asks and changes nothing. */
  datatype Effect =
    | Lays(venv: Venv)
    | Serves(rows: Option<seq<int>>)
    | Stops(w: Step)
    | Starts(w: Step)
    | Photographs(stamp: Stamp, tw: TakeStep)
    | Links(venv: Venv)
    | PutsBack(name: Stamp, rw: RestoreStep)
    | Poses(venv: Venv, mw: MapsStep)
    | Drops(keep: set<Venv>)
    | Looks

  /** `halt`: where an exception that escapes stops the gesture before this step, if it can. */
  datatype Line = Line(halt: Option<Halt>, effect: Effect)

  function Do(s: Instance, lit: Lit, e: Effect): Instance {
    match e
    case Lays(venv) => s.(venvs := s.venvs + {venv})
    case Serves(rows) => Work(s, lit, rows)
    case Stops(w) => Stop(s, lit, w)
    case Starts(w) => Launch(s, lit, w)
    case Photographs(stamp, w) => Take(s, lit, stamp, w)
    case Links(venv) => s.(link := venv)
    case PutsBack(name, w) => PutBack(s, lit, name, w)
    case Poses(venv, w) => Repose(s, lit, venv, w)
    case Drops(keep) => s.(venvs := PurgedVenvs(s.venvs, keep))
    case Looks => s
  }

  function Then(l: Line, rest: seq<Line>): seq<Line> {
    [l] + rest
  }

  function At(halt: Halt, e: Effect): Line {
    Line(Some(halt), e)
  }

  /** The instance after the lines, up to the one before which the exception escapes. */
  function Run(s: Instance, lit: Lit, halt: Halt, lines: seq<Line>): Instance
    decreases |lines|
  {
    if lines == [] || lines[0].halt == Some(halt) then s else Run(Do(s, lit, lines[0].effect), lit, halt, lines[1..])
  }

  lemma RunStep(s: Instance, lit: Lit, halt: Halt, l: Line, rest: seq<Line>)
    ensures Run(s, lit, halt, Then(l, rest))
         == if l.halt == Some(halt) then s else Run(Do(s, lit, l.effect), lit, halt, rest)
    ensures Run(s, lit, halt, []) == s
  {
    assert Then(l, rest)[1..] == rest;
  }

  // --- each step, exactly -------------------------------------------------------------------------------

  /** The data as a binary that reads up to `known` leaves them when it opens them: created, brought to its own
      schema, or left as they are when they are newer; the rows stay. */
  predicate OpenedBy(before: Option<Db>, known: nat, after: Option<Db>) {
    match before
    case None => after == Some(Db(known, []))
    case Some(d) => after == Some(Db(if d.schema <= known then known else d.schema, d.rows))
  }

  /** And as it leaves them when it serves a request that rewrites the rows. */
  predicate ServedBy(before: Option<Db>, known: nat, rows: seq<int>, after: Option<Db>) {
    if before.None? || before.value.schema <= known then after == Some(Db(known, rows)) else after == before
  }

  /** A process alive writes at its own schema, and on data it reads; nobody else writes. */
  lemma ServeExactly(s: Instance, lit: Lit, rows: Option<seq<int>>)
    ensures var t := Do(s, lit, Serves(rows));
            t == s.(data := t.data)
            && (if s.running.Some? && rows.Some? then ServedBy(s.data, lit(s.running.value), rows.value, t.data)
                else t == s)
  {
  }

  /** A stop that is obeyed leaves no process, and nothing else changed; one that fails, a process at work. */
  lemma StopExactly(s: Instance, lit: Lit, w: Step)
    ensures Do(s, lit, Stops(w)) == if w.ok then s.(running := None) else Do(s, lit, Serves(w.work))
  {
  }

  /** A start is recorded, with the venv linked and the data in place; when nobody runs yet and it goes through,
      that venv runs, and opens the data; and then whoever runs may serve. */
  lemma StartExactly(s: Instance, lit: Lit, w: Step)
    ensures exists data :: OpenedBy(s.data, lit(s.link), data)
              && var t := s.(starts := s.starts + [Start(s.link, s.data)]);
                 Do(s, lit, Starts(w))
                 == Do(if s.running == None && w.ok then t.(running := Some(s.link), data := data) else t,
                       lit, Serves(w.work))
  {
    var data := Opened(s.data, lit(s.link));
    assert OpenedBy(s.data, lit(s.link), data);
  }

  /** What the guard of a restoration lets through: a complete snapshot, with no database whose version can be
      read, or with one the linked binary reads -- or may read, when it does not say and the script can be told
      not to mind. */
  lemma GuardExactly(snap: Snap, link: Venv, lit: Lit, w: RestoreStep)
    ensures Guard(snap, link, lit, w) <==>
              snap.complete
              && (snap.db == None || !w.legible
                  || if w.answers then snap.db.value.schema <= lit(link) else w.knowsFlag)
  {
  }

  /** A restoration that is refused changes nothing; cut before the database is back, it leaves none; cut after,
      or whole, the snapshot's; and then whoever runs may serve. */
  lemma PutBackExactly(s: Instance, lit: Lit, name: Stamp, w: RestoreStep)
    ensures var refused := !(name in s.root && Guard(s.root[name], s.link, lit, w)) || w.fault == Refused;
            var t := if refused then s
                     else s.(data := if w.fault == LostDatabase then None else s.root[name].db);
            Do(s, lit, PutsBack(name, w)) == Do(t, lit, Serves(w.work))
  {
    hide Guard;
  }

  /** A photograph holds the data of that instant, if it gets that far, and takes nothing else from the instance. */
  lemma PhotographExactly(s: Instance, lit: Lit, stamp: Stamp, w: TakeStep)
    ensures Do(s, lit, Photographs(stamp, w))
         == Do(s.(root := AfterCreate(s.root, stamp, s.data, w.how)), lit, Serves(w.work))
    ensures Took(w) <==> w.how == Completed && w.told
  {
    hide AfterCreate;
  }

  /** The maps asked of a venv are its own, still those in place, or unknown; and the purge keeps the two venvs it
      is given, and nothing else, unless they are one and the same. */
  lemma PosesAndDropsExactly(s: Instance, lit: Lit, venv: Venv, w: MapsStep, other: Venv)
    ensures Do(s, lit, Poses(venv, w))
         == Do(s.(maps := if w.state == Posed then Some(venv) else if w.state == Missed then None else s.maps),
               lit, Serves(w.work))
    ensures Do(s, lit, Drops({venv, other}))
         == s.(venvs := if venv == other then s.venvs else s.venvs * {venv, other})
  {
    if venv != other {
      assert |{venv, other}| == 2;
    } else {
      assert {venv, other} == {venv};
    }
  }

  // --- apply ------------------------------------------------------------------------------------------

  function BackLines(before: Venv, blue: Venv, stamp: Stamp, whole: bool, w: ApplyWeather): seq<Line> {
    Then(At(Restoring, PutsBack(stamp, w.restore)),
         if whole
         then Then(At(StartingBack, Starts(w.startBack)),
              Then(At(PosingBack, Poses(before, w.mapsBack)),
              Then(At(Waiting, Looks), [])))
         else Then(At(SwappingForward, Links(blue)),
              Then(At(StartingForward, Starts(w.startForward)), [])))
  }

  /** Judged: the other venvs go, or the way back begins. */
  function JudgedLines(before: Venv, blue: Venv, stamp: Stamp, whole: bool, w: ApplyWeather): seq<Line> {
    if w.live then Then(At(Purging, Drops({blue, before})), [])
    else Then(At(StoppingBack, Stops(w.stopBack)),
         Then(At(SwappingBack, Links(before)), BackLines(before, blue, stamp, whole, w)))
  }

  function UpLines(before: Venv, blue: Venv, stamp: Stamp, whole: bool, w: ApplyWeather): seq<Line> {
    Then(At(Starting, Starts(w.start)),
    Then(At(Posing, Poses(blue, w.maps)),
    Then(At(Judging, Looks), JudgedLines(before, blue, stamp, whole, w))))
  }

  function TakenLines(s: Instance, lit: Lit, blue: Venv, stamp: Stamp, w: ApplyWeather): seq<Line> {
    if Took(w.take)
    then Then(At(Swapping, Links(blue)), UpLines(s.link, blue, stamp, WentBack(s, lit, w), w))
    else Then(At(Relaunching, Starts(w.relaunch)), [])
  }

  /** An update: the new venv beside the others; nothing more if it is not built and probed; else stop,
      photograph, and start again if that failed; else link, start, maps, judge; and, judged bad, all the way
      back, or forward again when the data do not follow. */
  function ApplyLines(s: Instance, lit: Lit, blue: Venv, stamp: Stamp, w: ApplyWeather): seq<Line> {
    Then(Line(None, Lays(blue)),
         if !w.built || w.halt in {Building, Stopping} then Then(Line(None, Serves(w.early)), [])
         else Then(Line(None, Stops(w.stop)),
              Then(At(Taking, Photographs(stamp, w.take)), TakenLines(s, lit, blue, stamp, w))))
  }

  lemma RetreatRuns(linked: Instance, lit: Lit, before: Venv, blue: Venv, stamp: Stamp, w: ApplyWeather)
    ensures var whole := PutBackWhole(linked, lit, stamp, w.restore);
            Retreat(linked, lit, before, blue, stamp, w).0
            == Run(linked, lit, w.halt, BackLines(before, blue, stamp, whole, w))
  {
    hide Run, Then, Launch, Repose, PutBack, PutBackWhole;
    var put := PutBack(linked, lit, stamp, w.restore);
    if PutBackWhole(linked, lit, stamp, w.restore) {
      var l3 := Then(At(Waiting, Looks), []);
      var l2 := Then(At(PosingBack, Poses(before, w.mapsBack)), l3);
      RunStep(linked, lit, w.halt, At(Restoring, PutsBack(stamp, w.restore)),
              Then(At(StartingBack, Starts(w.startBack)), l2));
      RunStep(put, lit, w.halt, At(StartingBack, Starts(w.startBack)), l2);
      var launched := Launch(put, lit, w.startBack);
      RunStep(launched, lit, w.halt, At(PosingBack, Poses(before, w.mapsBack)), l3);
      NothingMore(Repose(launched, lit, before, w.mapsBack), lit, w.halt);
    } else {
      var l2 := Then(At(StartingForward, Starts(w.startForward)), []);
      var l1 := Then(At(SwappingForward, Links(blue)), l2);
      RunStep(linked, lit, w.halt, At(Restoring, PutsBack(stamp, w.restore)), l1);
      RunStep(put, lit, w.halt, At(SwappingForward, Links(blue)), l2);
      RunStep(put.(link := blue), lit, w.halt, At(StartingForward, Starts(w.startForward)), []);
      NothingMore(Launch(put.(link := blue), lit, w.startForward), lit, w.halt);
    }
  }

  /** The last look changes nothing, whether it is reached or not. */
  lemma NothingMore(s: Instance, lit: Lit, halt: Halt)
    ensures forall h :: Run(s, lit, halt, Then(At(h, Looks), [])) == s
    ensures Run(s, lit, halt, []) == s
  {
    forall h ensures Run(s, lit, halt, Then(At(h, Looks), [])) == s {
      RunStep(s, lit, halt, At(h, Looks), []);
    }
  }

  lemma JudgedRuns(up: Instance, lit: Lit, before: Venv, blue: Venv, stamp: Stamp, w: ApplyWeather)
    requires stamp in up.root
    ensures var whole := Guard(up.root[stamp], before, lit, w.restore) && w.restore.fault == Whole;
            var down := Stop(up, lit, w.stopBack);
            Run(up, lit, w.halt, JudgedLines(before, blue, stamp, whole, w))
            == if w.live then
                 (if w.halt == Purging then up else up.(venvs := PurgedVenvs(up.venvs, {blue, before})))
               else if w.halt == StoppingBack then up
               else if w.halt == SwappingBack then down
               else Retreat(down.(link := before), lit, before, blue, stamp, w).0
  {
    hide Run, Then, Stop, Guard, PutBack, Retreat, BackLines, PurgedVenvs, Below, Settled, Readable;
    var whole := Guard(up.root[stamp], before, lit, w.restore) && w.restore.fault == Whole;
    var down := Stop(up, lit, w.stopBack);
    StopKeeps(up, lit, w.stopBack, 0);
    if w.live {
      RunStep(up, lit, w.halt, At(Purging, Drops({blue, before})), []);
      NothingMore(up.(venvs := PurgedVenvs(up.venvs, {blue, before})), lit, w.halt);
    } else {
      var back := BackLines(before, blue, stamp, whole, w);
      RunStep(up, lit, w.halt, At(StoppingBack, Stops(w.stopBack)), Then(At(SwappingBack, Links(before)), back));
      RunStep(down, lit, w.halt, At(SwappingBack, Links(before)), back);
      RetreatRuns(down.(link := before), lit, before, blue, stamp, w);
    }
  }

  lemma RaiseRuns(taken: Instance, lit: Lit, before: Venv, blue: Venv, stamp: Stamp, w: ApplyWeather)
    requires stamp in taken.root
    ensures var whole := Guard(taken.root[stamp], before, lit, w.restore) && w.restore.fault == Whole;
            Run(taken.(link := blue), lit, w.halt, UpLines(before, blue, stamp, whole, w))
            == if w.halt == Starting then taken.(link := blue) else Raise(taken, lit, before, blue, stamp, w).0
  {
    hide Run, Then, Launch, Repose, Stop, Guard, Retreat, JudgedLines, PurgedVenvs, Below, Settled, NeverForbidden,
         Readable;
    var whole := Guard(taken.root[stamp], before, lit, w.restore) && w.restore.fault == Whole;
    var linked := taken.(link := blue);
    var launched := Launch(linked, lit, w.start);
    var up := Repose(launched, lit, blue, w.maps);
    var l3 := JudgedLines(before, blue, stamp, whole, w);
    var l2 := Then(At(Judging, Looks), l3);
    RaisedKeeps(taken, lit, blue, w, 0);
    RunStep(linked, lit, w.halt, At(Starting, Starts(w.start)), Then(At(Posing, Poses(blue, w.maps)), l2));
    RunStep(launched, lit, w.halt, At(Posing, Poses(blue, w.maps)), l2);
    RunStep(up, lit, w.halt, At(Judging, Looks), l3);
    JudgedRuns(up, lit, before, blue, stamp, w);
  }

  lemma TakenRuns(taken: Instance, lit: Lit, s: Instance, blue: Venv, stamp: Stamp, w: ApplyWeather)
    requires Took(w.take) ==> stamp in taken.root && taken.root[stamp] == Snap(true, Stop(s, lit, w.stop).data)
    ensures Run(taken, lit, w.halt, TakenLines(s, lit, blue, stamp, w))
         == if !Took(w.take) then if w.halt == Relaunching then taken else Launch(taken, lit, w.relaunch)
            else if w.halt == Swapping then taken
            else if w.halt == Starting then taken.(link := blue)
            else Raise(taken, lit, s.link, blue, stamp, w).0
  {
    hide Run, Then, Launch, Stop, Guard, Raise, UpLines;
    if Took(w.take) {
      RunStep(taken, lit, w.halt, At(Swapping, Links(blue)), UpLines(s.link, blue, stamp, WentBack(s, lit, w), w));
      RaiseRuns(taken, lit, s.link, blue, stamp, w);
    } else {
      RunStep(taken, lit, w.halt, At(Relaunching, Starts(w.relaunch)), []);
      NothingMore(Launch(taken, lit, w.relaunch), lit, w.halt);
    }
  }

  /** AN UPDATE IS ITS SCRIPT, for every outcome of every step and an exception escaping before any of them. */
  lemma ApplyIsItsScript(s: Instance, lit: Lit, blue: Venv, stamp: Stamp, w: ApplyWeather)
    requires stamp !in s.root
    ensures Apply(s, lit, blue, stamp, w).0 == Run(s, lit, w.halt, ApplyLines(s, lit, blue, stamp, w))
  {
    hide Run, Then, Launch, Stop, Take, Work, Raise, TakenLines, Took, Below, Settled, Readable;
    var s1 := s.(venvs := s.venvs + {blue});
    if !w.built || w.halt in {Building, Stopping} {
      RunStep(s, lit, w.halt, Line(None, Lays(blue)), Then(Line(None, Serves(w.early)), []));
      RunStep(s1, lit, w.halt, Line(None, Serves(w.early)), []);
      NothingMore(Work(s1, lit, w.early), lit, w.halt);
    } else {
      var down := Stop(s1, lit, w.stop);
      var l4 := TakenLines(s, lit, blue, stamp, w);
      var l3 := Then(At(Taking, Photographs(stamp, w.take)), l4);
      RunStep(s, lit, w.halt, Line(None, Lays(blue)), Then(Line(None, Stops(w.stop)), l3));
      RunStep(s1, lit, w.halt, Line(None, Stops(w.stop)), l3);
      RunStep(down, lit, w.halt, At(Taking, Photographs(stamp, w.take)), l4);
      StopForgetsVenvs(s, lit, s1.venvs, w.stop);
      PhotographedKeeps(s1, lit, stamp, w.stop, w.take, 0);
      TakenRuns(Take(down, lit, stamp, w.take), lit, s, blue, stamp, w);
    }
  }

  /** An exception escapes from a step the update reaches. */
  predicate Escapes(s: Instance, lit: Lit, w: ApplyWeather) {
    w.halt == Building
    || (w.built
        && (w.halt in {Stopping, Taking}
            || (if !Took(w.take) then w.halt == Relaunching
                else
                  w.halt in {Swapping, Starting, Posing, Judging}
                  || (if w.live then w.halt == Purging
                      else
                        w.halt in {StoppingBack, SwappingBack, Restoring}
                        || w.halt in (if WentBack(s, lit, w) then {StartingBack, PosingBack, Waiting}
                                      else {SwappingForward, StartingForward})))))
  }

  /** THE REPORT OF AN UPDATE, exactly. Nothing but a code 2 when an exception escapes; else 1 and the venv of
      before when nothing was started on the new one; 0 when it is judged good, with the snapshot taken; 1 when
      it is judged bad and the way back serves; and 2 when the way back does not serve, or did not go through. */
  lemma ApplyReports(s: Instance, lit: Lit, blue: Venv, stamp: Stamp, w: ApplyWeather)
    requires stamp !in s.root
    ensures var r := Apply(s, lit, blue, stamp, w).1;
            (r == UNEXPECTED <==> Escapes(s, lit, w))
            && (!Escapes(s, lit, w) ==>
                  r.run == Verdict(Some(s.link), if w.built && Took(w.take) then Some(stamp) else None, None)
                  && (r.rc == 0 <==> w.built && Took(w.take) && w.live)
                  && (r.rc == 2 <==> w.built && Took(w.take) && !w.live && !(WentBack(s, lit, w) && w.healthy))
                  && r.rc in {0, 1, 2}
                  && r.impact == if !w.built then Some(NotTouched)
                                 else if !Took(w.take) then Some(RelaunchedAsIs)
                                 else if w.live then if w.maps.state == Missed then Some(ToolsBehind) else None
                                 else if WentBack(s, lit, w) then Some(Reverted)
                                 else Some(LinkForward))
  {
    hide Stop, Photographed, Launch, Raise, Work, AfterCreate, Guard, Took;
    var s1 := s.(venvs := s.venvs + {blue});
    StopForgetsVenvs(s, lit, s1.venvs, w.stop);
    PhotographedKeeps(s1, lit, stamp, w.stop, w.take, 0);
    hide Below, Settled, Readable, NeverForbidden;
    if Took(w.take) {
      RaiseReports(Photographed(s1, lit, stamp, w.stop, w.take), lit, s.link, blue, stamp, w);
    }
  }

  lemma RaiseReports(taken: Instance, lit: Lit, before: Venv, blue: Venv, stamp: Stamp, w: ApplyWeather)
    requires stamp in taken.root
    ensures var r := Raise(taken, lit, before, blue, stamp, w).1;
            var whole := Guard(taken.root[stamp], before, lit, w.restore) && w.restore.fault == Whole;
            r == if w.halt in {Posing, Judging}
                    || w.halt in (if w.live then {Purging} else {StoppingBack, SwappingBack, Restoring})
                    || (!w.live && w.halt in (if whole then {StartingBack, PosingBack, Waiting}
                                              else {SwappingForward, StartingForward})) then UNEXPECTED
                 else
                   Report(if w.live then 0 else if whole && w.healthy then 1 else 2,
                          if w.live then if w.maps.state == Missed then Some(ToolsBehind) else None
                          else Some(if whole then Reverted else LinkForward),
                          Some(if !w.live && whole then w.mapsBack.state else w.maps.state),
                          Verdict(Some(before), Some(stamp), None))
  {
    hide Stop, Launch, Repose, Guard, Retreat, PurgedVenvs, Below, Settled, Readable, NeverForbidden;
    RaisedKeeps(taken, lit, blue, w, 0);
    var up := Repose(Launch(taken.(link := blue), lit, w.start), lit, blue, w.maps);
    StopKeeps(up, lit, w.stopBack, 0);
    RetreatReports(Stop(up, lit, w.stopBack).(link := before), lit, before, blue, stamp, w);
  }

  lemma RetreatReports(linked: Instance, lit: Lit, before: Venv, blue: Venv, stamp: Stamp, w: ApplyWeather)
    ensures var r := Retreat(linked, lit, before, blue, stamp, w).1;
            var whole := PutBackWhole(linked, lit, stamp, w.restore);
            r == if w.halt == Restoring || w.halt in (if whole then {StartingBack, PosingBack, Waiting}
                                                      else {SwappingForward, StartingForward}) then UNEXPECTED
                 else Report(if whole && w.healthy then 1 else 2, Some(if whole then Reverted else LinkForward),
                             Some(if whole then w.mapsBack.state else w.maps.state),
                             Verdict(Some(before), Some(stamp), None))
  {
    hide Launch, Repose, PutBack, PutBackWhole;
  }

  // --- rollback ---------------------------------------------------------------------------------------

  function ReinstateLines(current: Venv, safety: Stamp, w: RollbackWeather): seq<Line> {
    Then(At(RestoringBack, PutsBack(safety, w.restoreBack)),
    Then(At(StartingBack, Starts(w.startBack)),
    Then(At(PosingBack, Poses(current, w.mapsBack)),
    Then(At(Waiting, Looks), []))))
  }

  function OverLines(current: Venv, target: Venv, safety: Stamp, w: RollbackWeather): seq<Line> {
    Then(At(Starting, Starts(w.start)),
    Then(At(Posing, Poses(target, w.maps)),
    Then(At(Judging, Looks),
         if w.live then []
         else Then(At(StoppingBack, Stops(w.stopBack)),
              Then(At(SwappingBack, Links(current)), ReinstateLines(current, safety, w))))))
  }

  function CrossLines(current: Venv, target: Venv, name: Stamp, safety: Stamp, whole: bool, w: RollbackWeather)
    : seq<Line>
  {
    Then(At(Restoring, PutsBack(name, w.restore)),
         if whole then OverLines(current, target, safety, w)
         else Then(At(SwappingForward, Links(current)),
              Then(At(StartingForward, Starts(w.startForward)), [])))
  }

  /** A rollback: nothing when the target would be purged or is not proved; else stop, photograph, and start
      again when that failed, when the target is gone or when the link cannot move; else link, restore, start,
      maps, judge; and, judged bad, all the way back. */
  function RollbackLines(s: Instance, lit: Lit, target: Venv, name: Stamp, safety: Stamp, w: RollbackWeather): seq<Line>
  {
    if !(Accepts(s.root, name) && w.probed) || w.halt in {Building, Stopping} then Then(Line(None, Serves(w.early)), [])
    else
      Then(Line(None, Stops(w.stop)),
      Then(At(Taking, Photographs(safety, w.take)),
           if Took(w.take) && w.swap && name in s.root && s.root[name].complete
           then Then(Line(None, Links(target)),
                     CrossLines(s.link, target, name, safety, WentOver(s, lit, target, name, w), w))
           else Then(At(Relaunching, Starts(w.relaunch)), [])))
  }

  lemma ReinstateRuns(linked: Instance, lit: Lit, current: Venv, safety: Stamp, w: RollbackWeather)
    ensures Reinstate(linked, lit, current, safety, w).0 == Run(linked, lit, w.halt, ReinstateLines(current, safety, w))
  {
    hide Run, Then, Launch, Repose, PutBack, PutBackWhole;
    var put := PutBack(linked, lit, safety, w.restoreBack);
    var launched := Launch(put, lit, w.startBack);
    var l3 := Then(At(Waiting, Looks), []);
    var l2 := Then(At(PosingBack, Poses(current, w.mapsBack)), l3);
    RunStep(linked, lit, w.halt, At(RestoringBack, PutsBack(safety, w.restoreBack)),
            Then(At(StartingBack, Starts(w.startBack)), l2));
    RunStep(put, lit, w.halt, At(StartingBack, Starts(w.startBack)), l2);
    RunStep(launched, lit, w.halt, At(PosingBack, Poses(current, w.mapsBack)), l3);
    NothingMore(Repose(launched, lit, current, w.mapsBack), lit, w.halt);
  }

  lemma OverRuns(put: Instance, lit: Lit, current: Venv, target: Venv, safety: Stamp, w: RollbackWeather)
    ensures var launched := Launch(put, lit, w.start);
            var up := Repose(launched, lit, target, w.maps);
            var down := Stop(up, lit, w.stopBack);
            Run(put, lit, w.halt, OverLines(current, target, safety, w))
            == if w.halt == Starting then put
               else if w.halt == Posing then launched
               else if w.halt == Judging || w.live || w.halt == StoppingBack then up
               else if w.halt == SwappingBack then down
               else Reinstate(down.(link := current), lit, current, safety, w).0
  {
    hide Run, Then, Launch, Repose, Stop, Reinstate, ReinstateLines;
    var launched := Launch(put, lit, w.start);
    var up := Repose(launched, lit, target, w.maps);
    var down := Stop(up, lit, w.stopBack);
    var back := ReinstateLines(current, safety, w);
    var l4 := Then(At(SwappingBack, Links(current)), back);
    var l3 := if w.live then [] else Then(At(StoppingBack, Stops(w.stopBack)), l4);
    var l2 := Then(At(Judging, Looks), l3);
    RunStep(put, lit, w.halt, At(Starting, Starts(w.start)), Then(At(Posing, Poses(target, w.maps)), l2));
    RunStep(launched, lit, w.halt, At(Posing, Poses(target, w.maps)), l2);
    RunStep(up, lit, w.halt, At(Judging, Looks), l3);
    NothingMore(up, lit, w.halt);
    if !w.live {
      RunStep(up, lit, w.halt, At(StoppingBack, Stops(w.stopBack)), l4);
      RunStep(down, lit, w.halt, At(SwappingBack, Links(current)), back);
      ReinstateRuns(down.(link := current), lit, current, safety, w);
    }
  }

  lemma CrossRuns(linked: Instance, lit: Lit, current: Venv, target: Venv, name: Stamp, safety: Stamp,
                  w: RollbackWeather)
    ensures var whole := PutBackWhole(linked, lit, name, w.restore);
            Cross(linked, lit, current, target, name, safety, w).0
            == Run(linked, lit, w.halt, CrossLines(current, target, name, safety, whole, w))
  {
    hide Run, Then, Launch, Repose, Stop, PutBack, PutBackWhole, Reinstate, OverLines;
    var put := PutBack(linked, lit, name, w.restore);
    if PutBackWhole(linked, lit, name, w.restore) {
      RunStep(linked, lit, w.halt, At(Restoring, PutsBack(name, w.restore)), OverLines(current, target, safety, w));
      OverRuns(put, lit, current, target, safety, w);
    } else {
      var l2 := Then(At(StartingForward, Starts(w.startForward)), []);
      var l1 := Then(At(SwappingForward, Links(current)), l2);
      RunStep(linked, lit, w.halt, At(Restoring, PutsBack(name, w.restore)), l1);
      RunStep(put, lit, w.halt, At(SwappingForward, Links(current)), l2);
      RunStep(put.(link := current), lit, w.halt, At(StartingForward, Starts(w.startForward)), []);
      NothingMore(Launch(put.(link := current), lit, w.startForward), lit, w.halt);
    }
  }

  /** A ROLLBACK IS ITS SCRIPT. */
  lemma RollbackIsItsScript(s: Instance, lit: Lit, target: Venv, name: Stamp, safety: Stamp, w: RollbackWeather)
    requires safety !in s.root && name != safety
    ensures Rollback(s, lit, target, name, safety, w).0
         == Run(s, lit, w.halt, RollbackLines(s, lit, target, name, safety, w))
  {
    hide Run, Then, Launch, Stop, Take, Work, Cross, CrossLines, Took, Accepts, Below, Settled, Readable,
         NeverForbidden, Guard;
    if !(Accepts(s.root, name) && w.probed) || w.halt in {Building, Stopping} {
      RunStep(s, lit, w.halt, Line(None, Serves(w.early)), []);
      NothingMore(Work(s, lit, w.early), lit, w.halt);
    } else {
      var down := Stop(s, lit, w.stop);
      var taken := Take(down, lit, safety, w.take);
      var over := CrossLines(s.link, target, name, safety, WentOver(s, lit, target, name, w), w);
      var l2 := if Took(w.take) && w.swap && name in s.root && s.root[name].complete
                then Then(Line(None, Links(target)), over) else Then(At(Relaunching, Starts(w.relaunch)), []);
      RunStep(s, lit, w.halt, Line(None, Stops(w.stop)), Then(At(Taking, Photographs(safety, w.take)), l2));
      RunStep(down, lit, w.halt, At(Taking, Photographs(safety, w.take)), l2);
      RunStep(taken, lit, w.halt, Line(None, Links(target)), over);
      RunStep(taken, lit, w.halt, At(Relaunching, Starts(w.relaunch)), []);
      NothingMore(Launch(taken, lit, w.relaunch), lit, w.halt);
      if Took(w.take) {
        TargetAfterSafety(s, lit, name, safety, w);
        CrossRuns(taken.(link := target), lit, s.link, target, name, safety, w);
      }
    }
  }

  /** An exception escapes from a step the rollback reaches. */
  ghost predicate EscapesBack(s: Instance, lit: Lit, target: Venv, name: Stamp, w: RollbackWeather) {
    w.halt == Building
    || (Accepts(s.root, name) && w.probed
        && (w.halt in {Stopping, Taking}
            || (if !(Took(w.take) && w.swap && name in s.root && s.root[name].complete) then w.halt == Relaunching
                else
                  w.halt == Restoring
                  || (if !WentOver(s, lit, target, name, w) then w.halt in {SwappingForward, StartingForward}
                      else
                        w.halt in {Starting, Posing, Judging}
                        || (!w.live
                            && w.halt in {StoppingBack, SwappingBack, RestoringBack, StartingBack, PosingBack,
                                          Waiting})))))
  }

  /** THE REPORT OF A ROLLBACK, exactly. */
  lemma RollbackReports(s: Instance, lit: Lit, target: Venv, name: Stamp, safety: Stamp, w: RollbackWeather)
    requires safety !in s.root && name != safety
    ensures var r := Rollback(s, lit, target, name, safety, w).1;
            var allowed := Accepts(s.root, name) && w.probed;
            var crossed := Took(w.take) && w.swap && name in s.root && s.root[name].complete;
            var over := WentOver(s, lit, target, name, w);
            (r == UNEXPECTED <==> EscapesBack(s, lit, target, name, w))
            && (!EscapesBack(s, lit, target, name, w) ==>
                  r.run == Verdict(Some(s.link), None, if allowed && Took(w.take) then Some(safety) else None)
                  && (r.rc == 0 <==> allowed && crossed && over && w.live)
                  && r.impact == Some(if !allowed then NotTouched
                                      else if !crossed then RelaunchedAsIs
                                      else if !over then AsBefore
                                      else if w.live then
                                        if w.maps.state == Missed then AtSnapshotToolsBehind else AtSnapshot
                                      else if WentBackOver(s, lit, w) then BackBefore else DataNotBack)
                  && (r.rc == 2 <==> allowed && crossed && over && !w.live && !(WentBackOver(s, lit, w) && w.healthy))
                  && r.rc in {0, 1, 2})
  {
    hide Stop, Photographed, Launch, Cross, Work, AfterCreate, Accepts, Guard;
    PhotographedKeeps(s, lit, safety, w.stop, w.take, 0);
    hide Below, Settled, Readable, NeverForbidden, Took;
    var taken := Photographed(s, lit, safety, w.stop, w.take);
    if Accepts(s.root, name) && Took(w.take) {
      TargetAfterSafety(s, lit, name, safety, w);
      if name in taken.root && taken.root[name].complete {
        CrossReports(taken.(link := target), lit, s.link, target, name, safety, w);
      }
    }
  }

  /** The safety snapshot went back whole, under the current binary. */
  predicate WentBackOver(s: Instance, lit: Lit, w: RollbackWeather) {
    Guard(Snap(true, Stop(s, lit, w.stop).data), s.link, lit, w.restoreBack) && w.restoreBack.fault == Whole
  }

  lemma CrossReports(linked: Instance, lit: Lit, current: Venv, target: Venv, name: Stamp, safety: Stamp,
                     w: RollbackWeather)
    requires linked.link == target && name in linked.root && safety in linked.root
    ensures var r := Cross(linked, lit, current, target, name, safety, w).1;
            var over := Guard(linked.root[name], target, lit, w.restore) && w.restore.fault == Whole;
            var back := Guard(linked.root[safety], current, lit, w.restoreBack) && w.restoreBack.fault == Whole;
            r == if w.halt == Restoring
                    || (if !over then w.halt in {SwappingForward, StartingForward}
                        else w.halt in {Starting, Posing, Judging}
                             || (!w.live
                                 && w.halt in {StoppingBack, SwappingBack, RestoringBack, StartingBack, PosingBack,
                                               Waiting})) then UNEXPECTED
                 else
                   Report(if !over then 1 else if w.live then 0 else if back && w.healthy then 1 else 2,
                          Some(if !over then AsBefore
                               else if w.live then if w.maps.state == Missed then AtSnapshotToolsBehind else AtSnapshot
                               else if back then BackBefore else DataNotBack),
                          if !over then None else Some(if w.live then w.maps.state else w.mapsBack.state),
                          Verdict(Some(current), None, Some(safety)))
  {
    hide Stop, Launch, PutBack, Repose, Reinstate, Guard, Below, Settled, Readable, NeverForbidden;
    var put := PutBack(linked, lit, name, w.restore);
    PutBackKeeps(linked, lit, name, w.restore, 0);
    LaunchKeeps(put, lit, w.start, 0);
    var up := Repose(Launch(put, lit, w.start), lit, target, w.maps);
    ReposeKeeps(Launch(put, lit, w.start), lit, target, w.maps, 0);
    StopKeeps(up, lit, w.stopBack, 0);
    ReinstateReports(Stop(up, lit, w.stopBack).(link := current), lit, current, safety, w);
  }

  lemma ReinstateReports(linked: Instance, lit: Lit, current: Venv, safety: Stamp, w: RollbackWeather)
    requires linked.link == current && safety in linked.root
    ensures var r := Reinstate(linked, lit, current, safety, w).1;
            var back := Guard(linked.root[safety], current, lit, w.restoreBack) && w.restoreBack.fault == Whole;
            r == if w.halt in {RestoringBack, StartingBack, PosingBack, Waiting} then UNEXPECTED
                 else Report(if back && w.healthy then 1 else 2, Some(if back then BackBefore else DataNotBack),
                             Some(w.mapsBack.state), Verdict(Some(current), None, Some(safety)))
  {
    hide Launch, Repose, PutBack, Guard;
  }
}
