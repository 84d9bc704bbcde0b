/** The ledger of consent (`db/proposals.py`) and the bridge that feeds it from the channel
    (`update_proposals.py`): one row per announced version, decided by the user and by nobody else. */
module Consent {
  import opened Prelude
  import Channel

  datatype State = Proposed | Deferred | Declined | Accepted
  datatype Row = Row(sha: string, state: State, firstSeen: nat, decided: Option<nat>, updated: nat)
  type Table = map<string, Row>

  /** What the two user gestures raise. */
  datatype Refusal = NotAChoice | UnknownVersion | NothingToRevoke | BaseFailed

  /** What the base does to one operation: it obeys; it cannot be opened or read; it cannot be written; or
      it commits, and the row cannot be read back. */
  datatype Base = Obeys | Unreadable | ReadOnly | LostAfter

  predicate Commits(base: Base) {
    base.Obeys? || base.LostAfter?
  }

  datatype Op =
    | Record(version: string, sha: string, at: nat, base: Base)
    | Decide(version: string, sha: string, choice: State, at: nat, base: Base)
    | Revoke(version: string, at: nat, base: Base)

  // --- the three writes --------------------------------------------------------------------------

  function Recorded(rows: Table, version: string, sha: string, at: nat): Table {
    if version !in rows then rows[version := Row(sha, Proposed, at, None, at)]
    else if rows[version].sha == sha then rows
    else rows[version := Row(sha, Proposed, rows[version].firstSeen, None, at)]
  }

  /** `etat`: the row, if it is still about these bytes. */
  function Current(rows: Table, version: string, sha: string): Option<Row> {
    if version in rows && rows[version].sha == sha then Some(rows[version]) else None
  }

  predicate Decidable(rows: Table, version: string, sha: string, choice: State) {
    choice != Proposed && Current(rows, version, sha).Some?
  }

  predicate Revocable(rows: Table, version: string) {
    version in rows && rows[version].state == Declined
  }

  function Apply(rows: Table, op: Op): Table {
    match op
    case Record(version, sha, at, base) => if Commits(base) then Recorded(rows, version, sha, at) else rows
    case Decide(version, sha, choice, at, base) =>
      if Decidable(rows, version, sha, choice) && Commits(base)
      then rows[version := rows[version].(state := choice, decided := Some(at), updated := at)] else rows
    case Revoke(version, at, base) =>
      if Revocable(rows, version) && Commits(base)
      then rows[version := rows[version].(state := Proposed, decided := None, updated := at)] else rows
  }

  class Proposals {
    var rows: Table

    constructor ()
      ensures rows == map[]
    {
      rows := map[];
    }

    /** `enregistre`: best effort, and a no-op when the same bytes are announced again. */
    method Register(version: string, sha: string, at: nat, base: Base) returns (row: Option<Row>)
      modifies this
      ensures rows == Apply(old(rows), Record(version, sha, at, base))
      ensures row.Some? <==> base == Obeys || (base != Unreadable && Current(old(rows), version, sha).Some?)
      ensures row.Some? ==> row == Current(rows, version, sha)
    {
      if base == Unreadable {
        return None;
      }
      if version in rows && rows[version].sha == sha {
        return Some(rows[version]);
      }
      if base == ReadOnly {
        return None;
      }
      if version !in rows {
        rows := rows[version := Row(sha, Proposed, at, None, at)];
      } else {
        var row := rows[version];
        rows := rows[version := row.(sha := sha, state := Proposed, decided := None, updated := at)];
      }
      row := if base == LostAfter then None else Some(rows[version]);
    }

    /** `decide`: refused against bytes the user was not shown. It never pretends: on a base that fails, it
        raises -- even once the choice is committed, when the row cannot be read back. */
    method Choose(version: string, sha: string, choice: State, at: nat, base: Base) returns (row: Result<Row, Refusal>)
      modifies this
      ensures rows == Apply(old(rows), Decide(version, sha, choice, at, base))
      ensures row.Ok? <==> base == Obeys && Decidable(old(rows), version, sha, choice)
      ensures row.Ok? ==> row == Ok(rows[version]) && row.value.state == choice && row.value.sha == sha
      ensures row.Err? ==>
                row.error == if choice == Proposed then NotAChoice
                             else if base != Unreadable && Current(old(rows), version, sha).None? then UnknownVersion
                             else BaseFailed
    {
      if choice == Proposed {
        return Err(NotAChoice);
      }
      if base == Unreadable {
        return Err(BaseFailed);
      }
      if version !in rows || rows[version].sha != sha {
        return Err(UnknownVersion);
      }
      if base == ReadOnly {
        return Err(BaseFailed);
      }
      rows := rows[version := rows[version].(state := choice, decided := Some(at), updated := at)];
      row := if base == LostAfter then Err(BaseFailed) else Ok(rows[version]);
    }

    /** `revoque`: only a refusal can be revoked. */
    method Withdraw(version: string, at: nat, base: Base) returns (row: Result<Row, Refusal>)
      modifies this
      ensures rows == Apply(old(rows), Revoke(version, at, base))
      ensures row.Ok? <==> base == Obeys && Revocable(old(rows), version)
      ensures row.Ok? ==> row == Ok(rows[version]) && row.value.state == Proposed && row.value.decided.None?
      ensures row.Err? ==>
                row.error == if base == Unreadable then BaseFailed
                             else if version !in old(rows) then UnknownVersion
                             else if !Revocable(old(rows), version) then NothingToRevoke
                             else BaseFailed
    {
      if base == Unreadable {
        return Err(BaseFailed);
      }
      if version !in rows {
        return Err(UnknownVersion);
      }
      if rows[version].state != Declined {
        return Err(NothingToRevoke);
      }
      if base == ReadOnly {
        return Err(BaseFailed);
      }
      rows := rows[version := rows[version].(state := Proposed, decided := None, updated := at)];
      row := if base == LostAfter then Err(BaseFailed) else Ok(rows[version]);
    }
  }

  // --- over any history --------------------------------------------------------------------------------

  function Played(ops: seq<Op>): Table {
    if ops == [] then map[] else Apply(Played(ops[..|ops| - 1]), ops[|ops| - 1])
  }

  /** Was version `v` announced with bytes `sha`? */
  ghost predicate Announced(ops: seq<Op>, v: string, sha: string) {
    exists i :: 0 <= i < |ops| && ops[i].Record? && Commits(ops[i].base) && ops[i].version == v && ops[i].sha == sha
  }

  /** Operation `d` is the user's choice that stands: it was made on these very bytes while they were the
      announced ones, and nothing since -- a re-announcement, a revocation, another choice -- changed the row. */
  ghost predicate Stands(ops: seq<Op>, d: nat, v: string, row: Row) {
    d < |ops| && row.decided.Some? && ops[d].Decide? && Commits(ops[d].base)
    && ops[d] == Decide(v, row.sha, row.state, row.decided.value, ops[d].base)
    && Decidable(Played(ops[..d]), v, row.sha, row.state)
    && forall k :: d < k <= |ops| ==> v in Played(ops[..k]) && Played(ops[..k])[v] == row
  }

  lemma Earlier(ops: seq<Op>, k: nat)
    requires ops != [] && k < |ops|
    ensures ops[..|ops| - 1][..k] == ops[..k]
  {
  }

  /** CONSENT COVERS ONLY WHAT WAS SEEN. In any history, a row is in a decided state if and only if its
      `decided` is set; its bytes were announced; and when it is decided, a choice of the user on that
      version AND those bytes stands behind it. */
  lemma {:induction false} ConsentCoversWhatWasSeen(ops: seq<Op>, v: string)
    requires v in Played(ops)
    ensures Played(ops)[v].state != Proposed <==> Played(ops)[v].decided.Some?
    ensures Announced(ops, v, Played(ops)[v].sha)
    ensures Played(ops)[v].state != Proposed ==> exists d: nat :: Stands(ops, d, v, Played(ops)[v])
  {
    var before := ops[..|ops| - 1];
    var op := ops[|ops| - 1];
    var row := Played(ops)[v];
    assert ops[..|ops|] == ops;
    if v in Played(before) {
      ConsentCoversWhatWasSeen(before, v);
      AnnouncedGrows(before, op, v, Played(before)[v].sha);
      assert before + [op] == ops;
      if Played(before)[v] == row {
        if row.state != Proposed {
          var d: nat :| Stands(before, d, v, row);
          StandsLonger(ops, d, v, row);
        }
      } else if op.Decide? {
        assert Stands(ops, |ops| - 1, v, row);
      }
    }
  }

  lemma AnnouncedGrows(ops: seq<Op>, op: Op, v: string, sha: string)
    requires Announced(ops, v, sha)
    ensures Announced(ops + [op], v, sha)
  {
    var i :| 0 <= i < |ops| && ops[i].Record? && Commits(ops[i].base) && ops[i].version == v && ops[i].sha == sha;
    assert (ops + [op])[i] == ops[i];
  }

  lemma StandsLonger(ops: seq<Op>, d: nat, v: string, row: Row)
    requires ops != [] && Stands(ops[..|ops| - 1], d, v, row)
    requires v in Played(ops) && Played(ops)[v] == row
    ensures Stands(ops, d, v, row)
  {
    hide Played;
    var before := ops[..|ops| - 1];
    Earlier(ops, d);
    forall k | d < k <= |ops| ensures v in Played(ops[..k]) && Played(ops[..k])[v] == row {
      if k < |ops| {
        Earlier(ops, k);
      } else {
        assert ops[..k] == ops;
      }
    }
  }

  /** The date at which a version appeared is never rewritten, and a version never disappears. */
  lemma {:induction false} FirstSeenIsForEver(ops: seq<Op>, k: nat, v: string)
    requires k <= |ops| && v in Played(ops[..k])
    ensures v in Played(ops) && Played(ops)[v].firstSeen == Played(ops[..k])[v].firstSeen
    decreases |ops|
  {
    if k == |ops| {
      assert ops[..k] == ops;
    } else {
      Earlier(ops, k);
      FirstSeenIsForEver(ops[..|ops| - 1], k, v);
    }
  }

  // --- a choice that is overtaken --------------------------------------------------------------------------

  /** The `UPDATE` of `decide`: keyed by the version alone, the bytes having been compared by a `SELECT`
      before it. */
  function Chosen(rows: Table, version: string, choice: State, at: nat): Table {
    if version !in rows then rows
    else rows[version := rows[version].(state := choice, decided := Some(at), updated := at)]
  }

  /** What other connections commit in between. */
  function PlayedFrom(rows: Table, ops: seq<Op>): Table {
    if ops == [] then rows else Apply(PlayedFrom(rows, ops[..|ops| - 1]), ops[|ops| - 1])
  }

  /** The bytes of `version` after these operations, `sha` being those before. */
  function LastDigest(ops: seq<Op>, version: string, sha: string): string {
    if ops == [] then sha
    else
      var op := ops[|ops| - 1];
      if op.Record? && op.version == version && Commits(op.base) then op.sha
      else LastDigest(ops[..|ops| - 1], version, sha)
  }

  lemma {:induction false} DigestFollows(rows: Table, ops: seq<Op>, version: string)
    requires version in rows
    ensures version in PlayedFrom(rows, ops)
    ensures PlayedFrom(rows, ops)[version].sha == LastDigest(ops, version, rows[version].sha)
  {
    if ops != [] {
      DigestFollows(rows, ops[..|ops| - 1], version);
    }
  }

  /** CONSENT UNDER INTERFERENCE. The two statements of `decide`, with anything committed in between: the
      choice is stored in any case, and it is about the bytes the user was shown if and only if they are
      still the last ones announced. With nothing in between it is the single step modelled above. */
  lemma {:induction false} ChoiceCoversUnlessOvertaken(rows: Table, between: seq<Op>, version: string, sha: string,
                                                       choice: State, at: nat)
    requires Decidable(rows, version, sha, choice)
    ensures var after := Chosen(PlayedFrom(rows, between), version, choice, at);
            version in after && after[version].state == choice && after[version].decided == Some(at)
            && (after[version].sha == sha <==> LastDigest(between, version, sha) == sha)
            && (between == [] ==> after == Apply(rows, Decide(version, sha, choice, at, Obeys)))
  {
    DigestFollows(rows, between, version);
  }

  /** One announce of other bytes is enough: the user is recorded to accept what he was not shown. */
  lemma AnAnnounceCanOvertake(rows: Table, version: string, sha: string, other: string, choice: State, at: nat)
    requires Decidable(rows, version, sha, choice) && other != sha
    ensures var after := Chosen(PlayedFrom(rows, [Record(version, other, at, Obeys)]), version, choice, at);
            version in after && after[version].state == choice && after[version].sha == other
  {
    var between := [Record(version, other, at, Obeys)];
    assert between[..0] == [];
    ChoiceCoversUnlessOvertaken(rows, between, version, sha, choice, at);
    DigestFollows(rows, between, version);
  }

  // --- the bridge ----------------------------------------------------------------------------------------

  /** What happens on an instance: a round of the channel, or a gesture of the user. */
  datatype Event =
    | Tour(poll: Channel.Poll, build: Option<string>, at: nat, base: Base)
    | Gesture(op: Op)

  datatype Instance = Instance(disk: Channel.Disk, ops: seq<Op>)

  /** `note_verdict`: only `available` gives birth to a proposal. A version or a stamp with a lone surrogate
      cannot be bound in the base: an exception leaves the round, and nothing is noted. */
  function Noted(view: Channel.View, build: Option<string>, at: nat, base: Base): seq<Op> {
    if Channel.Judge(view, build) != Channel.Available then []
    else
      var announce := view.success.value.announce;
      if announce.version.Lone? || announce.sha.Lone? then []
      else [Record(announce.version.s, announce.sha.s, at, base)]
  }

  /** PROPOSED, exactly: when the last attempt is neither hard nor without keys, something was verified, and the
      running build is an ancestor of it, other than itself. Then its version and its bytes are entered, unless
      one of them cannot be bound. */
  lemma NotedExactly(view: Channel.View, build: Option<string>, at: nat, base: Base)
    ensures var told := view.attempt == Channel.Never
                        || (view.attempt.state != Channel.NoTrustRoot
                            && !(view.attempt.state.Failed?
                                 && (view.attempt.state.fault == Channel.BadSignature
                                     || view.attempt.state.fault.UnknownKey?)));
            var fit := told && view.success.Some? && build.Some? && build.value != ""
                       && view.success.value.announce.sha != Channel.Plain(build.value)
                       && Channel.Plain(build.value) in view.success.value.announce.lineage;
            Noted(view, build, at, base)
            == if !fit then []
               else match (view.success.value.announce.version, view.success.value.announce.sha)
                    case (Plain(v), Plain(h)) => [Record(v, h, at, base)]
                    case _ => []
  {
    Channel.JudgedExactly(view, build);
  }

  /** `tour`: the verdict is that of the view just computed, even when it could not be written. */
  function After(s: Instance, e: Event, o: Channel.Outside): Instance {
    match e
    case Gesture(op) => if op.Record? then s else s.(ops := s.ops + [op])
    case Tour(poll, build, at, base) =>
      match Channel.Told(s.disk, poll, o)
      case None => s
      case Some(view) => Instance(Channel.AfterPoll(s.disk, poll, o), s.ops + Noted(view, build, at, base))
  }

  function Lived(events: seq<Event>, o: Channel.Outside): Instance {
    if events == [] then Instance(Channel.Nothing, [])
    else After(Lived(events[..|events| - 1], o), events[|events| - 1], o)
  }

  /** ONE MORE EVENT. A gesture of the user acts on the ledger and enters no edition; a round acts on the state
      file, and enters what its own view proposes, even one that could not be written. */
  lemma OneMoreEvent(events: seq<Event>, e: Event, o: Channel.Outside)
    ensures var before, after := Lived(events, o), Lived(events + [e], o);
            if e.Gesture? then
              after.disk == before.disk
              && Played(after.ops) == if e.op.Record? then Played(before.ops) else Apply(Played(before.ops), e.op)
            else
              var told := Channel.Told(before.disk, e.poll, o);
              after.disk == Channel.AfterPoll(before.disk, e.poll, o)
              && after.ops == before.ops + if told.Some? then Noted(told.value, e.build, e.at, e.base) else []
  {
    hide Noted, Apply;
    assert (events + [e])[..|events|] == events;
    var before := Lived(events, o);
    if e.Gesture? {
      assert (before.ops + [e.op])[..|before.ops|] == before.ops;
    }
  }

  /** Some round was served this announce under a key of its own trust root. */
  ghost predicate Backed(events: seq<Event>, a: Channel.Announce, o: Channel.Outside) {
    exists i :: 0 <= i < |events| && events[i].Tour? && Channel.Founded(events[i].poll, a, o)
  }

  /** Some round proposed this version and these bytes, on an announce that is backed and whose lineage
      holds the build that was running. */
  ghost predicate Proposable(events: seq<Event>, version: string, sha: string, o: Channel.Outside) {
    exists a: Channel.Announce, i :: Backed(events, a, o)
      && a.version == Channel.Plain(version) && a.sha == Channel.Plain(sha)
      && 0 <= i < |events| && events[i].Tour? && events[i].build.Some?
      && Channel.Plain(events[i].build.value) in a.lineage
  }

  lemma BackedLater(events: seq<Event>, a: Channel.Announce, o: Channel.Outside)
    requires events != [] && Backed(events[..|events| - 1], a, o)
    ensures Backed(events, a, o)
  {
    hide Channel.Founded;
    var before := events[..|events| - 1];
    var i :| 0 <= i < |before| && before[i].Tour? && Channel.Founded(before[i].poll, a, o);
    assert events[i] == before[i];
  }

  lemma ProposableLater(events: seq<Event>, version: string, sha: string, o: Channel.Outside)
    requires events != [] && Proposable(events[..|events| - 1], version, sha, o)
    ensures Proposable(events, version, sha, o)
  {
    hide Backed;
    var before := events[..|events| - 1];
    var a: Channel.Announce, i :| Backed(before, a, o)
      && a.version == Channel.Plain(version) && a.sha == Channel.Plain(sha)
      && 0 <= i < |before| && before[i].Tour? && before[i].build.Some?
      && Channel.Plain(before[i].build.value) in a.lineage;
    BackedLater(events, a, o);
    assert events[i] == before[i];
  }

  ghost predicate Sound(s: Instance, events: seq<Event>, o: Channel.Outside) {
    && (Channel.ReadState(s.disk).success.Some? ==> Backed(events, Channel.ReadState(s.disk).success.value.announce, o))
    && forall i :: 0 <= i < |s.ops| && s.ops[i].Record? ==> Proposable(events, s.ops[i].version, s.ops[i].sha, o)
  }

  /** Over any life of an instance, whatever its rounds were served and whichever writes failed, only a
      founded announce, from an edition the instance descends from, is ever entered in the ledger. */
  lemma {:induction false} OnlyFoundedEditionsAreProposed(events: seq<Event>, o: Channel.Outside)
    ensures Sound(Lived(events, o), events, o)
  {
    if events != [] {
      var before := events[..|events| - 1];
      OnlyFoundedEditionsAreProposed(before, o);
      StaysSound(Lived(before, o), events, o);
    }
  }

  lemma StaysSound(s: Instance, events: seq<Event>, o: Channel.Outside)
    requires events != [] && Sound(s, events[..|events| - 1], o)
    ensures Sound(After(s, events[|events| - 1], o), events, o)
  {
    hide Channel.Told, Channel.Founded, Channel.Judge, Channel.AfterPoll, Backed, Proposable;
    var e := events[|events| - 1];
    SoundLater(s, events, o);
    if e.Tour? && Channel.Told(s.disk, e.poll, o).Some? {
      var view := Channel.Told(s.disk, e.poll, o).value;
      ViewIsBacked(s, events, o);
      if Channel.Judge(view, e.build) == Channel.Available {
        AvailableIsProposable(view, events, o);
      }
    }
  }

  lemma SoundLater(s: Instance, events: seq<Event>, o: Channel.Outside)
    requires events != [] && Sound(s, events[..|events| - 1], o)
    ensures Sound(s, events, o)
  {
    hide Backed, Proposable;
    if Channel.ReadState(s.disk).success.Some? {
      BackedLater(events, Channel.ReadState(s.disk).success.value.announce, o);
    }
    forall i | 0 <= i < |s.ops| && s.ops[i].Record? ensures Proposable(events, s.ops[i].version, s.ops[i].sha, o) {
      ProposableLater(events, s.ops[i].version, s.ops[i].sha, o);
    }
  }

  lemma ViewIsBacked(s: Instance, events: seq<Event>, o: Channel.Outside)
    requires events != [] && Sound(s, events, o)
    requires var e := events[|events| - 1]; e.Tour? && Channel.Told(s.disk, e.poll, o).Some?
    ensures var e := events[|events| - 1];
            var view := Channel.Told(s.disk, e.poll, o).value;
            (view.success.Some? ==> Backed(events, view.success.value.announce, o))
            && (Channel.ReadState(Channel.AfterPoll(s.disk, e.poll, o)).success.Some? ==>
                  Backed(events, Channel.ReadState(Channel.AfterPoll(s.disk, e.poll, o)).success.value.announce, o))
  {
    hide Channel.Concluded, Channel.Founded;
    var e := events[|events| - 1];
    if Channel.Concluded(e.poll, o).value.1.Some? {
      Channel.AcceptedIsFounded(e.poll, o);
      assert Backed(events, Channel.Concluded(e.poll, o).value.1.value, o);
    }
  }

  lemma AvailableIsProposable(view: Channel.View, events: seq<Event>, o: Channel.Outside)
    requires events != [] && events[|events| - 1].Tour?
    requires Channel.Judge(view, events[|events| - 1].build) == Channel.Available
    requires view.success.Some? ==> Backed(events, view.success.value.announce, o)
    ensures view.success.Some?
    ensures var a := view.success.value.announce;
            a.version.Plain? && a.sha.Plain? ==> Proposable(events, a.version.s, a.sha.s, o)
  {
    hide Backed;
  }

  /** So a consent stands on a founded announce: whatever the user accepted, deferred or declined was,
      bytes for bytes, an edition that a key of the trust root of that round vouches for. */
  lemma ConsentIsFounded(events: seq<Event>, o: Channel.Outside, v: string)
    requires v in Played(Lived(events, o).ops)
    ensures Proposable(events, v, Played(Lived(events, o).ops)[v].sha, o)
  {
    var ops := Lived(events, o).ops;
    OnlyFoundedEditionsAreProposed(events, o);
    ConsentCoversWhatWasSeen(ops, v);
    hide Played, Lived, Proposable, Backed;
    var i :| 0 <= i < |ops| && ops[i].Record? && Commits(ops[i].base) && ops[i].version == v
      && ops[i].sha == Played(ops)[v].sha;
  }

  // --- one operation ---------------------------------------------------------------------------------------

  /** ANNOUNCED AGAIN. The same bytes leave the row as it is, the user's decision included; other bytes put it
      back to be decided, its first date apart; a new version is born undecided, dated now. Nothing else
      moves, and nothing at all on a base that does not commit. */
  lemma RecordExactly(rows: Table, version: string, sha: string, at: nat, base: Base)
    ensures var after := Apply(rows, Record(version, sha, at, base));
            if base == Unreadable || base == ReadOnly then after == rows
            else if version in rows && rows[version].sha == sha then after == rows
            else after == rows[version := Row(sha, Proposed, if version in rows then rows[version].firstSeen else at,
                                              None, at)]
  {
  }

  /** A choice and a revocation touch one row: a choice, any state but `proposed`, about the very bytes of the
      row; a revocation, a row that is declined. */
  lemma DecideExactly(rows: Table, version: string, sha: string, choice: State, at: nat, base: Base)
    ensures var after := Apply(rows, Decide(version, sha, choice, at, base));
            if version in rows && rows[version].sha == sha && choice in {Deferred, Declined, Accepted}
               && base in {Obeys, LostAfter}
            then after == rows[version := Row(sha, choice, rows[version].firstSeen, Some(at), at)]
            else after == rows
    ensures var after := Apply(rows, Revoke(version, at, base));
            if version in rows && rows[version].state == Declined && base in {Obeys, LostAfter}
            then after == rows[version := Row(rows[version].sha, Proposed, rows[version].firstSeen, None, at)]
            else after == rows
  {
  }

  /** So, over any history, a decision outlives every re-announcement of the same bytes. */
  lemma {:induction false} ADecisionOutlivesRepeats(ops: seq<Op>, repeats: seq<Op>, v: string)
    requires v in Played(ops)
    requires forall r :: r in repeats ==> r.Record? && (r.version == v ==> r.sha == Played(ops)[v].sha)
    ensures v in Played(ops + repeats) && Played(ops + repeats)[v] == Played(ops)[v]
    decreases |repeats|
  {
    if repeats == [] {
      assert ops + repeats == ops;
    } else {
      var init, last := repeats[..|repeats| - 1], repeats[|repeats| - 1];
      assert (ops + repeats)[..|ops + repeats| - 1] == ops + init && (ops + repeats)[|ops + repeats| - 1] == last;
      assert last in repeats && forall r :: r in init ==> r in repeats;
      ADecisionOutlivesRepeats(ops, init, v);
      RecordExactly(Played(ops + init), last.version, last.sha, last.at, last.base);
    }
  }
}
