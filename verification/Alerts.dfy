/** The table of blocking alerts (`db/alerts.py`): an upsert on a unique key that exists only while
    an alert is OPEN, so a block is never counted twice and can come back after it was closed. */
module Alerts {
  import opened Prelude

  /** A feature of a project: the `project/feature` reference of the table. */
  datatype Ref = Ref(project: nat, slug: nat)

  datatype Kind = WorkerFailed | RateLimited | Interrupted | InterviewHold | SocleHold | GateRed
  datatype Severity = Warn | Blocker
  datatype Status = Open | Acked | Resolved
  datatype Notice = Notice(severity: Severity, reason: string)  // tier and findings ride along in `reason`
  datatype Alert = Alert(id: nat, ref: Ref, kind: Kind, notice: Notice, status: Status,
                         created: nat, updated: nat, resolved: Option<nat>)

  type Key = (Ref, Kind)

  function KeyOf(a: Alert): Key {
    (a.ref, a.kind)
  }

  /** The rows the partial unique index sees. */
  function OpenKeys(rows: seq<Alert>): set<Key> {
    set i | 0 <= i < |rows| && rows[i].status == Open :: KeyOf(rows[i])
  }

  /** The partial unique index, and the primary key. */
  ghost predicate Indexed(rows: seq<Alert>) {
    && (forall i, j :: 0 <= i < j < |rows| && rows[i].status == Open && rows[j].status == Open ==>
          KeyOf(rows[i]) != KeyOf(rows[j]))
    && (forall i, j :: 0 <= i < j < |rows| ==> rows[i].id != rows[j].id)
  }

  // --- what each statement does to the table --------------------------------------------------------

  function Refreshed(a: Alert, notice: Notice, now: nat): Alert {
    a.(notice := notice, updated := now)
  }

  function Upserted(rows: seq<Alert>, id: nat, key: Key, notice: Notice, now: nat): seq<Alert> {
    if key in OpenKeys(rows)
    then seq(|rows|, i requires 0 <= i < |rows| =>
               if rows[i].status == Open && KeyOf(rows[i]) == key then Refreshed(rows[i], notice, now) else rows[i])
    else rows + [Alert(id, key.0, key.1, notice, Open, now, now, None)]
  }

  predicate Concerned(a: Alert, ref: Ref, kinds: set<Kind>) {
    a.status == Open && a.ref == ref && (kinds == {} || a.kind in kinds)
  }

  function Closed(rows: seq<Alert>, ref: Ref, kinds: set<Kind>, now: nat): seq<Alert> {
    seq(|rows|, i requires 0 <= i < |rows| =>
      if Concerned(rows[i], ref, kinds) then rows[i].(status := Resolved, resolved := Some(now)) else rows[i])
  }

  function Acknowledged(rows: seq<Alert>, id: nat): seq<Alert> {
    seq(|rows|, i requires 0 <= i < |rows| =>
      if rows[i].id == id && rows[i].status == Open then rows[i].(status := Acked) else rows[i])
  }

  // --- the table ----------------------------------------------------------------------------------------

  class AlertTable {
    var rows: seq<Alert>
    var nextId: nat

    ghost predicate Valid()
      reads this
    {
      Indexed(rows) && forall a :: a in rows ==> a.id < nextId
    }

    constructor ()
      ensures Valid() && rows == []
    {
      rows, nextId := [], 0;
    }

    /** `emit_alert`. Best effort: a base that fails (`!stored`) is logged, and nothing raises. */
    method Emit(key: Key, notice: Notice, now: nat, stored: bool)
      requires Valid()
      modifies this
      ensures Valid()
      ensures rows == if stored then Upserted(old(rows), old(nextId), key, notice, now) else old(rows)
      ensures OpenKeys(rows) == old(OpenKeys(rows)) + if stored then {key} else {}
    {
      if !stored {
        return;
      }
      UpsertKeepsTheIndex(rows, nextId, key, notice, now);
      ghost var before := rows;
      var at := |rows|;
      for i := 0 to |rows|
        invariant at == |rows| || (0 <= at < i && rows[at].status == Open && KeyOf(rows[at]) == key)
        invariant at == |rows| ==> forall j :: 0 <= j < i && rows[j].status == Open ==> KeyOf(rows[j]) != key
      {
        if rows[i].status == Open && KeyOf(rows[i]) == key {
          at := i;
        }
      }
      if at < |rows| {
        rows := rows[at := Refreshed(rows[at], notice, now)];
        assert key in OpenKeys(before);
        assert rows == Upserted(before, nextId, key, notice, now);
      } else {
        assert key !in OpenKeys(before);
        rows := rows + [Alert(nextId, key.0, key.1, notice, Open, now, now, None)];
        nextId := nextId + 1;
      }
    }

    /** `resolve_alerts`, best effort too. */
    method Resolve(ref: Ref, kinds: set<Kind>, now: nat, stored: bool)
      requires Valid()
      modifies this`rows
      ensures Valid()
      ensures rows == if stored then Closed(old(rows), ref, kinds, now) else old(rows)
      ensures OpenKeys(rows) == set k | k in old(OpenKeys(rows))
                                        && !(stored && k.0 == ref && (kinds == {} || k.1 in kinds))
    {
      if !stored {
        return;
      }
      CloseRemovesTheKeys(rows, ref, kinds, now);
      ghost var before := rows;
      for i := 0 to |rows|
        invariant |rows| == |before|
        invariant rows[..i] == Closed(before, ref, kinds, now)[..i]
        invariant rows[i..] == before[i..]
      {
        assert rows[i] == before[i..][0];
        if Concerned(rows[i], ref, kinds) {
          rows := rows[i := rows[i].(status := Resolved, resolved := Some(now))];
        }
      }
      assert rows == Closed(before, ref, kinds, now);
    }

    /** `ack_alert`: `None` is the unknown id (a 404), the only failure. */
    method Ack(id: nat) returns (row: Option<Alert>)
      requires Valid()
      modifies this`rows
      ensures Valid()
      ensures rows == Acknowledged(old(rows), id)
      ensures row.None? <==> forall a :: a in old(rows) ==> a.id != id
      ensures row.Some? ==> row.value in rows && row.value.id == id && row.value.status != Open
    {
      AckClosesTheIndex(rows, id);
      for i := 0 to |rows|
        invariant forall j :: 0 <= j < i ==> rows[j].id != id
        invariant rows == old(rows)
      {
        if rows[i].id == id {
          if rows[i].status == Open {
            rows := rows[i := rows[i].(status := Acked)];
          }
          assert rows == Acknowledged(old(rows), id);
          assert rows[i] in rows && old(rows)[i] in old(rows);
          return Some(rows[i]);
        }
      }
      assert rows == Acknowledged(rows, id);
      return None;
    }
  }

  // --- what the lifecycle keeps -----------------------------------------------------------------------

  /** One open row per motive, whatever the number of times it is detected; the date of the FIRST
      detection stays, and nothing else in the table moves. */
  lemma UpsertKeepsTheIndex(rows: seq<Alert>, id: nat, key: Key, notice: Notice, now: nat)
    requires Indexed(rows) && forall a :: a in rows ==> a.id < id
    ensures var after := Upserted(rows, id, key, notice, now);
            Indexed(after) && OpenKeys(after) == OpenKeys(rows) + {key}
            && |after| == |rows| + (if key in OpenKeys(rows) then 0 else 1)
            && (forall i :: 0 <= i < |rows| ==>
                  after[i].id == rows[i].id && after[i].created == rows[i].created && after[i].status == rows[i].status
                  && (after[i] != rows[i] ==> rows[i].status == Open && KeyOf(rows[i]) == key))
            && (forall i :: 0 <= i < |after| && after[i].status == Open && KeyOf(after[i]) == key ==>
                  after[i].notice == notice && after[i].updated == now)
  {
    var after := Upserted(rows, id, key, notice, now);
    forall i | 0 <= i < |rows| ensures rows[i].id < id {
      assert rows[i] in rows;
    }
    if key in OpenKeys(rows) {
      RefreshKeepsTheKeys(rows, key, notice, now);
    } else {
      forall i | 0 <= i < |rows| && rows[i].status == Open ensures KeyOf(rows[i]) != key {
        assert KeyOf(rows[i]) in OpenKeys(rows);
      }
      AppendAddsItsKey(rows, after[|rows|]);
    }
  }

  lemma RefreshKeepsTheKeys(rows: seq<Alert>, key: Key, notice: Notice, now: nat)
    requires key in OpenKeys(rows)
    ensures OpenKeys(Upserted(rows, 0, key, notice, now)) == OpenKeys(rows)
  {
    var after := Upserted(rows, 0, key, notice, now);
    forall k ensures k in OpenKeys(after) <==> k in OpenKeys(rows) {
      if k in OpenKeys(rows) {
        var i :| 0 <= i < |rows| && rows[i].status == Open && KeyOf(rows[i]) == k;
        assert after[i].status == Open && KeyOf(after[i]) == k;
      }
      if k in OpenKeys(after) {
        var i :| 0 <= i < |after| && after[i].status == Open && KeyOf(after[i]) == k;
        assert KeyOf(rows[i]) == k;
      }
    }
  }

  lemma AppendAddsItsKey(rows: seq<Alert>, a: Alert)
    requires a.status == Open
    ensures OpenKeys(rows + [a]) == OpenKeys(rows) + {KeyOf(a)}
  {
    var after := rows + [a];
    forall k ensures k in OpenKeys(after) <==> k in OpenKeys(rows) + {KeyOf(a)} {
      if k in OpenKeys(rows) {
        var i :| 0 <= i < |rows| && rows[i].status == Open && KeyOf(rows[i]) == k;
        assert after[i] == rows[i];
      }
      assert after[|rows|] == a;
    }
  }

  lemma CloseRemovesTheKeys(rows: seq<Alert>, ref: Ref, kinds: set<Kind>, now: nat)
    requires Indexed(rows)
    ensures var after := Closed(rows, ref, kinds, now);
            Indexed(after)
            && OpenKeys(after) == (set k | k in OpenKeys(rows) && !(k.0 == ref && (kinds == {} || k.1 in kinds)))
            && forall i :: 0 <= i < |rows| ==> after[i].id == rows[i].id
  {
    var after := Closed(rows, ref, kinds, now);
    forall k ensures k in OpenKeys(after) <==>
                       k in OpenKeys(rows) && !(k.0 == ref && (kinds == {} || k.1 in kinds))
    {
      if k in OpenKeys(rows) && !(k.0 == ref && (kinds == {} || k.1 in kinds)) {
        var i :| 0 <= i < |rows| && rows[i].status == Open && KeyOf(rows[i]) == k;
        assert after[i] == rows[i];
      }
      if k in OpenKeys(after) {
        var i :| 0 <= i < |after| && after[i].status == Open && KeyOf(after[i]) == k;
        assert after[i] == rows[i];
      }
    }
  }

  lemma AckClosesTheIndex(rows: seq<Alert>, id: nat)
    requires Indexed(rows)
    ensures Indexed(Acknowledged(rows, id)) && OpenKeys(Acknowledged(rows, id)) <= OpenKeys(rows)
    ensures forall i :: 0 <= i < |rows| ==> Acknowledged(rows, id)[i].id == rows[i].id
  {
    var after := Acknowledged(rows, id);
    forall k | k in OpenKeys(after) ensures k in OpenKeys(rows) {
      var i :| 0 <= i < |after| && after[i].status == Open && KeyOf(after[i]) == k;
      assert after[i] == rows[i];
    }
  }

  /** A motive that was closed and comes back opens a NEW row: the closed one is history. */
  lemma BlockAgainReopens(rows: seq<Alert>, id: nat, key: Key, notice: Notice, closedAt: nat, now: nat)
    requires Indexed(rows) && forall a :: a in rows ==> a.id < id
    ensures var closed := Closed(rows, key.0, {key.1}, closedAt);
            Upserted(closed, id, key, notice, now)
            == closed + [Alert(id, key.0, key.1, notice, Open, now, now, None)]
  {
    CloseRemovesTheKeys(rows, key.0, {key.1}, closedAt);
  }

  // --- row by row ---------------------------------------------------------------------------------------

  /** A block that is detected again changes the notice and the date of its open row, and nothing else; one
      that is not known opens a new row, last, dated now. */
  lemma UpsertedExactly(rows: seq<Alert>, id: nat, key: Key, notice: Notice, now: nat)
    ensures var after := Upserted(rows, id, key, notice, now);
            var known := exists i :: 0 <= i < |rows| && rows[i].status == Open && rows[i].ref == key.0
                                     && rows[i].kind == key.1;
            |after| == |rows| + (if known then 0 else 1)
            && (forall i :: 0 <= i < |rows| ==>
                  after[i] == if rows[i].status == Open && rows[i].ref == key.0 && rows[i].kind == key.1
                              then rows[i].(notice := notice, updated := now) else rows[i])
            && (!known ==> after[|rows|] == Alert(id, key.0, key.1, notice, Open, now, now, None))
  {
    forall i | 0 <= i < |rows| && rows[i].status == Open && rows[i].ref == key.0 && rows[i].kind == key.1
      ensures key in OpenKeys(rows)
    {
      assert KeyOf(rows[i]) == key;
    }
  }

  /** A resolution closes, dated now, the open rows of the feature whose kind is named -- all of them when no
      kind is -- and an acknowledgement turns one open row into an acknowledged one. */
  lemma ClosedExactly(rows: seq<Alert>, ref: Ref, kinds: set<Kind>, now: nat, id: nat)
    ensures |Closed(rows, ref, kinds, now)| == |Acknowledged(rows, id)| == |rows|
    ensures forall i :: 0 <= i < |rows| ==>
              Closed(rows, ref, kinds, now)[i]
              == if rows[i].status == Open && rows[i].ref == ref && (kinds == {} || rows[i].kind in kinds)
                 then rows[i].(status := Resolved, resolved := Some(now)) else rows[i]
    ensures forall i :: 0 <= i < |rows| ==>
              Acknowledged(rows, id)[i]
              == if rows[i].status == Open && rows[i].id == id then rows[i].(status := Acked) else rows[i]
  {
  }
}
