/** The base and the binaries that open it (`db/store.py`): forward only, refused when it is newer than
    the binary, unless the user insists. */
module Store {
  import opened Prelude

  /** The file of the base: its schema (`PRAGMA user_version`) and its rows. */
  datatype Base = Missing | NotABase | Base(schema: nat, rows: seq<int>)

  datatype Refusal = TooNew(found: nat) | Unreadable

  /** `migrate`: forward only, and a newer database is refused unless the caller insists. */
  function Migrate(found: nat, known: nat, allowUnknown: bool): Result<nat, nat> {
    if found > known && !allowUnknown then Err(found)
    else if found < known then Ok(known)
    else Ok(found)
  }

  class Instance {
    var base: Base
    var connections: nat
    const known: nat  // the schema this binary writes

    constructor (base: Base, known: nat)
      ensures this.base == base && this.known == known && connections == 0
    {
      this.base, this.known, connections := base, known, 0;
    }

    /** `open_db`: a refusal changes nothing and leaves no connection behind. */
    method OpenDb(allow: bool) returns (schema: Result<nat, Refusal>)
      modifies this
      ensures schema == Opening(old(base), known, allow)
      ensures base == AfterOpening(old(base), known, allow)
      ensures connections == old(connections) + if schema.Ok? then 1 else 0
    {
      if base.NotABase? {
        return Err(Unreadable);
      }
      if base.Missing? {
        base := Base(0, []);
      }
      connections := connections + 1;
      var found := base.schema;
      if found > known && !allow {
        connections := connections - 1;
        return Err(TooNew(found));
      }
      if found < known {
        base := Base(known, base.rows);
      }
      schema := Ok(base.schema);
    }

    /** `readiness`: the question of `migrate`, asked without acting -- an absent base stays absent. */
    method Readiness(allow: bool) returns (ready: bool)
      modifies this
      ensures ready <==> Opening(old(base), known, allow).Ok?
      ensures base == old(base) && connections == old(connections)
    {
      if base.Missing? {
        return true;
      }
      if base.NotABase? {
        return false;
      }
      connections := connections + 1;
      var found := base.schema;
      connections := connections - 1;
      ready := !(found > known && !allow);
    }
  }

  function Opening(b: Base, known: nat, allow: bool): Result<nat, Refusal> {
    match b
    case Missing => Ok(known)
    case NotABase => Err(Unreadable)
    case Base(found, _) =>
      match Migrate(found, known, allow)
      case Err(_) => Err(TooNew(found))
      case Ok(schema) => Ok(schema)
  }

  function AfterOpening(b: Base, known: nat, allow: bool): Base {
    match Opening(b, known, allow)
    case Err(_) => b
    case Ok(schema) => Base(schema, if b.Base? then b.rows else [])
  }

  /** One binary after another on the same base, forced or not. */
  function Openings(b: Base, binaries: seq<(nat, bool)>): Base {
    if binaries == [] then b
    else AfterOpening(Openings(b, binaries[..|binaries| - 1]), binaries[|binaries| - 1].0, binaries[|binaries| - 1].1)
  }

  /** FORWARD ONLY. Whatever binaries open a base, in whatever order, its schema never goes back and its
      rows stay; and a binary that is not forced opens it only when no earlier one -- accepted, since a
      refused one changes nothing -- took it further than itself. */
  lemma {:induction false} SchemaNeverGoesBack(b: Base, binaries: seq<(nat, bool)>, k: nat)
    requires b.Base? && k <= |binaries|
    ensures Openings(b, binaries).Base? && Openings(b, binaries[..k]).Base?
    ensures Openings(b, binaries).rows == b.rows
    ensures b.schema <= Openings(b, binaries[..k]).schema <= Openings(b, binaries).schema
    ensures k < |binaries| && !binaries[k].1 ==>
              (Opening(Openings(b, binaries[..k]), binaries[k].0, false).Ok? <==>
                 Openings(b, binaries[..k]).schema <= binaries[k].0)
    decreases |binaries|
  {
    if k == |binaries| {
      assert binaries[..k] == binaries;
      if k > 0 {
        var init := binaries[..k - 1];
        SchemaNeverGoesBack(b, init, |init|);
        assert init[..|init|] == init;
      }
    } else {
      var init := binaries[..|binaries| - 1];
      SchemaNeverGoesBack(b, init, k);
      assert init[..k] == binaries[..k];
    }
  }

  /** OPENING, exactly. An absent base is created at the schema of the binary; a file that is no base is left
      alone; an older base goes forward, its rows untouched; a newer one is refused, as it is, unless the user
      insists, and then opened without a change. */
  lemma OpenedExactly(b: Base, known: nat, allow: bool)
    ensures b == Missing ==> Opening(b, known, allow) == Ok(known) && AfterOpening(b, known, allow) == Base(known, [])
    ensures b == NotABase ==> Opening(b, known, allow) == Err(Unreadable) && AfterOpening(b, known, allow) == b
    ensures b.Base? && b.schema <= known ==>
              Opening(b, known, allow) == Ok(known) && AfterOpening(b, known, allow) == Base(known, b.rows)
    ensures b.Base? && b.schema > known ==>
              Opening(b, known, allow) == (if allow then Ok(b.schema) else Err(TooNew(b.schema)))
              && AfterOpening(b, known, allow) == b
  {
  }
}
