/** Retention of snapshots (`snapshot.create`, `snapshot._purge`) and the check the voluntary
    rollback makes BEFORE its first gesture (`apply_update._refuse_if_target_would_be_purged`). */
module Retention {
  import opened Prelude
  import opened Stamps

  const ROLLBACK_DEPTH: nat := 1
  const KEEP_SNAPSHOTS: nat := ROLLBACK_DEPTH + 2

  /** What a database is to the update cycle: the schema it carries and its rows. */
  datatype Db = Db(schema: nat, rows: seq<int>)

  /** A snapshot directory. `complete` is "its manifest, written last, is there". */
  datatype Snap = Snap(complete: bool, db: Option<Db>)

  type Root = map<Stamp, Snap>

  /** The complete snapshots other than `spare`: the ones that compete for a place. */
  function Rivals(root: Root, spare: Stamp): set<Stamp> {
    set d | d in root && d != spare && root[d].complete
  }

  function Complete(root: Root): set<Stamp> {
    set d | d in root && root[d].complete
  }

  /** Does directory `d` survive a purge that keeps `keep` snapshots and spares `spare`? */
  predicate Survives(root: Root, keep: nat, spare: Stamp, d: Stamp) {
    d == spare || (d in Rivals(root, spare) && |Newer(Rivals(root, spare), d)| + 1 < keep)
  }

  function Purged(root: Root, keep: nat, spare: Stamp): Root {
    map d | d in root && Survives(root, keep, spare, d) :: root[d]
  }

  /** The two lists of `_purge`, newest first: incomplete directories, then complete ones past the quota. */
  function Dropped(root: Root, keep: nat, spare: Stamp): seq<Stamp>
    requires keep >= 1
  {
    var complete := Picked(NewestFirst(root.Keys), root, spare, true);
    var quota := if keep - 1 <= |complete| then keep - 1 else |complete|;
    Picked(NewestFirst(root.Keys), root, spare, false) + complete[quota..]
  }

  /** The deletion number `rank` fails, and leaves its directory in some state. */
  datatype Obstacle = Obstacle(rank: nat, residue: Snap)

  predicate Stops(o: Option<Obstacle>, dropped: seq<Stamp>) {
    o.Some? && o.value.rank < |dropped|
  }

  /** The root once the deletions are over, or have met an obstacle. */
  function Removed(root: Root, dropped: seq<Stamp>, o: Option<Obstacle>): Root {
    if !Stops(o, dropped) then root - Elements(dropped)
    else (root - Elements(dropped[..o.value.rank]))[dropped[o.value.rank] := o.value.residue]
  }

  /** How far a `create` gets. `DuringPurge`: a directory that cannot be deleted raises, and cuts the purge
      short when the snapshot is already complete. */
  datatype Progress = BeforeDirectory | BeforeManifest | DuringPurge(at: Obstacle) | Completed

  /** The snapshot root after a `create` named `stamp` that got as far as `how`. */
  function AfterCreate(root: Root, stamp: Stamp, db: Option<Db>, how: Progress): Root {
    var taken := root[stamp := Snap(true, db)];
    match how
    case BeforeDirectory => root
    case BeforeManifest => root[stamp := Snap(false, None)]
    case DuringPurge(at) => Removed(taken, Dropped(taken, KEEP_SNAPSHOTS, stamp), Some(at))
    case Completed => Purged(taken, KEEP_SNAPSHOTS, stamp)
  }

  /** `_refuse_if_target_would_be_purged`, negated: the rollback may take its safety snapshot. */
  function Accepts(root: Root, target: Stamp): bool {
    |Newer(Complete(root), target)| < KEEP_SNAPSHOTS - 1
  }

  datatype PurgeFault = BadKeep | CutShort

  class SnapshotRoot {
    var dirs: Root

    constructor (initial: Root)
      ensures dirs == initial
    {
      dirs := initial;
    }

    /** First loop of `_purge`: `spare` left out, complete and incomplete directories apart. */
    static method Classify(root: Root, listing: seq<Stamp>, spare: Stamp)
      returns (complete: seq<Stamp>, incomplete: seq<Stamp>)
      requires forall d :: d in listing ==> d in root
      ensures complete == Picked(listing, root, spare, true)
      ensures incomplete == Picked(listing, root, spare, false)
    {
      complete, incomplete := [], [];
      for i := 0 to |listing|
        invariant complete == Picked(listing[..i], root, spare, true)
        invariant incomplete == Picked(listing[..i], root, spare, false)
      {
        var d := listing[i];
        assert listing[..i+1][..i] == listing[..i];
        if d == spare {
          continue;
        }
        if root[d].complete {
          complete := complete + [d];
        } else {
          incomplete := incomplete + [d];
        }
      }
      assert listing[..|listing|] == listing;
    }

    /** Last loop of `_purge`: no deletion is retried or skipped. */
    method Remove(dropped: seq<Stamp>, o: Option<Obstacle>) returns (ok: bool)
      modifies this
      ensures ok <==> !Stops(o, dropped)
      ensures dirs == Removed(old(dirs), dropped, o)
    {
      for i := 0 to |dropped|
        invariant o.Some? ==> i <= o.value.rank
        invariant dirs == old(dirs) - Elements(dropped[..i])
      {
        if o.Some? && i == o.value.rank {
          dirs := dirs[dropped[i] := o.value.residue];
          return false;
        }
        dirs := dirs - {dropped[i]};
        assert dropped[..i+1] == dropped[..i] + [dropped[i]];
      }
      assert dropped[..|dropped|] == dropped;
      ok := true;
    }

    /** `_purge`: incomplete directories go first, then every complete one past the quota. */
    method Purge(keep: int, spare: Stamp, o: Option<Obstacle>) returns (r: Result<seq<Stamp>, PurgeFault>)
      modifies this
      ensures r == Err(BadKeep) <==> keep < 1
      ensures keep < 1 ==> dirs == old(dirs)
      ensures keep >= 1 ==> dirs == Removed(old(dirs), Dropped(old(dirs), keep, spare), o)
      ensures keep >= 1 ==> (r.Ok? <==> !Stops(o, Dropped(old(dirs), keep, spare)))
      ensures r.Ok? ==> dirs == Purged(old(dirs), keep, spare) && Elements(r.value) == old(dirs).Keys - dirs.Keys
    {
      hide Survives, Purged, Newer, NewestFirst;
      if keep < 1 {
        return Err(BadKeep);
      }
      var listing := NewestFirst(dirs.Keys);
      var complete, dropped := Classify(dirs, listing, spare);
      var quota := if keep - 1 <= |complete| then keep - 1 else |complete|;
      dropped := dropped + complete[quota..];
      PurgeDrops(dirs, keep, spare);
      var ok := Remove(dropped, o);
      r := if ok then Ok(dropped) else Err(CutShort);
    }

    /** `create`, reduced to its effect on the root: the purge runs only once the manifest is written. */
    method Create(stamp: Stamp, db: Option<Db>, how: Progress) returns (ok: bool)
      requires stamp !in dirs
      modifies this
      ensures dirs == AfterCreate(old(dirs), stamp, db, how)
      ensures ok ==> stamp in dirs && dirs[stamp] == Snap(true, db)
      ensures how == Completed ==> ok
    {
      hide Purged, Survives, Dropped, Newer, Removed, NewestFirst;
      ghost var initial := dirs;
      if how == BeforeDirectory {
        return false;
      }
      dirs := dirs[stamp := Snap(false, None)];
      if how == BeforeManifest {
        return false;
      }
      dirs := dirs[stamp := Snap(true, db)];
      assert dirs == initial[stamp := Snap(true, db)];
      NewOneIsThere(initial, stamp, db, how);
      var purge := Purge(KEEP_SNAPSHOTS, stamp, if how.DuringPurge? then Some(how.at) else None);
      ok := purge.Ok?;
    }
  }

  /** The part of the newest-first list kept by the quota is exactly the surviving rivals. */
  lemma QuotaIsPrefix(root: Root, keep: nat, spare: Stamp, complete: seq<Stamp>)
    requires keep >= 1
    requires Descending(complete) && Elements(complete) == Rivals(root, spare)
    ensures forall i :: 0 <= i < |complete| ==> (Survives(root, keep, spare, complete[i]) <==> i < keep - 1)
  {
    forall i | 0 <= i < |complete|
      ensures Survives(root, keep, spare, complete[i]) <==> i < keep - 1
    {
      RankIsIndex(complete, i);
      assert Newer(Rivals(root, spare), complete[i]) == set x | x in complete && x > complete[i];
      assert complete[i] in Rivals(root, spare);
    }
  }

  /** The elements of a listing that are not `spare` and whose completeness is `wanted`. */
  function Picked(listing: seq<Stamp>, root: Root, spare: Stamp, wanted: bool): (p: seq<Stamp>)
    requires forall d :: d in listing ==> d in root
    ensures forall d :: d in p <==> d in listing && d != spare && root[d].complete == wanted
  {
    if listing == [] then [] else
    var init, last := listing[..|listing| - 1], listing[|listing| - 1];
    assert listing == init + [last];
    Picked(init, root, spare, wanted)
      + if last != spare && root[last].complete == wanted then [last] else []
  }

  lemma {:induction false} PickedDescends(listing: seq<Stamp>, root: Root, spare: Stamp, wanted: bool)
    requires Descending(listing)
    requires forall d :: d in listing ==> d in root
    ensures Descending(Picked(listing, root, spare, wanted))
  {
    if listing != [] {
      var init, last := listing[..|listing| - 1], listing[|listing| - 1];
      PickedDescends(init, root, spare, wanted);
      var p := Picked(init, root, spare, wanted);
      forall k | 0 <= k < |p| ensures p[k] > last {
        assert p[k] in init;
      }
    }
  }

  /** DROPPED, in order: the directories of interrupted snapshots first, then complete ones, the most recent
      first in both. */
  lemma DroppedInOrder(root: Root, keep: nat, spare: Stamp, i: nat, j: nat)
    requires keep >= 1 && i < j < |Dropped(root, keep, spare)|
    ensures var d := Dropped(root, keep, spare);
            d[i] in root && d[j] in root
            && if root[d[i]].complete == root[d[j]].complete then d[i] > d[j] else root[d[j]].complete
  {
    hide Picked, NewestFirst;
    var listing := NewestFirst(root.Keys);
    PickedDescends(listing, root, spare, false);
    PickedDescends(listing, root, spare, true);
    var incomplete, complete := Picked(listing, root, spare, false), Picked(listing, root, spare, true);
    var d, n := Dropped(root, keep, spare), |incomplete|;
    var quota := |complete| - (|d| - n);
    assert forall k :: 0 <= k < |d| ==> d[k] == if k < n then incomplete[k] else complete[quota + k - n];
    assert forall k :: 0 <= k < n ==> incomplete[k] in incomplete;
    assert forall k :: 0 <= k < |complete| ==> complete[k] in complete;
  }

  /** What the two lists of `_purge` drop is exactly what does not survive. */
  lemma PurgeDrops(root: Root, keep: nat, spare: Stamp)
    requires keep >= 1
    ensures var dropped := Dropped(root, keep, spare);
            root - Elements(dropped) == Purged(root, keep, spare) == Removed(root, dropped, None)
            && Elements(dropped) == root.Keys - Purged(root, keep, spare).Keys
            && forall d :: d in dropped <==> d in root && !Survives(root, keep, spare, d)
  {
    hide Survives, Dropped;
    DroppedMembers(root, keep, spare);
  }

  lemma DroppedMembers(root: Root, keep: nat, spare: Stamp)
    requires keep >= 1
    ensures forall d :: d in Dropped(root, keep, spare) <==> d in root && !Survives(root, keep, spare, d)
  {
    hide Survives, Newer;
    var listing := NewestFirst(root.Keys);
    var complete := Picked(listing, root, spare, true);
    var quota := if keep - 1 <= |complete| then keep - 1 else |complete|;
    var dropped := Dropped(root, keep, spare);
    PickedDescends(listing, root, spare, true);
    assert Elements(complete) == Rivals(root, spare);
    forall d | d in root ensures d in dropped <==> !Survives(root, keep, spare, d) {
      SurvivorsAreComplete(root, keep, spare, d);
      if d == spare {
        assert d !in complete;
      } else if root[d].complete {
        assert d in complete;
        ExcessIsDropped(root, keep, spare, complete, quota, d);
      } else {
        assert d in Picked(listing, root, spare, false);
      }
    }
    assert forall d :: d in dropped ==> d in root;
  }

  lemma SurvivorsAreComplete(root: Root, keep: nat, spare: Stamp, d: Stamp)
    requires d in root
    ensures d == spare ==> Survives(root, keep, spare, d)
    ensures Survives(root, keep, spare, d) && d != spare ==> root[d].complete
  {
  }

  lemma ExcessIsDropped(root: Root, keep: nat, spare: Stamp, complete: seq<Stamp>, quota: nat, d: Stamp)
    requires keep >= 1
    requires Descending(complete) && Elements(complete) == Rivals(root, spare)
    requires quota == if keep - 1 <= |complete| then keep - 1 else |complete|
    requires d in complete
    ensures d in complete[quota..] <==> !Survives(root, keep, spare, d)
  {
    QuotaIsPrefix(root, keep, spare, complete);
    var i :| 0 <= i < |complete| && complete[i] == d;
    if i >= quota {
      assert complete[quota..][i - quota] == d;
    }
  }

  /** The refusal is exact: a complete target is accepted if and only if it survives the purge
      that the safety snapshot triggers, whatever the name of that snapshot. */
  lemma RefusalIsExact(root: Root, target: Stamp, safety: Stamp, db: Option<Db>)
    requires target in root && root[target].complete
    requires safety !in root
    ensures Accepts(root, target) <==> target in AfterCreate(root, safety, db, Completed)
    ensures Accepts(root, target) ==> AfterCreate(root, safety, db, Completed)[target] == root[target]
  {
    var taken := root[safety := Snap(true, db)];
    assert Rivals(taken, safety) == Complete(root);
  }

  lemma SurvivorIsEarly(root: Root, keep: nat, spare: Stamp, order: seq<Stamp>, d: Stamp)
    requires keep >= 1 && Descending(order) && Elements(order) == Rivals(root, spare)
    requires d in root && d != spare && Survives(root, keep, spare, d)
    ensures d in order[..if |order| < keep - 1 then |order| else keep - 1]
  {
    hide Newer;
    QuotaIsPrefix(root, keep, spare, order);
    assert d in order;
    var i :| 0 <= i < |order| && order[i] == d;
    assert order[..if |order| < keep - 1 then |order| else keep - 1][i] == d;
  }

  /** At most `keep` directories are left by a purge. */
  lemma PurgeRespectsQuota(root: Root, keep: nat, spare: Stamp)
    requires keep >= 1
    ensures |Purged(root, keep, spare)| <= keep
  {
    var order := NewestFirst(Rivals(root, spare));
    hide Survives, Newer, NewestFirst, Rivals;
    var quota := if |order| < keep - 1 then |order| else keep - 1;
    var early := Elements(order[..quota]);
    forall d | d in Purged(root, keep, spare).Keys && d != spare ensures d in early {
      SurvivorIsEarly(root, keep, spare, order, d);
    }
    hide Purged;
    DistinctCount(order[..quota]);
    SubsetSize(Purged(root, keep, spare).Keys, {spare} + early);
    SubsetSize(early - {spare}, early);
    assert {spare} + early == {spare} + (early - {spare});
  }

  /** At EVERY prefix of the deletions, the new snapshot and every directory that is to survive are there,
      intact; nothing else than the directories to drop has been touched. */
  lemma CutPurgeKeepsSurvivors(root: Root, keep: nat, spare: Stamp, at: Obstacle)
    requires keep >= 1
    ensures var after := Removed(root, Dropped(root, keep, spare), Some(at));
            (forall d :: d in root && Survives(root, keep, spare, d) ==> d in after && after[d] == root[d])
            && (forall d :: d in after ==>
                  d in root && (Survives(root, keep, spare, d) || after[d] in {root[d], at.residue}))
  {
    hide Survives, Dropped;
    PurgeDrops(root, keep, spare);
    var dropped := Dropped(root, keep, spare);
    if Stops(Some(at), dropped) {
      assert forall d :: d in dropped[..at.rank] ==> d in dropped;
    }
  }

  lemma NewOneIsThere(root: Root, stamp: Stamp, db: Option<Db>, how: Progress)
    requires stamp !in root && (how.Completed? || how.DuringPurge?)
    ensures stamp in AfterCreate(root, stamp, db, how) && AfterCreate(root, stamp, db, how)[stamp] == Snap(true, db)
    ensures how.Completed? ==>
              var taken := root[stamp := Snap(true, db)];
              Removed(taken, Dropped(taken, KEEP_SNAPSHOTS, stamp), None) == AfterCreate(root, stamp, db, how)
  {
    hide Survives, Dropped, Purged, Removed;
    CreateKeepsTheNewOne(root, stamp, db, how);
    PurgeDrops(root[stamp := Snap(true, db)], KEEP_SNAPSHOTS, stamp);
  }

  /** A `create` never removes anything before its own snapshot is complete; from then on the new snapshot
      and every survivor are there whatever interrupts the purge; and once the purge is over, nothing is
      left but complete snapshots, within the quota. */
  lemma CreateKeepsTheNewOne(root: Root, stamp: Stamp, db: Option<Db>, how: Progress)
    requires stamp !in root
    ensures var after := AfterCreate(root, stamp, db, how);
            match how
            case Completed =>
              stamp in after && after[stamp] == Snap(true, db)
              && (forall d :: d in after ==> after[d].complete) && |after| <= KEEP_SNAPSHOTS
            case DuringPurge(_) =>
              stamp in after && after[stamp] == Snap(true, db)
              && forall d :: d in root && Survives(root[stamp := Snap(true, db)], KEEP_SNAPSHOTS, stamp, d) ==>
                   d in after && after[d] == root[d]
            case _ =>
              (forall d :: d in root ==> d in after && after[d] == root[d])
              && (forall d :: d in after && after[d].complete ==> d in root)
  {
    hide Survives, Newer, Dropped;
    var taken := root[stamp := Snap(true, db)];
    match how
    case Completed =>
      PurgeRespectsQuota(taken, KEEP_SNAPSHOTS, stamp);
      forall d | d in taken
        ensures (d == stamp ==> Survives(taken, KEEP_SNAPSHOTS, stamp, d))
                && (Survives(taken, KEEP_SNAPSHOTS, stamp, d) ==> taken[d].complete)
      {
        SurvivorsAreComplete(taken, KEEP_SNAPSHOTS, stamp, d);
      }
    case DuringPurge(at) =>
      SurvivorsAreComplete(taken, KEEP_SNAPSHOTS, stamp, stamp);
      CutPurgeKeepsSurvivors(taken, KEEP_SNAPSHOTS, stamp, at);
      assert forall d :: d in root ==> d in taken && taken[d] == root[d];
    case _ =>
  }

  /** THE NEWEST ARE KEPT, exactly. A purge that is not cut keeps the spared snapshot and, of the other complete
      ones, those that have fewer than `keep - 1` complete others more recent than themselves. */
  lemma PurgeKeepsTheNewest(root: Root, keep: nat, spare: Stamp, d: Stamp)
    requires keep >= 1 && d in root
    ensures var newer := set x | x in root && x != spare && root[x].complete && x > d;
            (d in Purged(root, keep, spare) <==> d == spare || (root[d].complete && |newer| < keep - 1))
            && (d in Purged(root, keep, spare) ==> Purged(root, keep, spare)[d] == root[d])
  {
    assert Newer(Rivals(root, spare), d) == set x | x in root && x != spare && root[x].complete && x > d;
  }

  /** With one rollback to come, three snapshots: the one just taken, the target, and the one before it; and a
      target is let through exactly when at most one complete snapshot is more recent. */
  lemma ThreeAreKept(root: Root, target: Stamp)
    ensures KEEP_SNAPSHOTS == 3
    ensures Accepts(root, target) <==> |set x | x in root && root[x].complete && x > target| <= 1
  {
    assert Newer(Complete(root), target) == set x | x in root && root[x].complete && x > target;
  }
}
