/** completeChange as a loop over the groups' records, with nobody else at work. */
module Controller {
  import opened Options
  import opened Kv
  import opened ShardServer
  import opened Migration

  /** The groups' shard records as a controller reaches them. */
  class Groups {
    var recs: map<(nat, nat), ShardRec>

    constructor (recs: map<(nat, nat), ShardRec>)
      ensures this.recs == recs
    {
      this.recs := recs;
    }

    method FreezeShard(g: nat, sh: nat, num: nat) returns (state: Option<Store>)
      requires (g, sh) in recs
      modifies this
      ensures recs == old(recs)[(g, sh) := FreezeRec(old(recs)[(g, sh)], num).0]
      ensures state == FreezeRec(old(recs)[(g, sh)], num).1
    {
      var (r, st) := FreezeRec(recs[(g, sh)], num);
      recs := recs[(g, sh) := r];
      state := st;
    }

    method InstallShard(g: nat, sh: nat, num: nat, state: Option<Store>)
      requires (g, sh) in recs
      modifies this
      ensures recs == old(recs)[(g, sh) := InstallRec(old(recs)[(g, sh)], num, state)]
    {
      recs := recs[(g, sh) := InstallRec(recs[(g, sh)], num, state)];
    }

    method DeleteShard(g: nat, sh: nat, num: nat)
      requires (g, sh) in recs
      modifies this
      ensures recs == old(recs)[(g, sh) := DeleteRec(old(recs)[(g, sh)], num)]
    {
      recs := recs[(g, sh) := DeleteRec(recs[(g, sh)], num)];
    }

    /** Move every shard whose owner changes: freeze, install, delete. */
    method CompleteChange(prev: Config, new_: Config)
      requires Covers(recs, prev, new_)
      modifies this
      ensures recs == Completed(old(recs), prev, new_, |new_.shards|)
    {
      for sh := 0 to |new_.shards|
        invariant Covers(recs, prev, new_)
        invariant recs == Completed(old(recs), prev, new_, sh)
      {
        var from, to := prev.shards[sh], new_.shards[sh];
        if from != to {
          var state := FreezeShard(from, sh, new_.num);
          InstallShard(to, sh, new_.num, state);
          DeleteShard(from, sh, new_.num);
        }
      }
    }
  }

  /** Both configurations assign every shard to a group with a record for it. */
  ghost predicate Covers(recs: map<(nat, nat), ShardRec>, prev: Config, new_: Config) {
    && |prev.shards| == |new_.shards|
    && (forall sh: nat :: sh < |new_.shards| ==> (prev.shards[sh], sh) in recs && (new_.shards[sh], sh) in recs)
  }

  /** The records after the first k shards. */
  ghost function Completed(recs: map<(nat, nat), ShardRec>, prev: Config, new_: Config, k: nat)
    : (r: map<(nat, nat), ShardRec>)
    requires Covers(recs, prev, new_) && k <= |new_.shards|
    ensures r.Keys == recs.Keys
  {
    if k == 0 then recs
    else
      var before := Completed(recs, prev, new_, k - 1);
      var from, to, sh := prev.shards[k - 1], new_.shards[k - 1], k - 1;
      if from == to then before
      else
        var (frozen, state) := FreezeRec(before[(from, sh)], new_.num);
        before[(to, sh) := InstallRec(before[(to, sh)], new_.num, state)][(from, sh) := DeleteRec(frozen, new_.num)]
  }

  /** What the change does to the record of group g for shard sh, from the records before it. */
  ghost function Changed(recs: map<(nat, nat), ShardRec>, prev: Config, new_: Config, g: nat, sh: nat): ShardRec
    requires Covers(recs, prev, new_) && (g, sh) in recs
  {
    if sh >= |new_.shards| || prev.shards[sh] == new_.shards[sh] then recs[(g, sh)]
    else
      var (frozen, state) := FreezeRec(recs[(prev.shards[sh], sh)], new_.num);
      if g == prev.shards[sh] then DeleteRec(frozen, new_.num)
      else if g == new_.shards[sh] then InstallRec(recs[(g, sh)], new_.num, state)
      else recs[(g, sh)]
  }

  /** Each shard's move touches only its own two records. */
  lemma {:induction false} CompletedAt(recs: map<(nat, nat), ShardRec>, prev: Config, new_: Config, k: nat, g: nat,
                                       sh: nat)
    requires Covers(recs, prev, new_) && k <= |new_.shards| && (g, sh) in recs
    ensures Completed(recs, prev, new_, k)[(g, sh)] ==
            if sh < k then Changed(recs, prev, new_, g, sh) else recs[(g, sh)]
  {
    if k == 0 {
    } else {
      CompletedAt(recs, prev, new_, k - 1, g, sh);
      CompletedAt(recs, prev, new_, k - 1, prev.shards[k - 1], k - 1);
      CompletedAt(recs, prev, new_, k - 1, new_.shards[k - 1], k - 1);
    }
  }

  /** Where the old owners serve and neither side has seen the number, every moved shard ends up served by its new
      owner with the old owner's data, the old owner gives it up, and nothing else changes. */
  lemma ChangeMovesData(recs: map<(nat, nat), ShardRec>, prev: Config, new_: Config, g: nat, sh: nat)
    requires Covers(recs, prev, new_) && (g, sh) in recs && sh < |new_.shards|
    requires var from, to := recs[(prev.shards[sh], sh)], recs[(new_.shards[sh], sh)];
      from.own == Serving && from.num < new_.num && to.num < new_.num
    ensures var r := Completed(recs, prev, new_, |new_.shards|)[(g, sh)];
      var f, t := prev.shards[sh], new_.shards[sh];
      && (f == t || (g != f && g != t) ==> r == recs[(g, sh)])
      && (f != t && g == t ==> r == ShardRec(recs[(f, sh)].data, Serving, new_.num))
      && (f != t && g == f ==> r == ShardRec(map[], NotOwned, new_.num))
  {
    CompletedAt(recs, prev, new_, |new_.shards|, g, sh);
  }

  /** Whatever state it starts from, running the whole change again changes nothing. */
  lemma RerunIsHarmless(recs: map<(nat, nat), ShardRec>, prev: Config, new_: Config)
    requires Covers(recs, prev, new_)
    ensures var once := Completed(recs, prev, new_, |new_.shards|);
      Covers(once, prev, new_) && Completed(once, prev, new_, |new_.shards|) == once
  {
    var n := |new_.shards|;
    var once := Completed(recs, prev, new_, n);
    var twice := Completed(once, prev, new_, n);
    forall g: nat, sh: nat | (g, sh) in recs ensures twice[(g, sh)] == once[(g, sh)] {
      CompletedAt(once, prev, new_, n, g, sh);
      CompletedAt(recs, prev, new_, n, g, sh);
      if sh < n {
        CompletedAt(recs, prev, new_, n, prev.shards[sh], sh);
      }
    }
    forall key | key in recs ensures twice[key] == once[key] {
      assert twice[(key.0, key.1)] == once[(key.0, key.1)];
    }
  }
}
