/** One replica group's shard records, fenced by configuration numbers. */
module ShardServer {
  import opened Options
  import opened Kv

  datatype Own = NotOwned | Serving | Frozen

  /** num is the largest configuration number seen for the shard. */
  datatype ShardRec = ShardRec(data: Store, own: Own, num: nat)

  /** A frozen shard still answers reads. */
  function GetRec(r: ShardRec, key: string): Reply {
    if r.own == NotOwned then GetReply("", 0, ErrWrongGroup) else DoGet(r.data, key)
  }

  function PutRec(r: ShardRec, key: string, value: string, version: nat): (ShardRec, Err) {
    if r.own != Serving then (r, ErrWrongGroup)
    else var (data, err) := DoPut(r.data, key, value, version); (r.(data := data), err)
  }

  /** Stop writes and hand out the data; None is the nil state. */
  function FreezeRec(r: ShardRec, num: nat): (ShardRec, Option<Store>) {
    if num < r.num then (r, None)
    else match r.own
      case Serving => (ShardRec(r.data, Frozen, num), Some(r.data))
      case Frozen => (r.(num := num), Some(r.data))
      case NotOwned => (r.(num := num), None)
  }

  function Decode(state: Option<Store>): Store {
    match state case None => map[] case Some(data) => data
  }

  function InstallRec(r: ShardRec, num: nat, state: Option<Store>): ShardRec {
    if num <= r.num then r else ShardRec(Decode(state), Serving, num)
  }

  function DeleteRec(r: ShardRec, num: nat): ShardRec {
    if num < r.num then r else ShardRec(map[], NotOwned, num)
  }

  const GID1 := 1

  /** The first group starts out owning every shard. */
  function InitRec(gid: nat): ShardRec {
    ShardRec(map[], if gid == GID1 then Serving else NotOwned, 0)
  }

  /** The replicated object of one group. */
  class KVServer {
    const gid: nat
    const shards: array<ShardRec>

    constructor (gid: nat, n: nat)
      ensures this.gid == gid && fresh(shards) && shards.Length == n
      ensures forall s :: 0 <= s < n ==> shards[s] == InitRec(gid)
    {
      this.gid := gid;
      var recs := new ShardRec[n](_ => ShardRec(map[], NotOwned, 0));
      for s := 0 to n
        invariant forall t :: 0 <= t < s ==> recs[t] == InitRec(gid)
      {
        if gid == GID1 {
          recs[s] := ShardRec(map[], Serving, 0);
        } else {
          recs[s] := ShardRec(map[], NotOwned, 0);
        }
      }
      shards := recs;
    }

    method DoGet(s: nat, key: string) returns (reply: Reply)
      requires s < shards.Length
      ensures reply == GetRec(shards[s], key)
    {
      if shards[s].own == NotOwned {
        return GetReply("", 0, ErrWrongGroup);
      }
      if key !in shards[s].data {
        return GetReply("", 0, ErrNoKey);
      }
      var e := shards[s].data[key];
      reply := GetReply(e.value, e.version, OK);
    }

    method DoPut(s: nat, key: string, value: string, version: nat) returns (err: Err)
      requires s < shards.Length
      modifies shards
      ensures shards[..] == old(shards[..])[s := PutRec(old(shards[s]), key, value, version).0]
      ensures err == PutRec(old(shards[s]), key, value, version).1
    {
      if shards[s].own != Serving {
        return ErrWrongGroup;
      }
      var data := shards[s].data;
      if key !in data {
        if version != 0 {
          return ErrNoKey;
        }
        shards[s] := shards[s].(data := data[key := KvEntry(value, 1)]);
        return OK;
      }
      if version != data[key].version {
        return ErrVersion;
      }
      shards[s] := shards[s].(data := data[key := KvEntry(value, data[key].version + 1)]);
      err := OK;
    }

    method DoFreeze(s: nat, num: nat) returns (state: Option<Store>)
      requires s < shards.Length
      modifies shards
      ensures shards[..] == old(shards[..])[s := FreezeRec(old(shards[s]), num).0]
      ensures state == FreezeRec(old(shards[s]), num).1
    {
      if num < shards[s].num {
        return None;
      }
      if num > shards[s].num {
        shards[s] := shards[s].(num := num);
      }
      match shards[s].own {
        case Serving =>
          shards[s] := shards[s].(own := Frozen);
          state := Some(shards[s].data);
        case Frozen =>
          state := Some(shards[s].data);
        case NotOwned =>
          state := None;
      }
    }

    method DoInstall(s: nat, num: nat, state: Option<Store>)
      requires s < shards.Length
      modifies shards
      ensures shards[..] == old(shards[..])[s := InstallRec(old(shards[s]), num, state)]
    {
      if num <= shards[s].num {
        return;
      }
      shards[s] := ShardRec(Decode(state), Serving, num);
    }

    method DoDelete(s: nat, num: nat)
      requires s < shards.Length
      modifies shards
      ensures shards[..] == old(shards[..])[s := DeleteRec(old(shards[s]), num)]
    {
      if num < shards[s].num {
        return;
      }
      if num > shards[s].num {
        shards[s] := shards[s].(num := num);
      }
      shards[s] := shards[s].(data := map[]);
      shards[s] := shards[s].(own := NotOwned);
    }
  }
}
