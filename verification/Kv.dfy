/** The versioned key/value store: conditional puts on per-key version numbers. */
module Kv {

  datatype KvEntry = KvEntry(value: string, version: nat)

  type Store = map<string, KvEntry>

  datatype Err = OK | ErrNoKey | ErrVersion | ErrMaybe | ErrWrongLeader | ErrWrongGroup

  datatype Request = Get(key: string) | Put(key: string, value: string, version: nat)

  datatype Reply = GetReply(value: string, version: nat, err: Err) | PutReply(err: Err)

  /** The version of a key, 0 while it has never been written. */
  function VersionOf(s: Store, key: string): nat {
    if key in s then s[key].version else 0
  }

  /** No stored key has version 0. */
  predicate Versioned(s: Store) {
    forall k :: k in s ==> s[k].version > 0
  }

  function DoGet(s: Store, key: string): Reply {
    if key in s then GetReply(s[key].value, s[key].version, OK) else GetReply("", 0, ErrNoKey)
  }

  function DoPut(s: Store, key: string, value: string, version: nat): (Store, Err) {
    if key !in s then
      if version == 0 then (s[key := KvEntry(value, 1)], OK) else (s, ErrNoKey)
    else if version != s[key].version then (s, ErrVersion)
    else (s[key := KvEntry(value, s[key].version + 1)], OK)
  }

  /** One operation of the replicated state machine. */
  function Apply(s: Store, req: Request): (Store, Reply) {
    match req
    case Get(k) => (s, DoGet(s, k))
    case Put(k, v, ver) => var (s', e) := DoPut(s, k, v, ver); (s', PutReply(e))
  }

  // ----- what the answers must be, from the operations before them alone -----

  /** The values of the puts on key that succeed among reqs, oldest first: those that name how many came before. */
  ghost function Writes(reqs: seq<Request>, key: string): seq<string> {
    if reqs == [] then []
    else
      var before, last := Writes(reqs[..|reqs| - 1], key), reqs[|reqs| - 1];
      if last.Put? && last.key == key && last.version == |before| then before + [last.value] else before
  }

  /** A get finds the last value written and the number of writes; a put succeeds iff it names that number. */
  ghost predicate RightAnswer(reqs: seq<Request>, req: Request, reply: Reply) {
    var w := Writes(reqs, req.key);
    match req
    case Get(_) => reply == if w == [] then GetReply("", 0, ErrNoKey) else GetReply(w[|w| - 1], |w|, OK)
    case Put(_, _, version) =>
      reply == PutReply(if version == |w| then OK else if w == [] then ErrNoKey else ErrVersion)
  }

  /** The store after reqs. */
  ghost function Ran(reqs: seq<Request>): Store {
    if reqs == [] then map[] else Apply(Ran(reqs[..|reqs| - 1]), reqs[|reqs| - 1]).0
  }

  /** The store holds the last write of each key, at the number of its writes. */
  lemma {:induction false} RanHolds(reqs: seq<Request>, key: string)
    ensures var w, kv := Writes(reqs, key), Ran(reqs);
      && (key in kv <==> w != [])
      && (key in kv ==> kv[key] == KvEntry(w[|w| - 1], |w|))
  {
    if reqs == [] {
    } else {
      var before, last := reqs[..|reqs| - 1], reqs[|reqs| - 1];
      RanHolds(before, key);
      RanHolds(before, last.key);
    }
  }

  /** Whatever was carried out before, every operation is answered as it must be. */
  lemma AnswersRight(reqs: seq<Request>, req: Request)
    ensures RightAnswer(reqs, req, Apply(Ran(reqs), req).1)
  {
    RanHolds(reqs, req.key);
  }

  lemma RanNext(reqs: seq<Request>, req: Request)
    ensures Ran(reqs + [req]) == Apply(Ran(reqs), req).0
  {
    assert (reqs + [req])[..|reqs|] == reqs;
  }

  /** The single-node server and, driven by the replicated log, the kvraft state machine. */
  class Server {
    var kv: Store
    ghost var ran: seq<Request>        // every operation carried out, in order

    ghost predicate Valid()
      reads this
    {
      kv == Ran(ran)
    }

    constructor ()
      ensures Valid() && kv == map[] && ran == []
    {
      kv, ran := map[], [];
    }

    method Get(key: string) returns (reply: Reply)
      requires Valid()
      modifies this
      ensures Valid() && kv == old(kv) && ran == old(ran) + [Request.Get(key)]
      ensures reply == DoGet(kv, key) && RightAnswer(old(ran), Request.Get(key), reply)
    {
      AnswersRight(ran, Request.Get(key));
      RanNext(ran, Request.Get(key));
      ran := ran + [Request.Get(key)];
      if key !in kv {
        return GetReply("", 0, ErrNoKey);
      }
      reply := GetReply(kv[key].value, kv[key].version, OK);
    }

    method Put(key: string, value: string, version: nat) returns (err: Err)
      requires Valid()
      modifies this
      ensures Valid() && ran == old(ran) + [Request.Put(key, value, version)]
      ensures (kv, err) == DoPut(old(kv), key, value, version)
      ensures RightAnswer(old(ran), Request.Put(key, value, version), PutReply(err))
    {
      AnswersRight(ran, Request.Put(key, value, version));
      RanNext(ran, Request.Put(key, value, version));
      ran := ran + [Request.Put(key, value, version)];
      if key !in kv {
        if version == 0 {
          kv := kv[key := KvEntry(value, 1)];
          err := OK;
        } else {
          err := ErrNoKey;
        }
        return;
      }
      if version != kv[key].version {
        return ErrVersion;
      }
      kv := kv[key := KvEntry(value, kv[key].version + 1)];
      err := OK;
    }

    /** Dispatch of a committed request to Get or Put. */
    method DoOp(req: Request) returns (reply: Reply)
      requires Valid()
      modifies this
      ensures Valid() && ran == old(ran) + [req]
      ensures (kv, reply) == Apply(old(kv), req) && RightAnswer(old(ran), req, reply)
    {
      match req
      case Get(k) =>
        reply := Get(k);
      case Put(k, v, ver) =>
        var e := Put(k, v, ver);
        reply := PutReply(e);
    }
  }

  /** A put takes effect exactly when it names the key's version, and then moves the version up by one. */
  lemma PutEffect(s: Store, key: string, value: string, version: nat)
    requires Versioned(s)
    ensures var (s', e) := DoPut(s, key, value, version);
      && Versioned(s')
      && (e == OK <==> version == VersionOf(s, key))
      && (e == OK <==> s' != s)
      && (e == OK ==> s'[key] == KvEntry(value, version + 1))
      && (e == ErrNoKey <==> key !in s && version != 0)
      && (forall k :: k != key ==>
            VersionOf(s', k) == VersionOf(s, k) && (k in s <==> k in s') && (k in s ==> s'[k] == s[k]))
  {
    var (s', e) := DoPut(s, key, value, version);
    if e == OK {
      assert VersionOf(s', key) == VersionOf(s, key) + 1;
    }
  }
}
