/** Conditional puts by retrying clerks: what a clerk's verdict says about its attempts.
    An attempt may be lost, or carried out at any later time, but at most once. */
module Clerk {
  import opened Options
  import opened Kv

  /** One Clerk.Put: its arguments, how many attempts it has made, and what it returned. */
  datatype Call = Call(key: string, value: string, version: nat, sent: nat, verdict: Option<Err>)

  /** Attempt number `no` of a call. */
  datatype Attempt = Attempt(call: nat, no: nat)

  datatype System = System(
    kv: Store,
    calls: seq<Call>,
    inflight: set<Attempt>,         // sent, not yet carried out
    results: map<Attempt, Err>,     // carried out, with the server's answer
    ran: seq<Request>,              // every operation the server has carried out
    replies: seq<Reply>)            // and its answer to each

  datatype Action =
    | Begin(key: string, value: string, version: nat)
    | Resend(call: nat)                 // no reply, or a reply that settles nothing
    | Carry(attempt: Attempt)           // the server carries the attempt out
    | Lose(attempt: Attempt)
    | Finish(call: nat)                 // the reply to the latest attempt arrives
    | Fetch(key: string)                // the server carries a Get out

  function Init(): System {
    System(map[], [], {}, map[], [], [])
  }

  /** What Put returns on a server answer: a version error after a resend settles nothing. */
  function Verdict(err: Err, resent: bool): Err {
    if err == ErrVersion && resent then ErrMaybe else err
  }

  /** Clerk.Put's retry loop over what its RPCs come back with; None is no reply, or one that names no leader. */
  method Put(outcomes: seq<Option<Err>>) returns (verdict: Option<Err>)
    ensures verdict == None <==> forall i :: 0 <= i < |outcomes| ==> outcomes[i] == None
    ensures forall i :: 0 <= i < |outcomes| && outcomes[i].Some? && (forall j :: 0 <= j < i ==> outcomes[j] == None) ==>
      verdict == Some(Verdict(outcomes[i].value, i > 0))
  {
    var resent := false;
    for k := 0 to |outcomes|
      invariant resent == (k > 0)
      invariant forall j :: 0 <= j < k ==> outcomes[j] == None
    {
      if outcomes[k].Some? {
        var err := outcomes[k].value;
        if err == ErrVersion && resent {
          return Some(ErrMaybe);
        }
        return Some(err);
      }
      resent := true;
    }
    verdict := None;
  }

  predicate Enabled(s: System, a: Action) {
    match a
    case Begin(_, _, _) => true
    case Resend(c) => c < |s.calls| && s.calls[c].verdict == None
    case Carry(t) => t in s.inflight && t.call < |s.calls|
    case Lose(t) => t in s.inflight
    case Finish(c) =>
      c < |s.calls| && s.calls[c].verdict == None && s.calls[c].sent > 0
      && Attempt(c, s.calls[c].sent - 1) in s.results
    case Fetch(_) => true
  }

  function Step(s: System, a: Action): System
    requires Enabled(s, a)
  {
    match a
    case Begin(k, v, ver) =>
      s.(calls := s.calls + [Call(k, v, ver, 1, None)], inflight := s.inflight + {Attempt(|s.calls|, 0)})
    case Resend(c) =>
      var x := s.calls[c];
      s.(calls := s.calls[c := x.(sent := x.sent + 1)], inflight := s.inflight + {Attempt(c, x.sent)})
    case Carry(t) =>
      var x := s.calls[t.call];
      var (kv', err) := DoPut(s.kv, x.key, x.value, x.version);
      s.(kv := kv', inflight := s.inflight - {t}, results := s.results[t := err],
         ran := s.ran + [Request.Put(x.key, x.value, x.version)], replies := s.replies + [PutReply(err)])
    case Lose(t) => s.(inflight := s.inflight - {t})
    case Finish(c) =>
      var x := s.calls[c];
      s.(calls := s.calls[c := x.(verdict := Some(Verdict(s.results[Attempt(c, x.sent - 1)], x.sent > 1)))])
    case Fetch(key) => s.(ran := s.ran + [Get(key)], replies := s.replies + [DoGet(s.kv, key)])
  }

  ghost predicate Reaches(s: System, acts: seq<Action>, s': System)
    decreases |acts|
  {
    if acts == [] then s' == s
    else Enabled(s, acts[0]) && Reaches(Step(s, acts[0]), acts[1..], s')
  }

  // ----- the invariant -----

  /** The attempt took effect. */
  ghost predicate Effective(s: System, t: Attempt) {
    t in s.results && s.results[t] == OK
  }

  ghost predicate Inv(s: System) {
    && Ledger(s)
    && (forall c :: 0 <= c < |s.calls| && s.calls[c].verdict.Some? ==> Settled(s, c))
  }

  /** Attempts are carried out once; one that took effect has its version passed and is its call's only one. */
  ghost predicate Ledger(s: System) {
    && Versioned(s.kv)
    && (forall c :: 0 <= c < |s.calls| ==> s.calls[c].sent > 0)
    && (forall t :: t in s.inflight || t in s.results ==> t.call < |s.calls| && t.no < s.calls[t.call].sent)
    && (forall t :: t in s.inflight ==> t !in s.results)
    && (forall t :: t in s.results ==> s.results[t] != ErrMaybe)
    && (forall t :: Effective(s, t) ==>
          t.call < |s.calls| && s.calls[t.call].version < VersionOf(s.kv, s.calls[t.call].key))
    && (forall t, u :: Effective(s, t) && Effective(s, u) && t.call == u.call ==> t == u)
  }

  /** What the verdict was based on. */
  ghost predicate Settled(s: System, c: nat)
    requires c < |s.calls| && s.calls[c].sent > 0 && s.calls[c].verdict.Some?
  {
    var x := s.calls[c];
    var last := Attempt(c, x.sent - 1);
    && last in s.results
    && x.verdict.value == Verdict(s.results[last], x.sent > 1)
  }

  /** Versions only grow, and a put that succeeds named the version it passes. */
  lemma PutRaises(kv: Store, key: string, value: string, version: nat)
    requires Versioned(kv)
    ensures var (kv', err) := DoPut(kv, key, value, version);
      && Versioned(kv') && err != ErrMaybe
      && (forall k :: VersionOf(kv, k) <= VersionOf(kv', k))
      && (err == OK ==> version == VersionOf(kv, key) < VersionOf(kv', key))
  {
    PutEffect(kv, key, value, version);
  }

  lemma CarryLedger(s: System, t: Attempt)
    requires Ledger(s) && Enabled(s, Carry(t))
    ensures Ledger(Step(s, Carry(t)))
  {
    hide DoGet, DoPut, VersionOf, Versioned, Verdict;
    var s' := Step(s, Carry(t));
    var x := s.calls[t.call];
    PutRaises(s.kv, x.key, x.value, x.version);
    forall u | Effective(s', u)
      ensures u.call < |s'.calls| && s'.calls[u.call].version < VersionOf(s'.kv, s'.calls[u.call].key)
    {
      if u != t { assert Effective(s, u); }
    }
    forall u, v | Effective(s', u) && Effective(s', v) && u.call == v.call
      ensures u == v
    {
      if u != t { assert Effective(s, u); }
      if v != t { assert Effective(s, v); }
    }
  }

  lemma CarryKeeps(s: System, t: Attempt)
    requires Inv(s) && Enabled(s, Carry(t))
    ensures Inv(Step(s, Carry(t)))
  {
    CarryLedger(s, t);
    InFlightOnce(s, t);
    SentFirst(s);
    SentFirst(Step(s, Carry(t)));
    hide Ledger, DoPut;
    var s' := Step(s, Carry(t));
    forall c | 0 <= c < |s'.calls| && s'.calls[c].verdict.Some?
      ensures Settled(s', c)
    {
      assert Settled(s, c);
    }
  }

  lemma InFlightOnce(s: System, t: Attempt)
    requires Ledger(s) && t in s.inflight
    ensures t !in s.results
  {
  }

  /** Steps that carry nothing out. */
  lemma QuietKeeps(s: System, a: Action)
    requires Inv(s) && Enabled(s, a) && !a.Carry?
    ensures Inv(Step(s, a))
  {
    QuietLedger(s, a);
    hide Ledger;
    SentFirst(s);
    SentFirst(Step(s, a));
    var s' := Step(s, a);
    forall c | 0 <= c < |s'.calls| && s'.calls[c].verdict.Some?
      ensures Settled(s', c)
    {
      if a != Finish(c) { assert Settled(s, c); }
    }
  }

  lemma QuietLedger(s: System, a: Action)
    requires Ledger(s) && Enabled(s, a) && !a.Carry?
    ensures Ledger(Step(s, a))
  {
    hide DoGet, DoPut, Versioned, VersionOf, Verdict;
    assert forall t :: Effective(Step(s, a), t) <==> Effective(s, t);
  }

  lemma SentFirst(s: System)
    requires Ledger(s)
    ensures forall c :: 0 <= c < |s.calls| ==> s.calls[c].sent > 0
  {
  }

  lemma StepKeeps(s: System, a: Action)
    requires Inv(s) && Enabled(s, a)
    ensures Inv(Step(s, a))
  {
    hide Inv;
    if a.Carry? { CarryKeeps(s, a.attempt); } else { QuietKeeps(s, a); }
  }

  lemma {:induction false} RunsKeep(s: System, acts: seq<Action>, s': System)
    requires Inv(s) && Reaches(s, acts, s')
    ensures Inv(s')
    decreases |acts|
  {
    if acts == [] {
    } else {
      StepKeeps(s, acts[0]);
      RunsKeep(Step(s, acts[0]), acts[1..], s');
    }
  }

  // ----- what a caller may conclude -----

  /** At most one attempt of a call ever takes effect; OK means the last one did and no other;
      ErrVersion means none did and none is left that could, and so does ErrNoKey unless the call was resent. */
  ghost predicate Truthful(s: System, c: nat)
    requires c < |s.calls|
  {
    var x := s.calls[c];
    && x.sent > 0
    && (forall t, u :: Effective(s, t) && Effective(s, u) && t.call == u.call == c ==> t == u)
    && (x.verdict.Some? ==> (x.verdict == Some(OK) <==> Effective(s, Attempt(c, x.sent - 1))))
    && (x.verdict == Some(ErrMaybe) <==>
          x.verdict.Some? && x.sent > 1 && Attempt(c, x.sent - 1) in s.results
          && s.results[Attempt(c, x.sent - 1)] == ErrVersion)
    && (x.verdict == Some(OK) ==>
          forall t: Attempt {:trigger Effective(s, t)} :: t.call == c ==> (Effective(s, t) <==> t.no == x.sent - 1))
    && (x.verdict == Some(ErrVersion) || (x.verdict == Some(ErrNoKey) && x.sent == 1) ==>
          && x.sent == 1
          && (forall t :: Effective(s, t) ==> t.call != c)
          && (forall t :: t in s.inflight ==> t.call != c))
  }

  lemma InvTruthful(s: System, c: nat)
    requires Inv(s) && c < |s.calls|
    ensures Truthful(s, c)
  {
    var x := s.calls[c];
    if x.verdict.Some? {
      assert Settled(s, c);
      var last := Attempt(c, x.sent - 1);
      if x.verdict == Some(OK) {
        assert Effective(s, last);
      }
    }
  }

  /** Clerk verdicts are truthful, over every interleaving of any number of calls, retries and delays. */
  lemma VerdictsTruthful(acts: seq<Action>, s: System, c: nat)
    requires Reaches(Init(), acts, s) && c < |s.calls|
    ensures Truthful(s, c)
  {
    RunsKeep(Init(), acts, s);
    InvTruthful(s, c);
  }

  // ----- what the server answers -----

  /** The server has answered everything it carried out, each rightly after what came before. */
  ghost predicate Answering(s: System) {
    && s.kv == Ran(s.ran) && |s.replies| == |s.ran|
    && (forall j :: 0 <= j < |s.ran| ==> RightAnswer(s.ran[..j], s.ran[j], s.replies[j]))
  }

  lemma StepAnswers(s: System, a: Action)
    requires Answering(s) && Enabled(s, a)
    ensures Answering(Step(s, a))
  {
    hide RightAnswer, Ran;
    var s' := Step(s, a);
    if a.Carry? || a.Fetch? {
      var req := s'.ran[|s.ran|];
      AnswersRight(s.ran, req);
      RanNext(s.ran, req);
      forall j | 0 <= j < |s'.ran| ensures RightAnswer(s'.ran[..j], s'.ran[j], s'.replies[j]) {
        assert s'.ran[..j] == s.ran[..j];
      }
    }
  }

  lemma {:induction false} RunAnswers(s: System, acts: seq<Action>, s': System)
    requires Answering(s) && Reaches(s, acts, s')
    ensures Answering(s')
    decreases |acts|
  {
    hide Answering, Enabled, Step;
    if acts == [] {
    } else {
      StepAnswers(s, acts[0]);
      RunAnswers(Step(s, acts[0]), acts[1..], s');
    }
  }

  /** In every run of the single server every get finds the last value written and the number of writes, and every put
      succeeds iff it names that number. */
  lemma ServerAnswers(acts: seq<Action>, s: System)
    requires Reaches(Init(), acts, s)
    ensures |s.replies| == |s.ran|
    ensures forall j :: 0 <= j < |s.ran| ==> RightAnswer(s.ran[..j], s.ran[j], s.replies[j])
  {
    RunAnswers(Init(), acts, s);
  }

  // ----- what an attempt in flight can still do -----

  /** The version an attempt names has been passed without it. */
  ghost predicate TooLate(s: System, t: Attempt) {
    t.call < |s.calls| && !Effective(s, t) && s.calls[t.call].version < VersionOf(s.kv, s.calls[t.call].key)
  }

  lemma StaysTooLate(s: System, a: Action, t: Attempt)
    requires Inv(s) && Enabled(s, a) && TooLate(s, t)
    ensures TooLate(Step(s, a), t)
  {
    if a.Carry? {
      var x := s.calls[a.attempt.call];
      PutRaises(s.kv, x.key, x.value, x.version);
    }
  }

  lemma {:induction false} NeverEffective(s: System, acts: seq<Action>, s': System, t: Attempt)
    requires Inv(s) && Reaches(s, acts, s') && TooLate(s, t)
    ensures !Effective(s', t)
    decreases |acts|
  {
    hide Inv, Enabled, Step;
    if acts == [] {
    } else {
      StepKeeps(s, acts[0]);
      StaysTooLate(s, acts[0], t);
      NeverEffective(Step(s, acts[0]), acts[1..], s', t);
    }
  }

  /** Another clerk's put moves the key's version up by one. */
  lemma Raises(s: System, t: Attempt) returns (s1: System, s2: System, a: Action, b: Action)
    requires Inv(s) && t in s.inflight && t.call < |s.calls|
    ensures Enabled(s, a) && s1 == Step(s, a) && Enabled(s1, b) && s2 == Step(s1, b) && Inv(s2)
    ensures t in s2.inflight && t.call < |s2.calls| && s2.calls[t.call] == s.calls[t.call]
    ensures var key := s.calls[t.call].key; VersionOf(s2.kv, key) == VersionOf(s.kv, key) + 1
  {
    var key := s.calls[t.call].key;
    a := Begin(key, "", VersionOf(s.kv, key));
    s1 := Step(s, a);
    StepKeeps(s, a);
    b := Carry(Attempt(|s.calls|, 0));
    s2 := Step(s1, b);
    StepKeeps(s1, b);
    PutEffect(s.kv, key, "", VersionOf(s.kv, key));
  }

  /** While the version an attempt names is not passed, others can bring the key to it and then the attempt succeeds. */
  lemma {:induction false} StillEffective(s: System, t: Attempt) returns (acts: seq<Action>, s': System)
    requires Inv(s) && t in s.inflight && t.call < |s.calls|
    requires VersionOf(s.kv, s.calls[t.call].key) <= s.calls[t.call].version
    ensures Reaches(s, acts, s') && Effective(s', t)
    decreases s.calls[t.call].version - VersionOf(s.kv, s.calls[t.call].key)
  {
    var x := s.calls[t.call];
    if VersionOf(s.kv, x.key) == x.version {
      PutEffect(s.kv, x.key, x.value, x.version);
      s' := Step(s, Carry(t));
      assert Reaches(s', [], s');
      ReachesCons(s, Carry(t), [], s');
      acts := [Carry(t)] + [];
    } else {
      hide Inv, Enabled, Step, VersionOf;
      var s1, s2, a, b := Raises(s, t);
      acts, s' := StillEffective(s2, t);
      ReachesCons(s1, b, acts, s');
      ReachesCons(s, a, [b] + acts, s');
      acts := [a] + ([b] + acts);
    }
  }

  /** ErrNoKey settles nothing after a resend: an attempt that is still in flight can take effect later, in some
      continuation, exactly while the key's version has not passed the one it names. */
  lemma NoKeyCanStillTakeEffect(acts: seq<Action>, s: System, t: Attempt)
    requires Reaches(Init(), acts, s) && t in s.inflight && t.call < |s.calls|
    requires s.calls[t.call].verdict == Some(ErrNoKey)
    ensures (exists acts', s' :: Reaches(s, acts', s') && Effective(s', t))
            <==> VersionOf(s.kv, s.calls[t.call].key) <= s.calls[t.call].version
  {
    hide Inv, Enabled, Step, VersionOf;
    RunsKeep(Init(), acts, s);
    if VersionOf(s.kv, s.calls[t.call].key) <= s.calls[t.call].version {
      var acts', s' := StillEffective(s, t);
    } else {
      InFlightNot(s, t);
      forall acts', s' | Reaches(s, acts', s') ensures !Effective(s', t) { NeverEffective(s, acts', s', t); }
    }
  }

  lemma InFlightNot(s: System, t: Attempt)
    requires Inv(s) && t in s.inflight
    ensures !Effective(s, t)
  {
  }

  /** Every put that does not create its key can return ErrNoKey with its first attempt still in flight. */
  lemma NoKeyReached(key: string, value: string, version: nat) returns (acts: seq<Action>, s: System)
    requires version > 0
    ensures Reaches(Init(), acts, s) && Attempt(0, 0) in s.inflight && |s.calls| == 1
    ensures s.calls[0] == Call(key, value, version, 2, Some(ErrNoKey)) && VersionOf(s.kv, key) <= version
  {
    var s1 := Step(Init(), Begin(key, value, version));
    var s2 := Step(s1, Resend(0));
    var s3 := Step(s2, Carry(Attempt(0, 1)));
    s := Step(s3, Finish(0));
    assert Reaches(s, [], s);
    ReachesCons(s3, Finish(0), [], s);
    acts := [Finish(0)] + [];
    ReachesCons(s2, Carry(Attempt(0, 1)), acts, s);
    acts := [Carry(Attempt(0, 1))] + acts;
    ReachesCons(s1, Resend(0), acts, s);
    acts := [Resend(0)] + acts;
    ReachesCons(Init(), Begin(key, value, version), acts, s);
    acts := [Begin(key, value, version)] + acts;
  }

  lemma ReachesCons(s: System, a: Action, acts: seq<Action>, s': System)
    requires Enabled(s, a) && Reaches(Step(s, a), acts, s')
    ensures Reaches(s, [a] + acts, s')
  {
    assert ([a] + acts)[1..] == acts;
  }
}
