/** Retrying clerks over the replicated service: what a clerk's verdict says about its attempts in the agreed order.
    An attempt reaches at most one server, at any later time, and there becomes one Submit. */
module KvraftClerk {
  import opened Options
  import opened RaftTypes
  import opened Simulation
  import opened RaftSafety
  import opened Proposals
  import opened OwnAnswer
  import opened Linearizability
  import Kv
  import IdReuse
  import K = Cluster
  import C = Clerk

  /** What a call returned, on which answer, and how much of the run had happened by then. */
  datatype Done = Done(verdict: Kv.Reply, answer: K.Event, ended: nat)

  /** One Clerk.Get or Clerk.Put: how many attempts it has made and how much of the run had happened when it began. */
  datatype Call = Call(req: Kv.Request, sent: nat, began: nat, done: Option<Done>)

  datatype System = System(
    cl: K.Cluster,
    calls: seq<Call>,
    inflight: set<C.Attempt>,          // sent, not yet at a server
    served: map<C.Attempt, Op>)        // the operation a leader made of an attempt

  datatype Action =
    | Begin(req: Kv.Request)
    | Resend(call: nat)                // no reply, or one that names no leader
    | Lose(attempt: C.Attempt)
    | Serve(attempt: C.Attempt, p: nat)
    | Finish(call: nat, e: K.Event)    // the answer to the latest attempt arrives
    | Other(a: K.Action)               // the cluster, and other clients

  function Init(n: nat): System {
    System(K.Init(n), [], {}, map[])
  }

  /** The handlers turn a reply of the other kind into ErrWrongLeader, on which the clerk retries. */
  predicate Fits(req: Kv.Request, reply: Kv.Reply) {
    req.Get? <==> reply.GetReply?
  }

  /** What the clerk returns on an answer. */
  function Returned(reply: Kv.Reply, resent: bool): Kv.Reply {
    match reply
    case GetReply(_, _, _) => reply
    case PutReply(err) => Kv.PutReply(C.Verdict(err, resent))
  }

  predicate Enabled(s: System, a: Action) {
    match a
    case Begin(_) => true
    case Resend(c) => c < |s.calls| && s.calls[c].done == None
    case Lose(t) => t in s.inflight
    case Serve(t, p) => t in s.inflight && t.call < |s.calls| && K.Enabled(s.cl, K.Submit(p, s.calls[t.call].req))
    case Finish(c, e) =>
      && c < |s.calls| && s.calls[c].done == None && s.calls[c].sent > 0
      && var last := C.Attempt(c, s.calls[c].sent - 1);
        last in s.served && e in s.cl.trace && e.Answered? && e.op == s.served[last] && Fits(s.calls[c].req, e.reply)
    case Other(b) => K.Enabled(s.cl, b)
  }

  function Step(s: System, a: Action): System
    requires Enabled(s, a)
  {
    match a
    case Begin(req) =>
      s.(calls := s.calls + [Call(req, 1, |s.cl.trace|, None)], inflight := s.inflight + {C.Attempt(|s.calls|, 0)})
    case Resend(c) =>
      var x := s.calls[c];
      s.(calls := s.calls[c := x.(sent := x.sent + 1)], inflight := s.inflight + {C.Attempt(c, x.sent)})
    case Lose(t) => s.(inflight := s.inflight - {t})
    case Serve(t, p) =>
      var req := s.calls[t.call].req;
      s.(cl := K.Step(s.cl, K.Submit(p, req)), inflight := s.inflight - {t},
         served := if s.cl.servers[p].node.role == Leader then s.served[t := OpOf(s.cl, p, req)] else s.served)
    case Finish(c, e) =>
      var x := s.calls[c];
      s.(calls := s.calls[c := x.(done := Some(Done(Returned(e.reply, x.sent > 1), e, |s.cl.trace|)))])
    case Other(b) => s.(cl := K.Step(s.cl, b))
  }

  ghost predicate Reaches(s: System, acts: seq<Action>, s': System)
    decreases |acts|
  {
    if acts == [] then s' == s
    else Enabled(s, acts[0]) && Reaches(Step(s, acts[0]), acts[1..], s')
  }

  // ----- the invariant -----

  /** The attempt's operation was proposed after its call began. */
  ghost predicate Placed(s: System, t: C.Attempt)
    requires t in s.served && t.call < |s.calls|
  {
    && s.served[t].req == s.calls[t.call].req
    && exists k :: s.calls[t.call].began <= k < |s.cl.trace| && Proposing(s.cl.trace, k, s.served[t])
  }

  ghost predicate Proposing(trace: seq<K.Event>, k: int, op: Op) {
    0 <= k < |trace| && trace[k].Proposed? && trace[k].op == op
  }

  /** What the verdict was based on: an answer to the latest attempt. */
  ghost predicate Settled(s: System, c: nat)
    requires c < |s.calls| && s.calls[c].done.Some?
  {
    var x := s.calls[c];
    && x.sent > 0 && C.Attempt(c, x.sent - 1) in s.served
    && var d := x.done.value;
      && d.ended <= |s.cl.trace| && d.answer in s.cl.trace[..d.ended] && d.answer.Answered?
      && d.answer.op == s.served[C.Attempt(c, x.sent - 1)] && Fits(x.req, d.answer.reply)
      && d.verdict == Returned(d.answer.reply, x.sent > 1)
  }

  ghost predicate Ledger(s: System) {
    && (forall c :: 0 <= c < |s.calls| ==> s.calls[c].sent > 0 && s.calls[c].began <= |s.cl.trace|)
    && (forall t :: t in s.inflight || t in s.served ==> t.call < |s.calls| && t.no < s.calls[t.call].sent)
    && (forall t :: t in s.inflight ==> t !in s.served)
  }

  ghost predicate Inv(n: nat, s: System) {
    && Reachable(n, s.cl) && Ledger(s)
    && (forall t :: t in s.served ==> t.call < |s.calls| && Placed(s, t))
    && (forall t, u :: t in s.served && u in s.served && s.served[t] == s.served[u] ==> t == u)
    && (forall c :: 0 <= c < |s.calls| && s.calls[c].done.Some? ==> Settled(s, c))
  }

  lemma PlacedStays(s: System, s': System, t: C.Attempt)
    requires t in s.served && t in s'.served && s.served[t] == s'.served[t] && s.cl.trace <= s'.cl.trace
    requires t.call < |s.calls| <= |s'.calls| && s'.calls[t.call].req == s.calls[t.call].req
    requires s'.calls[t.call].began == s.calls[t.call].began && Placed(s, t)
    ensures Placed(s', t)
  {
    var k :| s.calls[t.call].began <= k < |s.cl.trace| && Proposing(s.cl.trace, k, s.served[t]);
    assert Proposing(s'.cl.trace, k, s'.served[t]);
  }

  lemma SettledStays(s: System, s': System, c: nat)
    requires c < |s.calls| <= |s'.calls| && s'.calls[c] == s.calls[c] && s.calls[c].done.Some? && Settled(s, c)
    requires s.cl.trace <= s'.cl.trace && (forall t :: t in s.served ==> t in s'.served && s'.served[t] == s.served[t])
    ensures Settled(s', c)
  {
    var d := s.calls[c].done.value;
    assert s'.cl.trace[..d.ended] == s.cl.trace[..d.ended];
  }

  /** Steps that leave what has been served as it is. */
  lemma QuietInv(n: nat, s: System, a: Action)
    requires Inv(n, s) && Enabled(s, a) && !a.Finish? && Reachable(n, Step(s, a).cl)
    requires s.cl.trace <= Step(s, a).cl.trace
    requires Step(s, a).served == s.served && Ledger(Step(s, a))
    ensures Inv(n, Step(s, a))
  {
    hide Reachable, K.Step, K.Enabled, Ledger, Placed, Settled;
    var s' := Step(s, a);
    forall t | t in s'.served ensures t.call < |s'.calls| && Placed(s', t) { PlacedStays(s, s', t); }
    forall c | 0 <= c < |s'.calls| && s'.calls[c].done.Some? ensures Settled(s', c) { SettledStays(s, s', c); }
  }

  lemma FinishInv(n: nat, s: System, c: nat, e: K.Event)
    requires Inv(n, s) && Enabled(s, Finish(c, e))
    ensures Inv(n, Step(s, Finish(c, e)))
  {
    hide Reachable, Placed;
    var s' := Step(s, Finish(c, e));
    assert s.cl.trace[..|s.cl.trace|] == s.cl.trace;
    forall t | t in s'.served ensures t.call < |s'.calls| && Placed(s', t) { PlacedStays(s, s', t); }
    forall b | 0 <= b < |s'.calls| && s'.calls[b].done.Some? ensures Settled(s', b) {
      if b != c { SettledStays(s, s', b); }
    }
  }

  lemma LedgerStays(s: System, a: Action)
    requires Ledger(s) && Enabled(s, a) && s.cl.trace <= Step(s, a).cl.trace
    ensures Ledger(Step(s, a))
  {
    hide K.Step, K.Enabled;
  }

  /** A step of the cluster keeps its trace. */
  lemma ClusterStep(n: nat, s: System, a: Action)
    requires Reachable(n, s.cl) && Enabled(s, a)
    ensures Reachable(n, Step(s, a).cl) && s.cl.trace <= Step(s, a).cl.trace
  {
    hide Reachable, K.Step, K.Enabled;
    match a
    case Serve(t, p) =>
      StepReachable(n, s.cl, K.Submit(p, s.calls[t.call].req));
      StepEvent(s.cl, K.Submit(p, s.calls[t.call].req));
    case Other(b) =>
      StepReachable(n, s.cl, b);
      StepEvent(s.cl, b);
    case _ =>
  }

  /** What a leader makes of an attempt is a new operation. */
  lemma NewOp(n: nat, s: System, u: C.Attempt, c: K.Cluster, f: K.Event)
    requires Reachable(n, c) && u in s.served && u.call < |s.calls| && Placed(s, u)
    requires f.Proposed? && c.trace == s.cl.trace + [f]
    ensures s.served[u] != f.op
  {
    hide Reachable;
    var k :| s.calls[u.call].began <= k < |s.cl.trace| && Proposing(s.cl.trace, k, s.served[u]);
    if s.served[u] == f.op {
      assert c.trace[k] == s.cl.trace[k] && c.trace[|s.cl.trace|] == f && k != |s.cl.trace|;
      ProposedAt(n, c, k, |s.cl.trace|);
    }
  }

  /** A leader takes the attempt. */
  lemma ServeInv(n: nat, s: System, t: C.Attempt, p: nat)
    requires Inv(n, s) && Enabled(s, Serve(t, p)) && s.cl.servers[p].node.role == Leader
    requires Reachable(n, Step(s, Serve(t, p)).cl) && Ledger(Step(s, Serve(t, p)))
    ensures Inv(n, Step(s, Serve(t, p)))
  {
    hide Reachable, K.Step, Placed, Settled, Sim;
    var s', req := Step(s, Serve(t, p)), s.calls[t.call].req;
    var w := ReachSim(n, s.cl);
    SimIndexable(s.cl, w, K.Submit(p, req));
    SubmitProposes(s.cl, w, p, req);
    var f := K.Proposed(OpOf(s.cl, p, req), IndexOf(s.cl, p), s.cl.servers[p].node.currentTerm);
    forall u | u in s.served ensures u != t && u.call < |s.calls| && s.served[u] != f.op && Placed(s', u) {
      NewOp(n, s, u, s'.cl, f);
      PlacedStays(s, s', u);
    }
    assert Placed(s', t) by { assert Proposing(s'.cl.trace, |s.cl.trace|, f.op); NewPlaced(s', t, |s.cl.trace|); }
    forall c | 0 <= c < |s'.calls| && s'.calls[c].done.Some? ensures Settled(s', c) { SettledStays(s, s', c); }
  }

  lemma NewPlaced(s: System, t: C.Attempt, k: nat)
    requires t in s.served && t.call < |s.calls| && s.served[t].req == s.calls[t.call].req
    requires s.calls[t.call].began <= k && Proposing(s.cl.trace, k, s.served[t])
    ensures Placed(s, t)
  {
  }

  lemma StepInv(n: nat, s: System, a: Action)
    requires Inv(n, s) && Enabled(s, a)
    ensures Inv(n, Step(s, a))
  {
    hide Reachable, K.Step, Ledger, Placed, Settled;
    ClusterStep(n, s, a);
    LedgerStays(s, a);
    if a.Finish? {
      FinishInv(n, s, a.call, a.e);
    } else if a.Serve? && Leading(s, a.p) {
      ServeInv(n, s, a.attempt, a.p);
    } else {
      QuietInv(n, s, a);
    }
  }

  ghost predicate Leading(s: System, p: nat) {
    p < |s.cl.servers| && s.cl.servers[p].node.role == Leader
  }

  lemma {:induction false} RunInv(n: nat, s: System, acts: seq<Action>, s': System)
    requires Inv(n, s) && Reaches(s, acts, s')
    ensures Inv(n, s')
    decreases |acts|
  {
    hide Inv, Step, Enabled;
    if acts == [] {
    } else {
      StepInv(n, s, acts[0]);
      RunInv(n, Step(s, acts[0]), acts[1..], s');
    }
  }

  /** Some run of clerks over an n-peer service gets here. */
  ghost predicate Reached(n: nat, s: System) {
    n > 0 && exists acts :: Reaches(Init(n), acts, s)
  }

  lemma ReachedInv(n: nat, s: System)
    requires Reached(n, s)
    ensures Inv(n, s)
  {
    hide K.Step, K.Enabled, K.Init, Step, Enabled;
    var acts :| Reaches(Init(n), acts, s);
    assert K.Reaches(K.Init(n), [], K.Init(n));
    InitTrace(n);
    RunInv(n, Init(n), acts, s);
  }

  lemma InitTrace(n: nat)
    ensures K.Init(n).trace == []
  {
  }

  // ----- effects -----

  /** The attempt's operation is in the order, as a put that succeeds there. */
  ghost predicate TakesEffect(s: System, G: seq<Entry>, t: C.Attempt) {
    t in s.served && exists i :: EffectAt(G, i, s.served[t])
  }

  ghost predicate EffectAt(G: seq<Entry>, i: int, op: Op) {
    0 < i < |G| && G[i].cmd == Run(op) && Kv.Apply(Fold(G, i - 1), op.req).1 == Kv.PutReply(Kv.OK)
  }

  /** Versions only grow along the order. */
  lemma {:induction false} VersionsGrow(G: seq<Entry>, i: nat, j: nat, key: string)
    requires i <= j < |G|
    ensures Kv.Versioned(Fold(G, j)) && Kv.VersionOf(Fold(G, i), key) <= Kv.VersionOf(Fold(G, j), key)
    decreases j
  {
    if j == 0 {
    } else {
      VersionsGrow(G, if i == j then i - 1 else i, j - 1, key);
      RunRaises(Fold(G, j - 1), G[j].cmd, key);
    }
  }

  lemma RunRaises(kv: Kv.Store, cmd: Command, key: string)
    requires Kv.Versioned(kv)
    ensures Kv.Versioned(RunCmd(kv, cmd)) && Kv.VersionOf(kv, key) <= Kv.VersionOf(RunCmd(kv, cmd), key)
  {
    if cmd.Run? && cmd.op.req.Put? { C.PutRaises(kv, cmd.op.req.key, cmd.op.req.value, cmd.op.req.version); }
  }

  /** A put that succeeds at i cannot succeed again after it. */
  lemma OneEffect(G: seq<Entry>, i: int, op: Op, j: int, op': Op)
    requires EffectAt(G, i, op) && EffectAt(G, j, op') && op.req == op'.req
    ensures i >= j
  {
    if i < j {
      var kv, req := Fold(G, i - 1), op.req;
      VersionsGrow(G, i - 1, i - 1, req.key);
      C.PutRaises(kv, req.key, req.value, req.version);
      VersionsGrow(G, i, j - 1, req.key);
      C.PutRaises(Fold(G, j - 1), req.key, req.value, req.version);
    }
  }

  // ----- what a caller may conclude -----

  /** At most one attempt of call c takes effect. */
  ghost predicate AtMostOnce(s: System, G: seq<Entry>, c: nat) {
    forall t, u :: TakesEffect(s, G, t) && TakesEffect(s, G, u) && t.call == u.call == c ==> t == u
  }

  /** What the verdict of a returned call c means. Its answer is its own operation's, or that operation is nowhere;
      it is its own if, when it was proposed, no earlier Submit of the peer had used its id at its index. */
  ghost predicate Meant(s: System, G: seq<Entry>, c: nat)
    requires c < |s.calls| && s.calls[c].sent > 0 && s.calls[c].done.Some?
  {
    var x, d, last := s.calls[c], s.calls[c].done.value, C.Attempt(c, s.calls[c].sent - 1);
    && last in s.served && d.answer.Answered?
    && (ClearThen(s.cl.trace, s.served[last]) ==> Own(G, d.answer))
    && (!Own(G, d.answer) ==> forall i :: 0 < i < |G| ==> G[i].cmd != Run(s.served[last]))
    && (Own(G, d.answer) ==> Kv.RightAnswer(Reqs(G, d.answer.index - 1), x.req, d.answer.reply))
    && (x.req.Get? ==> d.verdict == d.answer.reply)
    && (d.verdict == Kv.PutReply(Kv.OK) <==> d.answer.reply == Kv.PutReply(Kv.OK))
    && (d.verdict == Kv.PutReply(Kv.ErrMaybe) <==> d.answer.reply == Kv.PutReply(Kv.ErrVersion) && x.sent > 1)
    && (d.verdict == Kv.PutReply(Kv.OK) ==>
          && (TakesEffect(s, G, last) <==> Own(G, d.answer))
          && (Own(G, d.answer) ==> forall t :: TakesEffect(s, G, t) && t.call == c ==> t == last))
    && (d.verdict == Kv.PutReply(Kv.ErrVersion) || (d.verdict == Kv.PutReply(Kv.ErrNoKey) && x.sent == 1) ==>
          x.sent == 1 && forall t :: TakesEffect(s, G, t) ==> t.call != c)
  }

  lemma InvAtMostOnce(n: nat, s: System, G: seq<Entry>, c: nat)
    requires Inv(n, s) && Explains(G, s.cl)
    ensures AtMostOnce(s, G, c)
  {
    hide Reachable, Explains, Ledger, Settled, Fold, EffectAt;
    forall t, u | TakesEffect(s, G, t) && TakesEffect(s, G, u) && t.call == u.call == c ensures t == u {
      var i :| EffectAt(G, i, s.served[t]);
      var j :| EffectAt(G, j, s.served[u]);
      assert Placed(s, t) && Placed(s, u);
      OneEffect(G, i, s.served[t], j, s.served[u]);
      OneEffect(G, j, s.served[u], i, s.served[t]);
      EffectIs(G, i, s.served[t]);
      EffectIs(G, j, s.served[u]);
    }
  }

  lemma EffectIs(G: seq<Entry>, i: int, op: Op)
    requires EffectAt(G, i, op)
    ensures 0 < i < |G| && G[i].cmd == Run(op)
  {
  }

  /** If the latest attempt's operation is anywhere, it is at its answer's index. */
  lemma OnlyThere(n: nat, s: System, G: seq<Entry>, c: nat, i: nat)
    requires Inv(n, s) && Explains(G, s.cl) && c < |s.calls| && s.calls[c].done.Some?
    requires C.Attempt(c, s.calls[c].sent - 1) in s.served && 0 < i < |G|
    requires G[i].cmd == Run(s.served[C.Attempt(c, s.calls[c].sent - 1)])
    ensures s.calls[c].done.value.answer.Answered? && i == s.calls[c].done.value.answer.index
    ensures Own(G, s.calls[c].done.value.answer)
  {
    hide Reachable, Ledger, Placed, HoldsPrefix, DeliveredFrom, Registered, Waits, Named, InTurn;
    assert Settled(s, c);
    var e := s.calls[c].done.value.answer;
    ReachBirths(n, s.cl);
    var k :| 0 <= k < |s.cl.trace| && s.cl.trace[k] == e;
    assert AnswersProposal(s.cl, s.cl.trace[k]);
    var t :| K.Proposed(e.op, e.index, t) in s.cl.trace;
    ProposedThere(n, s.cl, G, K.Proposed(e.op, e.index, t), i);
  }

  /** What the order gives at the index of an answer. */
  lemma AnswerThere(s: System, G: seq<Entry>, c: nat)
    requires c < |s.calls| && s.calls[c].done.Some? && Settled(s, c) && Explains(G, s.cl)
    ensures var e := s.calls[c].done.value.answer;
      && e in s.cl.trace && e.Answered? && 0 < e.index < |G| && G[e.index].cmd.Run?
      && e.reply == Kv.Apply(Fold(G, e.index - 1), G[e.index].cmd.op.req).1
  {
    hide Fold, HoldsPrefix, AllProposed;
    assert DeliveredFrom(G, s.calls[c].done.value.answer);
  }

  lemma InvMeant(n: nat, s: System, G: seq<Entry>, c: nat)
    requires Inv(n, s) && Explains(G, s.cl) && c < |s.calls| && s.calls[c].done.Some? && s.calls[c].sent > 0
    ensures Meant(s, G, c)
  {
    hide Reachable, Explains, Fold, Kv.DoPut, Reqs, Kv.RightAnswer;
    assert Settled(s, c);
    var x, d, last := s.calls[c], s.calls[c].done.value, C.Attempt(c, s.calls[c].sent - 1);
    AnswerThere(s, G, c);
    assert Placed(s, last);
    InvAtMostOnce(n, s, G, c);
    if ClearThen(s.cl.trace, s.served[last]) { OwnIfClear(n, s.cl, G, d.answer); }
    forall i: nat | 0 < i < |G| && G[i].cmd == Run(s.served[last]) ensures i == d.answer.index && Own(G, d.answer) {
      OnlyThere(n, s, G, c, i);
    }
    if Own(G, d.answer) && d.answer.reply == Kv.PutReply(Kv.OK) {
      assert EffectAt(G, d.answer.index, s.served[last]);
    }
    if TakesEffect(s, G, last) {
      var i :| EffectAt(G, i, s.served[last]);
      assert d.answer.reply == Kv.PutReply(Kv.OK);
    }
    NoMaybe(Fold(G, d.answer.index - 1), G[d.answer.index].cmd.op.req);
    OrderAnswers(s.cl, G);
  }

  /** The service itself never answers ErrMaybe. */
  lemma NoMaybe(kv: Kv.Store, req: Kv.Request)
    ensures Kv.Apply(kv, req).1 != Kv.PutReply(Kv.ErrMaybe)
  {
  }

  /** Clerk verdicts over every run of the service: any number of calls, retries, delays, elections and crashes.
      Whatever explains the run, at most one attempt of a call takes effect and its verdict means what Meant says. */
  lemma VerdictsTruthful(n: nat, s: System, G: seq<Entry>, c: nat)
    requires Reached(n, s) && Explains(G, s.cl) && c < |s.calls|
    ensures s.calls[c].sent > 0 && AtMostOnce(s, G, c) && (s.calls[c].done.Some? ==> Meant(s, G, c))
  {
    hide Explains, Meant, AtMostOnce, Reachable, Placed, Settled;
    ReachedInv(n, s);
    InvAtMostOnce(n, s, G, c);
    if s.calls[c].done.Some? { InvMeant(n, s, G, c); }
  }

  /** Calls are ordered by real time, retries included: when one call returned before another began, no attempt of
      the second is at or before the index the first was answered at. */
  lemma CallsInOrder(n: nat, s: System) returns (G: seq<Entry>)
    requires Reached(n, s)
    ensures Explains(G, s.cl) && AnswersRight(G, s.cl.trace) && Distinct(G)
    ensures forall b, t, j ::
      && 0 <= b < |s.calls| && s.calls[b].done.Some? && s.calls[b].done.value.answer.Answered?
      && t in s.served && t.call < |s.calls| && s.calls[b].done.value.ended <= s.calls[t.call].began
      && 0 < j < |G| && G[j].cmd == Run(s.served[t])
      ==> s.calls[b].done.value.answer.index < j
  {
    hide Explains, Distinct, Reachable, Own, AnswersRight;
    ReachedInv(n, s);
    G := Linearizable(n, s.cl);
    forall b, t, j |
      && 0 <= b < |s.calls| && s.calls[b].done.Some? && s.calls[b].done.value.answer.Answered?
      && t in s.served && t.call < |s.calls| && s.calls[b].done.value.ended <= s.calls[t.call].began
      && 0 < j < |G| && G[j].cmd == Run(s.served[t])
      ensures s.calls[b].done.value.answer.index < j
    {
      var d := s.calls[b].done.value;
      assert Settled(s, b) && Placed(s, t);
      var a :| 0 <= a < d.ended && s.cl.trace[..d.ended][a] == d.answer;
      var k :| s.calls[t.call].began <= k < |s.cl.trace| && Proposing(s.cl.trace, k, s.served[t]);
      assert s.cl.trace[a] == d.answer && ProposedAs(G, j, s.cl.trace[k]);
    }
  }

  // ----- OK without effect -----

  lemma {:induction false} ReachesNext(s0: System, acts: seq<Action>, s: System, a: Action)
    requires Reaches(s0, acts, s) && Enabled(s, a)
    ensures Reaches(s0, acts + [a], Step(s, a))
    decreases |acts|
  {
    hide Enabled, Step;
    if acts == [] {
      assert [a][1..] == [];
      assert Reaches(Step(s, a), [], Step(s, a));
    } else {
      ReachesNext(Step(s0, acts[0]), acts[1..], s, a);
      assert (acts + [a])[1..] == acts[1..] + [a];
    }
  }

  lemma StepReached(n: nat, s: System, a: Action)
    requires Reached(n, s) && Enabled(s, a)
    ensures Reached(n, Step(s, a))
  {
    hide Enabled, Step, Init;
    var acts :| Reaches(Init(n), acts, s);
    ReachesNext(Init(n), acts, s, a);
  }

  /** The cluster goes on by itself. */
  lemma {:induction false} OthersReached(n: nat, s: System, acts: seq<K.Action>, c: K.Cluster)
    requires Reached(n, s) && K.Reaches(s.cl, acts, c)
    ensures Reached(n, s.(cl := c))
    decreases |acts|
  {
    hide Reached, K.Step, K.Enabled;
    if acts == [] {
    } else {
      StepReached(n, s, Other(acts[0]));
      OthersReached(n, Step(s, Other(acts[0])), acts[1..], c);
    }
  }

  lemma Starts(n: nat, c: K.Cluster)
    requires Reachable(n, c)
    ensures Reached(n, Init(n).(cl := c))
  {
    hide K.Step, K.Enabled, K.Init;
    var acts :| K.Reaches(K.Init(n), acts, c);
    assert Reaches(Init(n), [], Init(n));
    OthersReached(n, Init(n), acts, c);
  }

  /** For every put, and every id, index from 2 on and lifetime after the first at which its peer may take it: a run in
      which Clerk.Put returns OK on its first attempt and the put is nowhere in the order of operations. */
  lemma OkWithoutEffect(y: Kv.Request, id: nat, index: nat, life: nat) returns (s: System)
    requires y.Put? && id > 0 && index > 1 && life > 0
    ensures Reached(5, s) && |s.calls| == 1 && s.calls[0].req == y && s.calls[0].sent == 1
    ensures s.calls[0].done.Some? && s.calls[0].done.value.verdict == Kv.PutReply(Kv.OK)
    ensures C.Attempt(0, 0) in s.served && s.served[C.Attempt(0, 0)] == Op(0, id, life, y)
    ensures forall G: seq<Entry> :: Explains(G, s.cl) ==>
      !TakesEffect(s, G, C.Attempt(0, 0)) && forall j :: 0 < j < |G| ==> G[j].cmd != Run(Op(0, id, life, y))
  {
    hide Reached, Reachable, Explains, K.Reaches, K.Step, Fold;
    var d := IdReuse.Plan(id, index, life, Kv.Put("j", "", 0), y);
    var c0, acts, c, e := IdReuse.ReusedIdAnswered(d);
    var t := C.Attempt(0, 0);
    Starts(5, c0);
    var s0 := Init(5).(cl := c0);
    StepReached(5, s0, Begin(y));
    var s1 := Step(s0, Begin(y));
    StepReached(5, s1, Serve(t, 0));
    var s2 := Step(s1, Serve(t, 0));
    OthersReached(5, s2, acts, c);
    var s3 := s2.(cl := c);
    StepReached(5, s3, Finish(0, e));
    s := Step(s3, Finish(0, e));
  }
}
