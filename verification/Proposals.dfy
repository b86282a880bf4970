/** Every Submit that reaches a leader proposes one operation, once: operations are told apart by the peer, its
    lifetime and the id, and an answer is given at the index where its Submit proposed. */
module Proposals {
  import opened Consensus
  import opened Simulation
  import opened RaftSafety
  import opened RsmOnce
  import opened RaftTypes
  import opened Rsm
  import Kv
  import R = RaftNode
  import K = Cluster

  /** Two proposals of one Submit. */
  ghost predicate SameProposal(e: K.Event, f: K.Event) {
    e.Proposed? && f.Proposed? && e.op.me == f.op.me && e.op.life == f.op.life && e.op.id == f.op.id
  }

  /** A peer's later proposal is of a later lifetime, or of the same one with a larger id. */
  ghost predicate InTurn(e: K.Event, f: K.Event) {
    e.Proposed? && f.Proposed? && e.op.me == f.op.me ==>
      e.op.life < f.op.life || (e.op.life == f.op.life && e.op.id < f.op.id)
  }

  ghost predicate Named(c: K.Cluster) {
    forall p: nat :: p < |c.servers| ==> c.servers[p].rsm.me == p && Ids(c.servers[p].rsm)
  }

  /** A proposal is of an earlier lifetime, or its Submit still has a waiter. */
  ghost predicate Registered(c: K.Cluster, e: K.Event) {
    e.Proposed? ==>
      && e.op.me < |c.servers|
      && var r := c.servers[e.op.me].rsm;
        e.op.life <= r.life && (e.op.life == r.life ==> e.op.id in r.waiters)
  }

  /** A waiter waits where its operation was proposed. */
  ghost predicate Waits(c: K.Cluster, p: nat, id: nat)
    requires p < |c.servers| && id in c.servers[p].rsm.waiters
  {
    var r := c.servers[p].rsm;
    var x := r.waiters[id];
    x.op.me == p && x.op.life == r.life && x.op.id == id && K.Proposed(x.op, x.index, x.term) in c.trace
  }

  /** An answer is given to a Submit at the index where it proposed. */
  ghost predicate AnswersProposal(c: K.Cluster, e: K.Event) {
    e.Answered? ==>
      && e.op.me == e.peer && e.op.life == e.life && e.op.id == e.id
      && exists t :: K.Proposed(e.op, e.index, t) in c.trace
  }

  ghost predicate Births(c: K.Cluster) {
    && Named(c)
    && (forall i :: 0 <= i < |c.trace| ==> Registered(c, c.trace[i]) && AnswersProposal(c, c.trace[i]))
    && (forall i, j :: 0 <= i < j < |c.trace| ==> InTurn(c.trace[i], c.trace[j]))
    && (forall p: nat, id: nat :: p < |c.servers| && id in c.servers[p].rsm.waiters ==> Waits(c, p, id))
  }

  // ----- one step -----

  /** A step logs nothing, a proposal of the Submit it starts, or an answer to a waiter. */
  lemma StepEvent(c: K.Cluster, a: K.Action)
    requires K.Enabled(c, a)
    ensures var c' := K.Step(c, a);
      && |c.trace| <= |c'.trace| <= |c.trace| + 1 && c'.trace[..|c.trace|] == c.trace
      && (|c'.trace| > |c.trace| ==>
            var e := c'.trace[|c.trace|]; var r := c.servers[a.p].rsm; var r' := c'.servers[a.p].rsm;
            && (e.Proposed? ==>
                  e.op.me == r.me && e.op.life == r.life == r'.life && e.op.id == r.nextId + 1 && e.op.id in r'.waiters)
            && (e.Answered? ==>
                  e.peer == a.p && e.life == r.life && e.id in r.waiters
                  && e.op == r.waiters[e.id].op && e.index == r.waiters[e.id].index))
  {
  }

  /** The waiter x of r' was one of r, or is that of the Submit that led from c to c'. */
  ghost predicate OldOrNew(r: Replica, r': Replica, id: nat, trace: seq<K.Event>, trace': seq<K.Event>)
    requires id in r'.waiters
  {
    var x := r'.waiters[id];
    && r'.life == r.life
    && (|| (id in r.waiters && x.op == r.waiters[id].op
            && x.index == r.waiters[id].index && x.term == r.waiters[id].term)
        || (x.op.me == r.me && x.op.life == r.life && x.op.id == id
            && trace' == trace + [K.Proposed(x.op, x.index, x.term)]))
  }

  /** A step keeps where a waiter waits, drops all waiters, or adds that of the Submit it starts. */
  lemma StepWaiter(c: K.Cluster, a: K.Action, p: nat, id: nat)
    requires K.Enabled(c, a) && p < |c.servers| && p < |K.Step(c, a).servers|
    requires id in K.Step(c, a).servers[p].rsm.waiters
    ensures var c' := K.Step(c, a); OldOrNew(c.servers[p].rsm, c'.servers[p].rsm, id, c.trace, c'.trace)
  {
    hide R.StartElection, R.RequestVote, R.OnVoteReply, R.AppendEntries, R.OnAppendReply;
    hide R.InstallSnapshot, R.OnSnapReply, R.Deliver, R.Snapshot, R.Replicate, OldOrNew, Read, Submit, Return, GiveUp;
    var s := c.servers[p];
    if a.p == p && K.Indexable(c, a) {
      match a
      case Read(_) => ReadWaiter(s.rsm, s.applyCh[0], id, c.trace);
      case Submit(_, req) => SubmitWaiter(s.rsm, s.node, req, id, c.trace);
      case SubmitReturns(_, i) => ResumeWaiter(s.rsm, i, id, c.trace, K.Step(c, a).trace);
      case SubmitGivesUp(_, i) => ResumeWaiter(s.rsm, i, id, c.trace, K.Step(c, a).trace);
      case Crash(_) =>
      case CrashInside(_, _) =>
      case _ => SameWaiter(s.rsm, id, c.trace, K.Step(c, a).trace);
    } else {
      SameWaiter(s.rsm, id, c.trace, K.Step(c, a).trace);
    }
  }

  lemma SameWaiter(r: Replica, id: nat, trace: seq<K.Event>, trace': seq<K.Event>)
    requires id in r.waiters
    ensures OldOrNew(r, r, id, trace, trace')
  {
  }

  lemma ReadWaiter(r: Replica, msg: R.ApplyMsg, id: nat, trace: seq<K.Event>)
    requires id in Read(r, msg).waiters
    ensures OldOrNew(r, Read(r, msg), id, trace, trace)
  {
  }

  lemma SubmitWaiter(r: Replica, n: R.Node, req: Kv.Request, id: nat, trace: seq<K.Event>)
    requires R.Ok(n) && id in Submit(r, n, req).0.waiters
    ensures var r' := Submit(r, n, req).0;
      && (n.role != Leader ==> OldOrNew(r, r', id, trace, trace))
      && (n.role == Leader ==>
            OldOrNew(r, r', id, trace,
                     trace + [K.Proposed(Op(r.me, r'.nextId, r.life, req), R.LastIndex(n) + 1, n.currentTerm)]))
  {
  }

  lemma ResumeWaiter(r: Replica, i: nat, id: nat, trace: seq<K.Event>, trace': seq<K.Event>)
    requires i in r.waiters
    ensures id in Return(r, i).waiters ==> OldOrNew(r, Return(r, i), id, trace, trace')
    ensures id in GiveUp(r, i).waiters ==> OldOrNew(r, GiveUp(r, i), id, trace, trace')
  {
  }

  lemma StepMe(c: K.Cluster, a: K.Action, p: nat)
    requires K.Enabled(c, a) && p < |c.servers| && c.servers[p].node.me == c.servers[p].rsm.me
    ensures K.Step(c, a).servers[p].rsm.me == c.servers[p].rsm.me
  {
    hide R.StartElection, R.RequestVote, R.OnVoteReply, R.AppendEntries, R.OnAppendReply;
    hide R.InstallSnapshot, R.OnSnapReply, R.Deliver, R.Snapshot, R.Replicate;
  }

  /** Servers keep their names, which Sim knows. */
  lemma SimNames(c: K.Cluster, w: World, p: nat)
    requires Sim(c, w) && p < |c.servers|
    ensures c.servers[p].node.me == p == c.servers[p].rsm.me
  {
    hide Inv, RsmSim, WaitSim;
    assert ServerSim(c.servers[p], w, p);
  }

  lemma StepNamed(c: K.Cluster, w: World, a: K.Action)
    requires Sim(c, w) && Named(c) && K.Enabled(c, a)
    ensures |K.Step(c, a).servers| == |c.servers| && Named(K.Step(c, a))
  {
    hide Sim, Ids, K.Step, K.Enabled, Keeps;
    SameServers(c, a);
    forall p: nat | p < |c.servers| ensures K.Step(c, a).servers[p].rsm.me == p && Ids(K.Step(c, a).servers[p].rsm) {
      SimNames(c, w, p);
      StepMe(c, a, p);
      StepKeeps(c, a, p);
    }
  }

  lemma StaysRegistered(c: K.Cluster, a: K.Action, e: K.Event)
    requires Named(c) && K.Enabled(c, a) && Registered(c, e)
    ensures Registered(K.Step(c, a), e)
  {
    hide K.Step, K.Enabled, Ids;
    SameServers(c, a);
    if e.Proposed? { StepKeeps(c, a, e.op.me); }
  }

  lemma StaysAnswered(c: K.Cluster, c': K.Cluster, e: K.Event)
    requires AnswersProposal(c, e) && c.trace <= c'.trace
    ensures AnswersProposal(c', e)
  {
    if e.Answered? {
      var t :| K.Proposed(e.op, e.index, t) in c.trace;
      assert K.Proposed(e.op, e.index, t) in c'.trace;
    }
  }

  /** What a step logs is registered, and new. */
  lemma NewEvent(c: K.Cluster, w: World, a: K.Action)
    requires Sim(c, w) && Births(c) && K.Enabled(c, a) && |K.Step(c, a).trace| > |c.trace|
    ensures var c' := K.Step(c, a); var e := c'.trace[|c.trace|];
      && Registered(c', e) && AnswersProposal(c', e)
      && (forall i :: 0 <= i < |c.trace| ==> InTurn(c.trace[i], e))
  {
    hide Sim, K.Step, K.Enabled;
    var c' := K.Step(c, a);
    var e := c'.trace[|c.trace|];
    SameServers(c, a);
    StepEvent(c, a);
    SimNames(c, w, a.p);
    if e.Answered? {
      assert Waits(c, a.p, e.id);
      var x := c.servers[a.p].rsm.waiters[e.id];
      assert K.Proposed(e.op, e.index, x.term) in c'.trace;
    }
    forall i | 0 <= i < |c.trace| ensures InTurn(c.trace[i], e) {
      assert Registered(c, c.trace[i]);
    }
  }

  lemma StepWaits(c: K.Cluster, w: World, a: K.Action, p: nat, id: nat)
    requires Sim(c, w) && Births(c) && K.Enabled(c, a) && p < |c.servers|
    requires |K.Step(c, a).servers| == |c.servers| && id in K.Step(c, a).servers[p].rsm.waiters
    ensures Waits(K.Step(c, a), p, id)
  {
    hide Sim, K.Step, K.Enabled, Registered, AnswersProposal, InTurn, Named;
    StepEvent(c, a);
    StepWaiter(c, a, p, id);
    SimNames(c, w, p);
    if id in c.servers[p].rsm.waiters { assert Waits(c, p, id); }
  }

  lemma StepBirths(c: K.Cluster, w: World, a: K.Action)
    requires Sim(c, w) && Births(c) && K.Enabled(c, a)
    ensures Births(K.Step(c, a))
  {
    hide Sim, K.Step, K.Enabled, Registered, AnswersProposal, InTurn, Waits, Named;
    var c' := K.Step(c, a);
    StepNamed(c, w, a);
    StepEvent(c, a);
    if |c'.trace| > |c.trace| { NewEvent(c, w, a); }
    forall i | 0 <= i < |c'.trace| ensures Registered(c', c'.trace[i]) && AnswersProposal(c', c'.trace[i]) {
      if i < |c.trace| {
        assert c'.trace[i] == c.trace[i];
        StaysRegistered(c, a, c.trace[i]);
        StaysAnswered(c, c', c.trace[i]);
      }
    }
    forall i, j | 0 <= i < j < |c'.trace| ensures InTurn(c'.trace[i], c'.trace[j]) {
      assert c'.trace[i] == c.trace[i];
      if j < |c.trace| { assert c'.trace[j] == c.trace[j]; }
    }
    forall p: nat, id: nat | p < |c'.servers| && id in c'.servers[p].rsm.waiters ensures Waits(c', p, id) {
      StepWaits(c, w, a, p, id);
    }
  }

  lemma {:induction false} RunBirths(c: K.Cluster, w: World, acts: seq<K.Action>, c': K.Cluster)
    requires Sim(c, w) && Births(c) && K.Reaches(c, acts, c')
    ensures Births(c')
    decreases |acts|
  {
    hide Sim, Births, K.Step, K.Enabled, Grows;
    if acts == [] {
    } else {
      var w1 := StepSim(c, w, acts[0]);
      StepBirths(c, w, acts[0]);
      RunBirths(K.Step(c, acts[0]), w1, acts[1..], c');
    }
  }

  lemma ReachBirths(n: nat, c: K.Cluster)
    requires Reachable(n, c)
    ensures Births(c)
  {
    hide Sim, Births, K.Step, K.Enabled;
    var acts :| K.Reaches(K.Init(n), acts, c);
    InitSim(n);
    InitBirths(n);
    RunBirths(K.Init(n), Start(n), acts, c);
  }

  lemma InitBirths(n: nat)
    ensures Births(K.Init(n))
  {
  }

  // ----- what follows from it -----

  lemma Answering(c: K.Cluster, e: K.Event)
    requires Births(c) && e in c.trace
    ensures AnswersProposal(c, e)
  {
    var i :| 0 <= i < |c.trace| && c.trace[i] == e;
    assert AnswersProposal(c, c.trace[i]);
  }

  lemma Turns(c: K.Cluster, i: nat, j: nat)
    requires Births(c) && i < |c.trace| && j < |c.trace|
    ensures i < j ==> InTurn(c.trace[i], c.trace[j])
  {
  }

  /** A Submit proposes at most once: two proposals of one Submit are one event. */
  lemma ProposedOnce(n: nat, c: K.Cluster, e: K.Event, f: K.Event)
    requires Reachable(n, c) && e in c.trace && f in c.trace && SameProposal(e, f)
    ensures e == f
  {
    hide Reachable, Births;
    ReachBirths(n, c);
    var i :| 0 <= i < |c.trace| && c.trace[i] == e;
    var j :| 0 <= j < |c.trace| && c.trace[j] == f;
    Turns(c, i, j);
    Turns(c, j, i);
  }

  /** The trace of a run only grows. */
  lemma {:induction false} TraceKept(c: K.Cluster, acts: seq<K.Action>, c': K.Cluster)
    requires K.Reaches(c, acts, c')
    ensures c.trace <= c'.trace
    decreases |acts|
  {
    hide K.Step, K.Enabled;
    if acts == [] {
    } else {
      StepEvent(c, acts[0]);
      TraceKept(K.Step(c, acts[0]), acts[1..], c');
    }
  }
}
