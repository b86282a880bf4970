/** When an answered Submit is answered with its own operation. Ids start over at every restart, so another
    lifetime's operation can pass for it; what a Submit needs to rule that out is known when it proposes. */
module OwnAnswer {
  import opened RaftTypes
  import opened Consensus
  import opened Simulation
  import opened RaftSafety
  import opened RsmOnce
  import opened Proposals
  import Kv
  import R = RaftNode
  import K = Cluster

  /** No Submit so far with this id at peer p proposed at this index. */
  ghost predicate Clear(trace: seq<K.Event>, p: nat, id: nat, index: nat) {
    forall e :: e in trace && e.Proposed? && e.op.me == p && e.op.id == id ==> e.index != index
  }

  /** The operation that Submit(p, req) makes in c, and the index a leader gives it. */
  function OpOf(c: K.Cluster, p: nat, req: Kv.Request): Op
    requires p < |c.servers|
  {
    Op(p, c.servers[p].rsm.nextId + 1, c.servers[p].rsm.life, req)
  }

  function IndexOf(c: K.Cluster, p: nat): nat
    requires p < |c.servers| && |c.servers[p].node.log| > 0
  {
    R.LastIndex(c.servers[p].node) + 1
  }

  /** Peer p leads and is about to propose req. */
  ghost predicate Proposes(c: K.Cluster, p: nat, req: Kv.Request) {
    && K.Enabled(c, K.Submit(p, req)) && K.Indexable(c, K.Submit(p, req))
    && c.servers[p].node.role == Leader
  }

  // ----- the theorem -----

  lemma SubmitProposes(c: K.Cluster, w: World, p: nat, req: Kv.Request)
    requires Sim(c, w) && Proposes(c, p, req)
    ensures |c.servers[p].node.log| > 0
    ensures K.Step(c, K.Submit(p, req)).trace ==
            c.trace + [K.Proposed(OpOf(c, p, req), IndexOf(c, p), c.servers[p].node.currentTerm)]
  {
    hide Sim, R.Start;
    SimNames(c, w, p);
  }

  /** An answer to the Submit that made proposal f is at f's index. */
  lemma AnswerAtProposal(n: nat, c: K.Cluster, e: K.Event, f: K.Event)
    requires Reachable(n, c) && e in c.trace && f in c.trace && e.Answered? && f.Proposed?
    requires f.op.me == e.peer && f.op.life == e.life && f.op.id == e.id
    ensures e.op == f.op && e.index == f.index
  {
    hide Reachable, Births;
    ReachBirths(n, c);
    Answering(c, e);
    var t :| K.Proposed(e.op, e.index, t) in c.trace;
    ProposedOnce(n, c, K.Proposed(e.op, e.index, t), f);
  }

  /** When op was proposed, no earlier Submit of its peer with its id had proposed at its index. */
  ghost predicate ClearThen(trace: seq<K.Event>, op: Op) {
    forall k :: 0 <= k < |trace| && trace[k].Proposed? && trace[k].op == op ==>
      Clear(trace[..k], op.me, op.id, trace[k].index)
  }

  lemma ClearBefore(trace: seq<K.Event>, k: nat, j: nat, op: Op, index: nat)
    requires k < |trace| && j < |trace| && ClearThen(trace, op) && trace[k].Proposed? && trace[k].op == op
    requires trace[k].index == index
    ensures j < k && trace[j].Proposed? && trace[j].op.me == op.me && trace[j].op.id == op.id ==>
      trace[j].index != index
  {
    if j < k && trace[j].Proposed? {
      assert trace[..k][j] == trace[j] && trace[j] in trace[..k];
    }
  }

  /** Only an operation of an earlier lifetime, proposed earlier with the same id at the same index, can be taken for
      another: if there is none, the answer is the caller's own operation's. */
  lemma OwnIfClear(n: nat, c: K.Cluster, G: seq<Entry>, e: K.Event)
    requires Reachable(n, c) && Explains(G, c) && e in c.trace && e.Answered? && ClearThen(c.trace, e.op)
    ensures 0 < e.index < |G| && G[e.index].cmd == Run(e.op)
  {
    hide Reachable, HoldsPrefix, Births;
    ReachBirths(n, c);
    assert DeliveredFrom(G, e);
    Answering(c, e);
    var t :| K.Proposed(e.op, e.index, t) in c.trace;
    var k :| 0 <= k < |c.trace| && c.trace[k] == K.Proposed(e.op, e.index, t);
    var op := G[e.index].cmd.op;
    var g := K.Proposed(op, e.index, G[e.index].term);
    var j :| 0 <= j < |c.trace| && c.trace[j] == g;
    Turns(c, k, j);
    ClearBefore(c.trace, k, j, e.op, e.index);
  }

  /** The same seen from the Submit: what is required of it is known when it proposes. */
  lemma AnswerIsOwn(n: nat, c: K.Cluster, p: nat, req: Kv.Request, acts: seq<K.Action>, c': K.Cluster, G: seq<Entry>,
                    e: K.Event)
    requires Reachable(n, c) && Proposes(c, p, req) && K.Reaches(K.Step(c, K.Submit(p, req)), acts, c')
    requires Explains(G, c')
    requires Clear(c.trace, p, OpOf(c, p, req).id, IndexOf(c, p))
    requires e in c'.trace && e.Answered? && e.peer == p && e.life == OpOf(c, p, req).life && e.id == OpOf(c, p, req).id
    ensures e.op == OpOf(c, p, req) && e.index == IndexOf(c, p) < |G| && G[e.index].cmd == Run(OpOf(c, p, req))
  {
    hide Reachable, Sim, K.Step, K.Indexable, Explains, Births;
    var w := ReachSim(n, c);
    SubmitProposes(c, w, p, req);
    var op, f := OpOf(c, p, req), K.Proposed(OpOf(c, p, req), IndexOf(c, p), c.servers[p].node.currentTerm);
    var c1 := K.Step(c, K.Submit(p, req));
    StepReachable(n, c, K.Submit(p, req));
    RunReachable(n, c1, acts, c');
    TraceKept(c1, acts, c');
    assert c'.trace[|c.trace|] == f;
    AnswerAtProposal(n, c', e, f);
    forall k | 0 <= k < |c'.trace| && c'.trace[k].Proposed? && c'.trace[k].op == op
      ensures Clear(c'.trace[..k], op.me, op.id, c'.trace[k].index)
    {
      ProposedAt(n, c', |c.trace|, k);
      assert c'.trace[..k] == c.trace;
    }
    OwnIfClear(n, c', G, e);
  }

  /** A Submit's proposal has one place in the trace. */
  lemma ProposedAt(n: nat, c: K.Cluster, i: nat, k: nat)
    requires Reachable(n, c) && i < |c.trace| && k < |c.trace| && SameProposal(c.trace[i], c.trace[k])
    ensures i == k
  {
    hide Reachable, Births;
    ReachBirths(n, c);
    Turns(c, i, k);
    Turns(c, k, i);
  }

  // ----- Submits that are sure of their answer -----

  /** With an id larger than any that earlier lifetimes proposed with, a Submit is sure of its answer. */
  lemma LargerIdClear(n: nat, c: K.Cluster, p: nat, req: Kv.Request)
    requires Reachable(n, c) && Proposes(c, p, req)
    requires forall e :: e in c.trace && e.Proposed? && e.op.me == p && e.op.life < c.servers[p].rsm.life ==>
      e.op.id < OpOf(c, p, req).id
    ensures Clear(c.trace, p, OpOf(c, p, req).id, IndexOf(c, p))
  {
    hide Reachable, AnswersProposal, Waits, InTurn;
    ReachBirths(n, c);
    forall e | e in c.trace && e.Proposed? && e.op.me == p ensures e.op.id < OpOf(c, p, req).id {
      var i :| 0 <= i < |c.trace| && c.trace[i] == e;
      assert Registered(c, c.trace[i]);
    }
  }

  /** In a peer's first lifetime ids are not reused. */
  lemma FirstLifeClear(n: nat, c: K.Cluster, p: nat, req: Kv.Request)
    requires Reachable(n, c) && Proposes(c, p, req) && c.servers[p].rsm.life == 0
    ensures Clear(c.trace, p, OpOf(c, p, req).id, IndexOf(c, p))
  {
    hide Reachable, Clear;
    LargerIdClear(n, c, p, req);
  }

  /** The log of a peer that ever proposed is never empty again: even a cut leaves the index where it happens. */
  ghost predicate Occupied(c: K.Cluster) {
    forall e :: e in c.trace && e.Proposed? ==>
      e.index > 0 && e.op.me < |c.servers| && LastOf(c.servers[e.op.me].node) > 0
  }

  function LastOf(n: R.Node): int {
    n.lastIncludedIndex + |n.log| - 1
  }

  lemma AppendKeepsLast(n: R.Node, a: R.AppendArgs)
    requires |n.log| > 0 && LastOf(n) > 0
    ensures LastOf(R.AppendEntries(n, a).0) > 0
  {
    hide R.Merge, R.FirstOfTerm;
    if n.lastIncludedIndex <= a.prevLogIndex <= R.LastIndex(n) {
      R.MergeGrows(n.log, a.prevLogIndex + 1 - n.lastIncludedIndex, a.entries);
      MergeOfNone(n.log, a.prevLogIndex + 1 - n.lastIncludedIndex);
    }
  }

  lemma MergeOfNone(log: seq<Entry>, off: nat)
    requires off <= |log|
    ensures R.Merge(log, off, []) == log
  {
  }

  lemma StepKeepsLast(c: K.Cluster, a: K.Action)
    requires K.Enabled(c, a) && R.Synced(c.servers[a.p].node) && LastOf(c.servers[a.p].node) > 0
    ensures |K.Step(c, a).servers| == |c.servers| && LastOf(K.Step(c, a).servers[a.p].node) > 0
  {
    hide R.AppendEntries;
    var n := c.servers[a.p].node;
    if a.OnAppReq? && K.Indexable(c, a) { AppendKeepsLast(n, a.m.aa); }
  }

  lemma StepFills(c: K.Cluster, a: K.Action)
    requires K.Enabled(c, a) && |K.Step(c, a).trace| > |c.trace| && K.Step(c, a).trace[|c.trace|].Proposed?
    ensures var c' := K.Step(c, a); var e := c'.trace[|c.trace|];
      |c'.servers| == |c.servers| && e.index > 0 && e.op.me == c.servers[a.p].rsm.me && LastOf(c'.servers[a.p].node) > 0
  {
  }

  lemma SimSynced(c: K.Cluster, w: World, p: nat)
    requires Sim(c, w) && p < |c.servers|
    ensures R.Synced(c.servers[p].node)
  {
    hide Inv, RsmSim, WaitSim, R.Synced;
    assert ServerSim(c.servers[p], w, p);
  }

  lemma StepOccupied(c: K.Cluster, w: World, a: K.Action)
    requires Sim(c, w) && Occupied(c) && K.Enabled(c, a)
    ensures Occupied(K.Step(c, a))
  {
    hide Sim, K.Step, K.Enabled, LastOf, R.Synced;
    var c' := K.Step(c, a);
    SameServers(c, a);
    StepEvent(c, a);
    SimSynced(c, w, a.p);
    SimNames(c, w, a.p);
    forall e | e in c'.trace && e.Proposed?
      ensures e.index > 0 && e.op.me < |c'.servers| && LastOf(c'.servers[e.op.me].node) > 0
    {
      var i :| 0 <= i < |c'.trace| && c'.trace[i] == e;
      if i < |c.trace| {
        assert c.trace[i] == e;
        OthersStay(c, a, e.op.me);
        if e.op.me == a.p { StepKeepsLast(c, a); }
      } else {
        StepFills(c, a);
      }
    }
  }

  lemma OthersStay(c: K.Cluster, a: K.Action, p: nat)
    requires K.Enabled(c, a) && p < |c.servers|
    ensures |K.Step(c, a).servers| == |c.servers| && (p != a.p ==> K.Step(c, a).servers[p] == c.servers[p])
  {
  }

  lemma {:induction false} RunOccupied(c: K.Cluster, w: World, acts: seq<K.Action>, c': K.Cluster)
    requires Sim(c, w) && Occupied(c) && K.Reaches(c, acts, c')
    ensures Occupied(c')
    decreases |acts|
  {
    hide Sim, Occupied, K.Step, K.Enabled, Grows;
    if acts == [] {
    } else {
      var w1 := StepSim(c, w, acts[0]);
      StepOccupied(c, w, acts[0]);
      RunOccupied(K.Step(c, acts[0]), w1, acts[1..], c');
    }
  }

  /** Index 1 is proposed at once by each peer: a peer that proposed there never proposes there again. */
  lemma FirstIndexClear(n: nat, c: K.Cluster, p: nat, req: Kv.Request)
    requires Reachable(n, c) && Proposes(c, p, req) && IndexOf(c, p) == 1
    ensures Clear(c.trace, p, OpOf(c, p, req).id, IndexOf(c, p))
  {
    hide Sim, K.Step, K.Enabled;
    var acts :| K.Reaches(K.Init(n), acts, c);
    InitSim(n);
    RunOccupied(K.Init(n), Start(n), acts, c);
  }
}
