/** The applier, the RSM above it and crash-restarts, against the Consensus world. */
module SimulationRsm {
  import opened Options
  import opened RaftTypes
  import opened Consensus
  import opened ConsensusProof
  import opened Simulation
  import opened SimulationNode
  import opened SimulationLog
  import Kv
  import R = RaftNode
  import S = Rsm
  import K = Cluster

  /** A server whose RSM kept the operations of its waiters. */
  ghost predicate KeepsWaiters(r: S.Replica, r': S.Replica) {
    && r'.life == r.life
    && (forall id :: id in r.waiters ==> id in r'.waiters && r'.waiters[id].op == r.waiters[id].op)
  }

  lemma OpsKeptRsm(servers: seq<K.Server>, trace: seq<K.Event>, evs: seq<K.Event>, p: nat, s: K.Server, w: World)
    requires OpsSim(servers, trace, w) && p < |servers| && KeepsWaiters(servers[p].rsm, s.rsm)
    ensures OpsSim(servers[p := s], trace + evs, w)
  {
    forall t, i: nat | t in w.tlog && 0 < i < |w.tlog[t]|
      ensures OpOk(servers[p := s], trace + evs, i, w.tlog[t][i])
    {
      assert OpOk(servers, trace, i, w.tlog[t][i]);
    }
  }

  /** Everything up to a peer's commit index is agreed. */
  lemma CommitAgreed(w: World, p: nat, i: nat)
    requires Inv(w) && p < |w.peers| && i <= w.peers[p].commit
    ensures Agreed(w, w.peers[p].log, i)
  {
    var L, d := w.peers[p].log, w.peers[p].commit;
    assert Matches(w, L) && CommitOk(w, L, d, w.peers[p].term);
    if i > 0 {
      var u: nat, j: nat :| CommitBy(w, L, d, w.peers[p].term, u, j);
      HasShorter(w, L, u, i, d);
    }
  }

  /** Every command in a peer's log is an operation. */
  lemma LogOps(servers: seq<K.Server>, trace: seq<K.Event>, w: World, p: nat, i: nat)
    requires Inv(w) && OpsSim(servers, trace, w) && p < |w.peers| && 0 < i < |w.peers[p].log|
    ensures OpOk(servers, trace, i, w.peers[p].log[i])
  {
    hide Inv, Matches;
    LogsMatchPeer(w, p);
    LogEntryIn(w, w.peers[p].log, i);
    var u :| u in w.tlog && i < |w.tlog[u]| && w.tlog[u][i] == w.peers[p].log[i];
    assert OpOk(servers, trace, i, w.tlog[u][i]);
  }

  lemma LogsMatchPeer(w: World, p: nat)
    requires Inv(w) && p < |w.peers|
    ensures Matches(w, w.peers[p].log)
  {
  }

  // ----- the applier -----

  lemma {:induction false} QueueSnoc(L: seq<Entry>, q: seq<R.ApplyMsg>, from: nat, to: nat, m: R.ApplyMsg)
    requires Queue(L, q, from, to) && Queue(L, [m], to, m.index)
    ensures Queue(L, q + [m], from, m.index)
    decreases |q|
  {
    if q == [] {
      assert q + [m] == [m];
    } else {
      QueueSnoc(L, q[1..], q[0].index, to, m);
      assert (q + [m])[1..] == q[1..] + [m] && (q + [m])[0] == q[0];
    }
  }

  lemma DeliverNode(n: R.Node, w: World, p: nat)
    requires NodeSim(n, w, p) && R.CanDeliver(n) && R.InRange(n) && n.commitIndex < |w.peers[p].log|
    ensures var (n', msg) := R.Deliver(n); var L := w.peers[p].log;
      && NodeSim(n', w, p) && Advances(n, n') && n'.lastApplied == msg.index
      && 0 < msg.index <= n.commitIndex && n.lastApplied < msg.index
      && (match msg
          case CommandMsg(i, cmd) => i == n.lastApplied + 1 && L[i].cmd == cmd
          case SnapshotMsg(i, _, d) => i == n.lastIncludedIndex && d == SnapAt(L, i))
      && Queue(L, [msg], n.lastApplied, msg.index)
  {
    var (n', msg) := R.Deliver(n);
    var L := w.peers[p].log;
    if n.pending == R.NoPending {
      CompactsAt(n.log, n.lastIncludedIndex, L, n.lastApplied + 1);
    }
    assert Queue(L, [], msg.index, msg.index);
    assert [msg][1..] == [];
    assert R.DiskOf(n') == R.DiskOf(n);
  }

  lemma ApplySim(c: K.Cluster, w: World, p: nat) returns (w': World)
    requires Sim(c, w) && K.Enabled(c, K.Apply(p)) && K.Indexable(c, K.Apply(p))
    ensures Sim(K.Step(c, K.Apply(p)), w') && Grows(w, w')
  {
    hide Inv, Grows, SnapAt, Agreed, NodeSim, WaitSim;
    w' := w;
    Stays(w, p);
    var s := c.servers[p];
    var n := s.node;
    assert ServerSim(s, w, p);
    ApplyServer(s, w, p);
    var (n', msg) := R.Deliver(n);
    var s' := s.(node := n', applyCh := s.applyCh + [msg]);
    assert KeepsWaiters(s.rsm, s'.rsm);
    OpsKeptRsm(c.servers, c.trace, [K.Delivered(p, msg)], p, s', w);
    Assemble(c, w, w, p, s', {}, [K.Delivered(p, msg)]);
    assert c.net + {} == c.net;
  }

  lemma ApplyServer(s: K.Server, w: World, p: nat)
    requires Inv(w) && ServerSim(s, w, p) && R.CanDeliver(s.node) && R.InRange(s.node)
    ensures var (n', msg) := R.Deliver(s.node);
      && ServerSim(s.(node := n', applyCh := s.applyCh + [msg]), w, p)
      && EventSim(w, K.Delivered(p, msg))
  {
    hide Inv, Grows, Fold, Agreed;
    var n, L := s.node, w.peers[p].log;
    CommitInside(w, p);
    DeliverNode(n, w, p);
    var (n', msg) := R.Deliver(n);
    QueueSnoc(L, s.applyCh, s.rsm.lastApplied, n.lastApplied, msg);
    CommitAgreed(w, p, msg.index);
    WaitKept(s, n', w);
    WaitChannel(s.(node := n'), s.applyCh + [msg], w);
  }

  /** The apply channel plays no part in the waiters. */
  lemma WaitChannel(s: K.Server, q: seq<R.ApplyMsg>, w: World)
    requires WaitSim(s, w)
    ensures WaitSim(s.(applyCh := q), w)
  {
    forall id | id in s.rsm.waiters
      ensures WaiterOk(s.(applyCh := q), w, id)
    {
      assert WaiterOk(s, w, id);
    }
  }

  // ----- the reader -----

  lemma ReadSim(c: K.Cluster, w: World, p: nat) returns (w': World)
    requires Sim(c, w) && K.Enabled(c, K.Read(p)) && K.Indexable(c, K.Read(p))
    ensures Sim(K.Step(c, K.Read(p)), w') && Grows(w, w')
  {
    hide Inv, Grows, NodeSim, WaitSim, S.Read;
    w' := w;
    Stays(w, p);
    var s := c.servers[p];
    assert ServerSim(s, w, p);
    var s' := s.(rsm := S.Read(s.rsm, s.applyCh[0]), applyCh := s.applyCh[1..]);
    ReadServer(c.servers, c.trace, s, w, p);
    OpsKeptRsm(c.servers, c.trace, [], p, s', w);
    assert c.net + {} == c.net && c.trace + [] == c.trace;
    Assemble(c, w, w, p, s', {}, []);
  }

  lemma ReadServer(servers: seq<K.Server>, trace: seq<K.Event>, s: K.Server, w: World, p: nat)
    requires Inv(w) && OpsSim(servers, trace, w) && ServerSim(s, w, p) && s.applyCh != []
    ensures var r' := S.Read(s.rsm, s.applyCh[0]);
      && ServerSim(s.(rsm := r', applyCh := s.applyCh[1..]), w, p) && KeepsWaiters(s.rsm, r')
  {
    hide Inv, Grows, WaiterOk, Agreed;
    var L, m := w.peers[p].log, s.applyCh[0];
    CommitInside(w, p);
    QueueBelow(L, s.applyCh, s.rsm.lastApplied, s.node.lastApplied);
    match m
    case CommandMsg(i, cmd) =>
      LogOps(servers, trace, w, p, i);
      CommitAgreed(w, p, i);
      ReadCommand(s, w, p, i, cmd.op);
    case SnapshotMsg(i, t, data) =>
      ReadSnapshot(s, w, p, i);
  }

  lemma QueueBelow(L: seq<Entry>, q: seq<R.ApplyMsg>, from: nat, to: nat)
    requires Queue(L, q, from, to) && to < |L| && q != []
    ensures 0 < q[0].index <= to
  {
    QueuePrefix(L, L, q[1..], q[0].index, to);
  }

  /** Delivering the command at index i: its waiter, if any, gets its result. */
  lemma ReadCommand(s: K.Server, w: World, p: nat, i: nat, op: Op)
    requires p < |w.peers| && ServerSim(s, w, p) && s.applyCh != [] && s.applyCh[0] == R.CommandMsg(i, Run(op))
    requires Agreed(w, w.peers[p].log, i) && i > 0
    ensures var r' := S.Read(s.rsm, s.applyCh[0]);
      && ServerSim(s.(rsm := r', applyCh := s.applyCh[1..]), w, p) && KeepsWaiters(s.rsm, r')
  {
    hide Agreed, NodeSim;
    var L := w.peers[p].log;
    var r' := S.Read(s.rsm, s.applyCh[0]);
    var s' := s.(rsm := r', applyCh := s.applyCh[1..]);
    var reply := Kv.Apply(s.rsm.state, op.req).1;
    assert AnswerAt(w, i, op, reply);
    hide AnswerAt;
    forall id | id in r'.waiters
      ensures WaiterOk(s', w, id)
    {
      assert WaiterOk(s, w, id);
    }
  }

  lemma ReadSnapshot(s: K.Server, w: World, p: nat, i: nat)
    requires ServerSim(s, w, p) && s.applyCh != [] && s.applyCh[0].SnapshotMsg? && s.applyCh[0].index == i
    ensures var r' := S.Read(s.rsm, s.applyCh[0]);
      && ServerSim(s.(rsm := r', applyCh := s.applyCh[1..]), w, p) && KeepsWaiters(s.rsm, r')
  {
    hide NodeSim, AnswerAt;
    var r' := S.Read(s.rsm, s.applyCh[0]);
    var s' := s.(rsm := r', applyCh := s.applyCh[1..]);
    forall id | id in r'.waiters
      ensures WaiterOk(s', w, id)
    {
      assert WaiterOk(s, w, id);
    }
  }

  // ----- compaction by the service -----

  lemma CompactSim(c: K.Cluster, w: World, p: nat) returns (w': World)
    requires Sim(c, w) && K.Enabled(c, K.Compact(p)) && K.Indexable(c, K.Compact(p))
    ensures Sim(K.Step(c, K.Compact(p)), w') && Grows(w, w')
  {
    hide Inv, Grows, WaitSim, R.Snapshot;
    w' := w;
    Stays(w, p);
    var s := c.servers[p];
    assert ServerSim(s, w, p);
    CompactNode(s, w, p);
    NodeActs(c, w, w, p, R.Snapshot(s.node, s.rsm.lastApplied, S.Encode(s.rsm)), {}, []);
    assert c.net + {} == c.net && c.trace + [] == c.trace;
  }

  lemma CompactNode(s: K.Server, w: World, p: nat)
    requires NodeSim(s.node, w, p) && RsmSim(s, w.peers[p].log) && s.node.lastApplied <= R.LastIndex(s.node)
    ensures var n' := R.Snapshot(s.node, s.rsm.lastApplied, S.Encode(s.rsm));
      NodeSim(n', w, p) && Advances(s.node, n') && n'.lastApplied == s.node.lastApplied
  {
    hide Fold, Queue;
    var n, L, i := s.node, w.peers[p].log, s.rsm.lastApplied;
    if n.lastIncludedIndex < i <= n.lastApplied {
      CompactsCut(n.log, n.lastIncludedIndex, L, i);
      CompactsAt(n.log, n.lastIncludedIndex, L, i);
    }
  }

  // ----- Submit -----

  lemma SubmitSim(c: K.Cluster, w: World, p: nat, req: Kv.Request) returns (w': World)
    requires Sim(c, w) && K.Enabled(c, K.Submit(p, req)) && K.Indexable(c, K.Submit(p, req))
    ensures Sim(K.Step(c, K.Submit(p, req)), w') && Grows(w, w')
  {
    hide Inv, Grows, S.Submit, ServerSim, OpsSim;
    var s := c.servers[p];
    assert ServerSim(s, w, p);
    var (r', n') := S.Submit(s.rsm, s.node, req);
    var s' := s.(rsm := r', node := n');
    assert c.net + {} == c.net && c.trace + [] == c.trace;
    if s.node.role == Leader {
      var e := K.Proposed(Op(s.rsm.me, r'.nextId, s.rsm.life, req), R.LastIndex(s.node) + 1, s.node.currentTerm);
      w' := SubmitLeader(c.servers, c.trace, w, p, req);
      Assemble(c, w, w', p, s', {}, [e]);
    } else {
      w' := w;
      Stays(w, p);
      SubmitRefused(s, w, p, req);
      OpsKeptRsm(c.servers, c.trace, [], p, s', w);
      Assemble(c, w, w', p, s', {}, []);
    }
  }

  lemma SubmitLeader(servers: seq<K.Server>, trace: seq<K.Event>, w: World, p: nat, req: Kv.Request) returns (w': World)
    requires Inv(w) && p < |servers| == |w.peers| && OpsSim(servers, trace, w) && ServerSim(servers[p], w, p)
    requires servers[p].node.role == Leader && R.Ok(servers[p].node)
    ensures Moves(w, w', p)
    ensures var s := servers[p]; var (r', n') := S.Submit(s.rsm, s.node, req); var s' := s.(rsm := r', node := n');
      var e := K.Proposed(Op(s.rsm.me, r'.nextId, s.rsm.life, req), R.LastIndex(s.node) + 1, s.node.currentTerm);
      ServerSim(s', w', p) && OpsSim(servers[p := s'], trace + [e], w')
  {
    hide Inv, Grows, NodeSim, WaitSim, OpsSim;
    var s := servers[p];
    NodeIsOk(s.node, w, p);
    var (r', n') := S.Submit(s.rsm, s.node, req);
    var s' := s.(rsm := r', node := n');
    var op := Op(p, s.rsm.nextId + 1, s.rsm.life, req);
    SubmitMoves(s, w, p, op);
    w' := Propose(w, p, Run(op));
    LeaderLog(w, p);
    SubmitBound(s.node, w, p);
    SubmitNode(s.node, w, p, op);
    SubmitWaits(s, w, p, req);
    WaitGrows(s', w, w');
    RsmKept(s, n', w, w', p);
    SubmitOps(servers, trace, w, p, s', op);
    LeaderLast(s.node, w, p);
  }

  lemma NodeIsOk(n: R.Node, w: World, p: nat)
    requires NodeSim(n, w, p)
    ensures R.Ok(n)
  {
  }

  lemma SubmitBound(n: R.Node, w: World, p: nat)
    requires Inv(w) && NodeSim(n, w, p)
    ensures n.commitIndex < |w.peers[p].log|
  {
    hide Inv;
    CommitInside(w, p);
  }

  lemma SubmitMoves(s: K.Server, w: World, p: nat, op: Op)
    requires Inv(w) && NodeSim(s.node, w, p) && s.node.role == Leader
    ensures CanPropose(w, p) && Moves(w, Propose(w, p, Run(op)), p)
  {
    hide Inv, Grows, CommitOk, NodeSim;
    assert CanPropose(w, p) by { LeaderRole(s.node, w, p); }
    ProposeKeeps(w, p, Run(op));
    CommitInside(w, p);
  }

  lemma LeaderRole(n: R.Node, w: World, p: nat)
    requires NodeSim(n, w, p) && n.role == Leader
    ensures CanPropose(w, p)
  {
  }

  lemma SubmitNode(n: R.Node, w: World, p: nat, op: Op)
    requires NodeSim(n, w, p) && CanPropose(w, p) && n.commitIndex < |w.peers[p].log|
    requires Grows(w, Propose(w, p, Run(op)))
    ensures NodeSim(R.Start(n, Run(op)), Propose(w, p, Run(op)), p)
  {
    hide Grows, Fold;
    var L, e, lii := w.peers[p].log, Entry(n.currentTerm, Run(op)), n.lastIncludedIndex;
    var n' := R.Start(n, Run(op));
    var w' := Propose(w, p, Run(op));
    assert (n.log + [e])[1..] == n.log[1..] + [e] == L[lii + 1..] + [e] == (L + [e])[lii + 1..];
    assert (L + [e])[..lii + 1] == L[..lii + 1];
    FoldPrefix(L, L + [e], lii);
    SubmitTracked(n, w, p, op);
  }

  lemma SubmitTracked(n: R.Node, w: World, p: nat, op: Op)
    requires NodeSim(n, w, p) && CanPropose(w, p) && Grows(w, Propose(w, p, Run(op)))
    ensures Tracked(R.Start(n, Run(op)), Propose(w, p, Run(op)))
  {
    hide Fold, SnapAt;
    var n', w' := R.Start(n, Run(op)), Propose(w, p, Run(op));
    assert R.LastIndex(n') == |w'.peers[p].log| - 1;
    forall q: nat | q < n.n
      ensures n'.matchIndex[q] > 0 ==> Acked(w', q, n'.currentTerm, n'.matchIndex[q])
    {
      if q != p && n.matchIndex[q] > 0 {
        assert Acked(w, q, n.currentTerm, n.matchIndex[q]);
      }
    }
  }

  /** A waiter registered earlier at the new index belongs to an earlier term. */
  lemma SubmitWaits(s: K.Server, w: World, p: nat, req: Kv.Request)
    requires NodeSim(s.node, w, p) && WaitSim(s, w) && s.node.role == Leader && s.rsm.me == p
    ensures var (r', n') := S.Submit(s.rsm, s.node, req);
      && WaitSim(s.(rsm := r', node := n'), w)
      && KeepsWaiters(s.rsm, r')
      && r'.waiters[r'.nextId].op == Op(p, r'.nextId, s.rsm.life, req) && r'.me == p
      && r'.lastApplied == s.rsm.lastApplied && r'.state == s.rsm.state
  {
    hide AnswerAt, LogSim;
    assert |s.node.log| > 0;
    var (r', n') := S.Submit(s.rsm, s.node, req);
    var s' := s.(rsm := r', node := n');
    assert R.LastIndex(n') == R.LastIndex(s.node) + 1;
    assert r'.nextId !in s.rsm.waiters by {
      assert forall id :: id in s.rsm.waiters ==> WaiterOk(s, w, id);
    }
    forall id | id in r'.waiters
      ensures WaiterOk(s', w, id)
    {
      if id != r'.nextId {
        assert WaiterOk(s, w, id);
      }
    }
  }

  lemma LeaderLast(n: R.Node, w: World, p: nat)
    requires NodeSim(n, w, p)
    ensures |n.log| > 0 && R.LastIndex(n) + 1 == |w.peers[p].log| && n.currentTerm == w.peers[p].term
  {
  }

  lemma SubmitOps(servers: seq<K.Server>, trace: seq<K.Event>, w: World, p: nat, s: K.Server, op: Op)
    requires OpsSim(servers, trace, w) && p < |servers| && |servers| == |w.peers| && CanPropose(w, p)
    requires LeaderLogIs(w, p) && KeepsWaiters(servers[p].rsm, s.rsm)
    requires op.me == p && op.life == s.rsm.life && op.id in s.rsm.waiters && s.rsm.waiters[op.id].op == op
    ensures OpsSim(servers[p := s], trace + [K.Proposed(op, |w.peers[p].log|, w.peers[p].term)], Propose(w, p, Run(op)))
  {
    var w' := Propose(w, p, Run(op));
    var t := w.peers[p].term;
    var e := K.Proposed(op, |w.peers[p].log|, t);
    assert e in trace + [e];
    forall u, i: nat | u in w'.tlog && 0 < i < |w'.tlog[u]|
      ensures OpOk(servers[p := s], trace + [e], i, w'.tlog[u][i])
    {
      if u == t && i == |w.peers[p].log| {
      } else {
        assert w'.tlog[u][i] == w.tlog[u][i];
        assert OpOk(servers, trace, i, w.tlog[u][i]);
      }
    }
  }

  ghost predicate LeaderLogIs(w: World, p: nat) {
    p < |w.peers| && w.peers[p].term in w.tlog && w.tlog[w.peers[p].term] == w.peers[p].log
  }

  lemma SubmitRefused(s: K.Server, w: World, p: nat, req: Kv.Request)
    requires ServerSim(s, w, p) && s.node.role != Leader
    ensures var (r', n') := S.Submit(s.rsm, s.node, req);
      ServerSim(s.(rsm := r', node := n'), w, p) && KeepsWaiters(s.rsm, r')
  {
    hide AnswerAt, LogSim, Fold;
    var (r', n') := S.Submit(s.rsm, s.node, req);
    forall id | id in r'.waiters
      ensures WaiterOk(s.(rsm := r', node := n'), w, id)
    {
      assert WaiterOk(s, w, id);
    }
  }

  lemma ReturnsSim(c: K.Cluster, w: World, p: nat, id: nat) returns (w': World)
    requires Sim(c, w) && K.Enabled(c, K.SubmitReturns(p, id)) && K.Indexable(c, K.SubmitReturns(p, id))
    ensures Sim(K.Step(c, K.SubmitReturns(p, id)), w') && Grows(w, w')
  {
    hide Inv, Grows, NodeSim, RsmSim;
    w' := w;
    Stays(w, p);
    var s := c.servers[p];
    assert ServerSim(s, w, p);
    var s' := s.(rsm := S.Return(s.rsm, id));
    ReturnsServer(s, w, p, id);
    var x := s.rsm.waiters[id];
    var evs := if x.ch.value.Answer? then [K.Answered(p, s.rsm.life, id, x.op, x.index, x.ch.value.reply)] else [];
    if x.ch.value.Answer? {
      OwnAnswer(c, w, p, id);
    }
    OpsKeptRsm(c.servers, c.trace, evs, p, s', w);
    Assemble(c, w, w, p, s', {}, evs);
    assert c.net + {} == c.net && c.trace + [] == c.trace;
  }

  lemma ReturnsServer(s: K.Server, w: World, p: nat, id: nat)
    requires ServerSim(s, w, p) && id in s.rsm.waiters && s.rsm.waiters[id].ch != None
    ensures ServerSim(s.(rsm := S.Return(s.rsm, id)), w, p) && KeepsWaiters(s.rsm, S.Return(s.rsm, id))
  {
    hide AnswerAt, NodeSim, Fold;
    var s' := s.(rsm := S.Return(s.rsm, id));
    forall j | j in s'.rsm.waiters
      ensures WaiterOk(s', w, j)
    {
      assert WaiterOk(s, w, j);
    }
  }

  /** A result sent to a waiter is that of an operation with its id at its index;
      if that operation is of this lifetime, it is the waiter's own. */
  lemma OwnAnswer(c: K.Cluster, w: World, p: nat, id: nat)
    requires Sim(c, w) && p < |c.servers| && id in c.servers[p].rsm.waiters
    requires var x := c.servers[p].rsm.waiters[id]; x.ch.Some? && x.ch.value.Answer?
    ensures var r := c.servers[p].rsm; var x := r.waiters[id];
      EventSim(w, K.Answered(p, r.life, id, x.op, x.index, x.ch.value.reply))
  {
    hide Inv, NodeSim, Fold;
    var s := c.servers[p];
    var x := s.rsm.waiters[id];
    assert ServerSim(s, w, p) && WaiterOk(s, w, id);
    var op :| AnswerAt(w, x.index, op, x.ch.value.reply) && op.me == p && op.id == id;
    AnswerOp(c.servers, c.trace, w, x.index, op, x.ch.value.reply);
  }

  lemma AnswerOp(servers: seq<K.Server>, trace: seq<K.Event>, w: World, i: nat, op: Op, reply: Kv.Reply)
    requires OpsSim(servers, trace, w) && AnswerAt(w, i, op, reply)
    ensures exists t: nat :: OpOk(servers, trace, i, Entry(t, Run(op)))
  {
    hide Fold;
    var G: seq<Entry> :| Agreed(w, G, i) && G[i].cmd == Run(op) && reply == Kv.Apply(Fold(G, i - 1), op.req).1;
    var t: nat, j: nat :| (t, j) in w.chosen && i <= j && Has(w, G, t, i);
    assert w.tlog[t][i] == w.tlog[t][..i + 1][i] == G[..i + 1][i] == G[i];
    assert OpOk(servers, trace, i, w.tlog[t][i]);
    assert w.tlog[t][i] == Entry(w.tlog[t][i].term, Run(op));
  }

  lemma GivesUpSim(c: K.Cluster, w: World, p: nat, id: nat) returns (w': World)
    requires Sim(c, w) && K.Enabled(c, K.SubmitGivesUp(p, id)) && K.Indexable(c, K.SubmitGivesUp(p, id))
    ensures Sim(K.Step(c, K.SubmitGivesUp(p, id)), w') && Grows(w, w')
  {
    hide Inv, Grows, NodeSim, RsmSim;
    w' := w;
    Stays(w, p);
    var s := c.servers[p];
    assert ServerSim(s, w, p);
    var s' := s.(rsm := S.GiveUp(s.rsm, id));
    GivesUpServer(s, w, p, id);
    OpsKeptRsm(c.servers, c.trace, [], p, s', w);
    assert c.net + {} == c.net && c.trace + [] == c.trace;
    Assemble(c, w, w, p, s', {}, []);
  }

  lemma GivesUpServer(s: K.Server, w: World, p: nat, id: nat)
    requires ServerSim(s, w, p) && id in s.rsm.waiters
    ensures ServerSim(s.(rsm := S.GiveUp(s.rsm, id)), w, p) && KeepsWaiters(s.rsm, S.GiveUp(s.rsm, id))
  {
    hide AnswerAt, NodeSim, Fold;
    var s' := s.(rsm := S.GiveUp(s.rsm, id));
    forall j | j in s'.rsm.waiters
      ensures WaiterOk(s', w, j)
    {
      assert WaiterOk(s, w, j);
    }
  }

  // ----- crash and restart -----

  lemma CrashSim(c: K.Cluster, w: World, p: nat) returns (w': World)
    requires Sim(c, w) && K.Enabled(c, K.Crash(p)) && K.Indexable(c, K.Crash(p))
    ensures Sim(K.Step(c, K.Crash(p)), w') && Grows(w, w')
  {
    hide Inv, Grows, WaitSim, RsmSim, K.Boot, OpsSim, LogSim, R.Synced, Counted, Tracked;
    var s := c.servers[p];
    assert ServerSim(s, w, p);
    w' := Resign(w, p, s.node.lastIncludedIndex);
    ResignMoves(w, p, s.node.lastIncludedIndex);
    var s' := K.Boot(s.node.me, s.node.n, s.rsm.life + 1, s.node.disk);
    CrashServer(s, w, p);
    CrashOps(c.servers, c.trace, w, w', p, s');
    assert c.net + {} == c.net && c.trace + [] == c.trace;
    Assemble(c, w, w', p, s', {}, []);
  }

  /** A restarted server is exactly its durable state, with the service rolled back to its snapshot. */
  lemma CrashServer(s: K.Server, w: World, p: nat)
    requires NodeSim(s.node, w, p) && s.rsm.me == p
    ensures CanResign(w, p, s.node.lastIncludedIndex)
    ensures var s' := K.Boot(s.node.me, s.node.n, s.rsm.life + 1, s.node.disk);
      ServerSim(s', Resign(w, p, s.node.lastIncludedIndex), p) && s'.rsm.life == s.rsm.life + 1
  {
    var s' := K.Boot(s.node.me, s.node.n, s.rsm.life + 1, s.node.disk);
    var n, n', L := s.node, s'.node, w.peers[p].log;
    assert n'.currentTerm == n.currentTerm && n'.votedFor == n.votedFor && n'.log == n.log
        && n'.lastIncludedIndex == n.lastIncludedIndex && n'.snapshot == n.snapshot;
    assert Queue(L, [], n.lastIncludedIndex, n.lastIncludedIndex);
  }

  lemma CrashOps(servers: seq<K.Server>, trace: seq<K.Event>, w: World, w': World, p: nat, s: K.Server)
    requires OpsSim(servers, trace, w) && w'.tlog == w.tlog && p < |servers| && s.rsm.life == servers[p].rsm.life + 1
    ensures OpsSim(servers[p := s], trace, w')
  {
    forall t, i: nat | t in w'.tlog && 0 < i < |w'.tlog[t]|
      ensures OpOk(servers[p := s], trace, i, w'.tlog[t][i])
    {
      assert OpOk(servers, trace, i, w.tlog[t][i]);
    }
  }

  /** A handler's first save only adopts the request's term, so a crash after it is a crash of a peer that did. */
  lemma CrashInsideSim(c: K.Cluster, w: World, p: nat, m: K.Msg) returns (w': World)
    requires Sim(c, w) && K.Enabled(c, K.CrashInside(p, m)) && K.Indexable(c, K.CrashInside(p, m))
    ensures Sim(K.Step(c, K.CrashInside(p, m)), w') && Grows(w, w')
  {
    hide Sim, Grows, R.ToFollower, K.Boot;
    var c1, w1 := AdoptSim(c, w, p, K.TermFor(m, p));
    AdoptedOk(c.servers[p].node, K.TermFor(m, p));
    w' := CrashSim(c1, w1, p);
    assert K.Step(c1, K.Crash(p)).servers == K.Step(c, K.CrashInside(p, m)).servers;
    GrowsTransitive(w, w1, w');
  }

  lemma AdoptedOk(n: R.Node, t: nat)
    requires R.Ok(n)
    ensures var n' := R.ToFollower(n, t); R.Ok(n') && n'.me == n.me && n'.n == n.n
  {
  }

  /** A peer in a later term, and nothing else. */
  lemma AdoptSim(c: K.Cluster, w: World, p: nat, t: nat) returns (c': K.Cluster, w': World)
    requires Sim(c, w) && p < |c.servers| && t > c.servers[p].node.currentTerm
    ensures c' == c.(servers := c.servers[p := c.servers[p].(node := R.ToFollower(c.servers[p].node, t))])
    ensures Sim(c', w') && Grows(w, w')
  {
    hide Inv, Grows, RsmSim, WaitSim;
    var s := c.servers[p];
    var n' := R.ToFollower(s.node, t);
    assert ServerSim(s, w, p);
    w' := Adopt(w, p, t);
    AdoptMoves(w, p, t);
    AdoptNode(s.node, w, p, t);
    NodeActs(c, w, w', p, n', {}, []);
    assert c.net + {} == c.net && c.trace + [] == c.trace;
    c' := K.Cluster(c.servers[p := s.(node := n')], c.net, c.trace, false);
  }
}
