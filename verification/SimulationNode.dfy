/** Every action of a Raft peer is a sequence of Consensus steps. */
module SimulationNode {
  import opened RaftTypes
  import opened Consensus
  import opened ConsensusProof
  import opened Simulation
  import R = RaftNode
  import K = Cluster

  /** Only peer p changes, and not the committed part of its log. */
  ghost predicate Moves(w: World, w': World, p: nat) {
    && p < |w.peers| == |w'.peers| && Inv(w') && Grows(w, w')
    && (forall q: nat :: q < |w.peers| && q != p ==> w'.peers[q] == w.peers[q])
    && var d := w.peers[p].commit;
      d < |w.peers[p].log| && d < |w'.peers[p].log| && w'.peers[p].log[..d + 1] == w.peers[p].log[..d + 1]
  }

  /** Some leader's log has e at index i. */
  ghost predicate EntryIn(w: World, i: nat, e: Entry) {
    exists u :: u in w.tlog && i < |w.tlog[u]| && w.tlog[u][i] == e
  }

  /** No entry appears in a leader's log that was not in one before, at the same index. */
  ghost predicate NoNewOps(w: World, w': World) {
    forall t, i: nat :: t in w'.tlog && 0 < i < |w'.tlog[t]| ==> EntryIn(w, i, w'.tlog[t][i])
  }

  /** A peer's term never falls, and within a term it leads at most once, with a log that only grows. */
  ghost predicate Advances(n: R.Node, n': R.Node) {
    && |n.log| > 0 && |n'.log| > 0 && n.currentTerm <= n'.currentTerm
    && (n.currentTerm == n'.currentTerm ==>
          && (n'.role == Candidate ==> n.role == Candidate)
          && (n'.role == Leader ==>
                n.role == Candidate || (n.role == Leader && R.LastIndex(n) <= R.LastIndex(n'))))
  }

  lemma CommitInside(w: World, p: nat)
    requires Inv(w) && p < |w.peers|
    ensures w.peers[p].commit < |w.peers[p].log|
    ensures CommitOk(w, w.peers[p].log, w.peers[p].commit, w.peers[p].term)
  {
  }

  lemma LeaderLog(w: World, p: nat)
    requires Inv(w) && p < |w.peers| && w.peers[p].role == Leader
    ensures var t := w.peers[p].term; t in w.lead && w.lead[t] == p && t in w.tlog && w.tlog[t] == w.peers[p].log
  {
  }

  lemma LogsMatch(w: World, p: nat, t: nat)
    requires Inv(w) && p < |w.peers| && t in w.tlog
    ensures Matches(w, w.peers[p].log) && Matches(w, w.tlog[t])
  {
  }

  lemma Parts(w: World)
    requires Inv(w)
    ensures Logs(w) && Roles(w)
  {
  }

  // ----- putting one server's change into the cluster -----

  lemma Assemble(c: K.Cluster, w: World, w': World, p: nat, s: K.Server, out: set<K.Msg>, evs: seq<K.Event>)
    requires Sim(c, w) && Moves(w, w', p) && ServerSim(s, w', p)
    requires forall m :: m in out ==> MsgSim(w', m)
    requires forall e :: e in evs ==> EventSim(w', e)
    requires OpsSim(c.servers[p := s], c.trace + evs, w')
    ensures Sim(K.Cluster(c.servers[p := s], c.net + out, c.trace + evs, false), w')
  {
    hide Inv;
    var servers' := c.servers[p := s];
    forall q: nat | q < |servers'|
      ensures ServerSim(servers'[q], w', q)
    {
      if q != p {
        ServerGrows(c.servers[q], w, w', q);
      }
    }
    forall m | m in c.net ensures MsgSim(w', m) { MsgGrows(w, w', m); }
    forall e | e in c.trace ensures EventSim(w', e) { EventGrows(w, w', e); }
  }

  lemma OpsKept(servers: seq<K.Server>, servers': seq<K.Server>, trace: seq<K.Event>, evs: seq<K.Event>, w: World,
                w': World)
    requires OpsSim(servers, trace, w) && NoNewOps(w, w') && |servers'| == |servers|
    requires forall p: nat :: p < |servers| ==> servers'[p].rsm == servers[p].rsm
    ensures OpsSim(servers', trace + evs, w')
  {
    forall t, i: nat | t in w'.tlog && 0 < i < |w'.tlog[t]|
      ensures OpOk(servers', trace + evs, i, w'.tlog[t][i])
    {
      assert EntryIn(w, i, w'.tlog[t][i]);
      var u :| u in w.tlog && i < |w.tlog[u]| && w.tlog[u][i] == w'.tlog[t][i];
      assert OpOk(servers, trace, i, w.tlog[u][i]);
    }
  }

  lemma SameOps(w: World, w': World)
    requires w'.tlog == w.tlog
    ensures NoNewOps(w, w')
  {
    forall t, i: nat | t in w'.tlog && 0 < i < |w'.tlog[t]|
      ensures EntryIn(w, i, w'.tlog[t][i])
    {
      assert w.tlog[t][i] == w'.tlog[t][i];
    }
  }

  lemma RsmKept(s: K.Server, n': R.Node, w: World, w': World, p: nat)
    requires NodeSim(s.node, w, p) && RsmSim(s, w.peers[p].log) && Moves(w, w', p)
    requires n'.lastApplied == s.node.lastApplied
    ensures RsmSim(s.(node := n'), w'.peers[p].log)
  {
    hide Inv, Grows;
    var L, L', d := w.peers[p].log, w'.peers[p].log, w.peers[p].commit;
    var a, b := s.node.lastApplied, s.rsm.lastApplied;
    assert L[..a + 1] == L[..d + 1][..a + 1] && L'[..a + 1] == L'[..d + 1][..a + 1];
    QueuePrefix(L, L', s.applyCh, b, a);
    assert b <= a;
    assert L[..b + 1] == L[..d + 1][..b + 1] && L'[..b + 1] == L'[..d + 1][..b + 1];
    FoldPrefix(L, L', b);
  }

  lemma WaitKept(s: K.Server, n': R.Node, w: World)
    requires WaitSim(s, w) && Advances(s.node, n')
    ensures WaitSim(s.(node := n'), w)
  {
    forall id | id in s.rsm.waiters
      ensures WaiterOk(s.(node := n'), w, id)
    {
      assert WaiterOk(s, w, id);
    }
  }

  /** An action that changes only the Raft peer of server p. */
  lemma NodeActs(c: K.Cluster, w: World, w': World, p: nat, n': R.Node, out: set<K.Msg>, evs: seq<K.Event>)
    requires Sim(c, w) && Moves(w, w', p) && NodeSim(n', w', p) && NoNewOps(w, w')
    requires Advances(c.servers[p].node, n') && n'.lastApplied == c.servers[p].node.lastApplied
    requires forall m :: m in out ==> MsgSim(w', m)
    requires forall e :: e in evs ==> EventSim(w', e)
    ensures Sim(K.Cluster(c.servers[p := c.servers[p].(node := n')], c.net + out, c.trace + evs, false), w')
  {
    hide Inv, Grows;
    var s := c.servers[p];
    assert ServerSim(s, w, p);
    RsmKept(s, n', w, w', p);
    WaitKept(s, n', w);
    WaitGrows(s.(node := n'), w, w');
    OpsKept(c.servers, c.servers[p := s.(node := n')], c.trace, evs, w, w');
    Assemble(c, w, w', p, s.(node := n'), out, evs);
  }

  /** No world step at all. */
  lemma Stays(w: World, p: nat)
    requires Inv(w) && p < |w.peers|
    ensures Moves(w, w, p) && NoNewOps(w, w)
  {
    CommitInside(w, p);
    SameOps(w, w);
  }

  lemma OpsThen(a: World, b: World, c: World)
    requires NoNewOps(a, b) && c.tlog == b.tlog
    ensures NoNewOps(a, c)
  {
    hide EntryIn;
  }

  lemma MovesThen(a: World, b: World, c: World, p: nat)
    requires Moves(a, b, p) && Moves(b, c, p) && a.peers[p].commit <= b.peers[p].commit
    requires NoNewOps(a, b) && c.tlog == b.tlog
    ensures Moves(a, c, p) && NoNewOps(a, c)
  {
    hide Inv, Grows, NoNewOps;
    GrowsTransitive(a, b, c);
    OpsThen(a, b, c);
    var d, e := a.peers[p].commit, b.peers[p].commit;
    assert c.peers[p].log[..d + 1] == c.peers[p].log[..e + 1][..d + 1] == b.peers[p].log[..e + 1][..d + 1];
  }

  lemma AdoptMoves(w: World, p: nat, t: nat)
    requires Inv(w) && CanAdopt(w, p, t)
    ensures Moves(w, Adopt(w, p, t), p) && NoNewOps(w, Adopt(w, p, t))
  {
    AdoptKeeps(w, p, t);
    CommitInside(w, p);
    SameOps(w, Adopt(w, p, t));
  }

  lemma AdoptNode(n: R.Node, w: World, p: nat, t: nat)
    requires NodeSim(n, w, p) && CanAdopt(w, p, t)
    ensures NodeSim(R.ToFollower(n, t), Adopt(w, p, t), p) && Advances(n, R.ToFollower(n, t))
  {
  }

  lemma ResignMoves(w: World, p: nat, c: nat)
    requires Inv(w) && CanResign(w, p, c)
    ensures Moves(w, Resign(w, p, c), p) && NoNewOps(w, Resign(w, p, c))
  {
    ResignKeeps(w, p, c);
    CommitInside(w, p);
    SameOps(w, Resign(w, p, c));
  }

  /** The start of a handler that accepts the sender's term. */
  ghost function Entered(w: World, p: nat, t: nat): World
    requires p < |w.peers| && w.peers[p].term <= t
  {
    if w.peers[p].term < t then Adopt(w, p, t) else Resign(w, p, w.peers[p].commit)
  }

  lemma EnteredMoves(n: R.Node, w: World, p: nat, t: nat)
    requires Inv(w) && NodeSim(n, w, p) && n.currentTerm <= t
    ensures Moves(w, Entered(w, p, t), p) && NoNewOps(w, Entered(w, p, t))
    ensures var n1 := if t > n.currentTerm then R.ToFollower(n, t) else n.(role := Follower);
      NodeSim(n1, Entered(w, p, t), p) && Advances(n, n1)
  {
    hide Inv, Grows;
    if w.peers[p].term < t {
      AdoptMoves(w, p, t);
      AdoptNode(n, w, p, t);
    } else {
      ResignMoves(w, p, w.peers[p].commit);
    }
  }

  // ----- elections -----

  lemma TimeoutSim(c: K.Cluster, w: World, p: nat) returns (w': World)
    requires Sim(c, w) && K.Enabled(c, K.Timeout(p)) && K.Indexable(c, K.Timeout(p))
    ensures Sim(K.Step(c, K.Timeout(p)), w') && Grows(w, w')
  {
    hide Inv, Grows, RsmSim, WaitSim, NoNewOps, R.StartElection, Campaign;
    w' := Campaign(w, p);
    CampaignMoves(w, p);
    var n := c.servers[p].node;
    assert ServerSim(c.servers[p], w, p);
    CampaignNode(n, w, p);
    NodeActs(c, w, w', p, R.StartElection(n), {}, []);
    assert c.trace + [] == c.trace;
  }

  lemma CampaignMoves(w: World, p: nat)
    requires Inv(w) && CanCampaign(w, p)
    ensures Moves(w, Campaign(w, p), p) && NoNewOps(w, Campaign(w, p))
  {
    CampaignKeeps(w, p);
    CommitInside(w, p);
    SameOps(w, Campaign(w, p));
  }

  lemma CampaignNode(n: R.Node, w: World, p: nat)
    requires NodeSim(n, w, p) && CanCampaign(w, p)
    ensures NodeSim(R.StartElection(n), Campaign(w, p), p) && Advances(n, R.StartElection(n))
    ensures R.StartElection(n).lastApplied == n.lastApplied
  {
  }

  lemma AskVoteSim(c: K.Cluster, w: World, p: nat, i: nat) returns (w': World)
    requires Sim(c, w) && K.Enabled(c, K.AskVote(p, i)) && K.Indexable(c, K.AskVote(p, i))
    ensures Sim(K.Step(c, K.AskVote(p, i)), w') && Grows(w, w')
  {
    hide Inv, Grows, RsmSim, WaitSim, Moves, NoNewOps, Roles, VoteOk;
    w' := w;
    GrowsReflexive(w);
    Stays(w, p);
    var n := c.servers[p].node;
    assert ServerSim(c.servers[p], w, p);
    Parts(w);
    AskVoteNode(n, w, p, i);
    NodeActs(c, w, w, p, n.(asked := n.asked + {i}), {K.VoteReq(i, R.MakeVoteArgs(n))}, []);
    assert c.trace + [] == c.trace;
  }

  lemma AskVoteNode(n: R.Node, w: World, p: nat, i: nat)
    requires NodeSim(n, w, p) && Roles(w) && n.role == Candidate && i < n.n && i != n.me
    ensures NodeSim(n.(asked := n.asked + {i}), w, p) && VoteOk(w, R.MakeVoteArgs(n))
  {
    var L := w.peers[p].log;
    assert w.bid[(n.currentTerm, p)] == L;
    CompactsAt(n.log, n.lastIncludedIndex, L, |L| - 1);
  }

  lemma VoteReqSim(c: K.Cluster, w: World, p: nat, m: K.Msg) returns (w': World)
    requires Sim(c, w) && K.Enabled(c, K.OnVoteReq(p, m)) && K.Indexable(c, K.OnVoteReq(p, m))
    ensures Sim(K.Step(c, K.OnVoteReq(p, m)), w') && Grows(w, w')
  {
    hide Inv, Grows, RsmSim, WaitSim, NodeSim, NoNewOps, Advances, VoteOk, R.RequestVote;
    var n := c.servers[p].node;
    assert ServerSim(c.servers[p], w, p) && MsgSim(w, m);
    var (n', r) := R.RequestVote(n, m.va);
    w' := VoteReqWorld(n, w, p, m.va);
    MsgGrows(w, w', m);
    NodeActs(c, w, w', p, n', {K.VoteRep(p, m.va, r)}, []);
    assert c.trace + [] == c.trace;
  }

  lemma VoteReqWorld(n: R.Node, w: World, p: nat, a: R.VoteArgs) returns (w': World)
    requires Inv(w) && NodeSim(n, w, p) && VoteOk(w, a)
    ensures Moves(w, w', p) && NoNewOps(w, w')
    ensures var (n', r) := R.RequestVote(n, a);
      && NodeSim(n', w', p) && Advances(n, n') && n'.lastApplied == n.lastApplied
      && (r.granted ==> (p, a.candidate, a.term) in w'.votes)
  {
    hide Inv, Grows;
    var n1, w1 := n, w;
    Stays(w, p);
    if a.term > n.currentTerm {
      w1, n1 := Adopt(w, p, a.term), R.ToFollower(n, a.term);
      AdoptMoves(w, p, a.term);
      AdoptNode(n, w, p, a.term);
    }
    var (n', r) := R.RequestVote(n, a);
    if r.granted {
      GrantReady(n1, w1, p, a);
      GrantMoves(w1, p, a.candidate, a.term);
      GrantNode(n1, w1, p, a);
      w' := Grant(w1, p, a.candidate, a.term);
      MovesThen(w, w1, w', p);
    } else {
      w' := w1;
    }
  }

  lemma GrantReady(n: R.Node, w: World, p: nat, a: R.VoteArgs)
    requires NodeSim(n, w, p) && VoteOk(w, a) && n.currentTerm == a.term
    requires R.ArgsUpToDate(n, a) && (n.votedFor == -1 || n.votedFor == a.candidate)
    ensures CanGrant(w, p, a.candidate, a.term)
  {
    var L := w.peers[p].log;
    CompactsAt(n.log, n.lastIncludedIndex, L, |L| - 1);
  }

  lemma GrantMoves(w: World, p: nat, c: nat, t: nat)
    requires Inv(w) && CanGrant(w, p, c, t)
    ensures Moves(w, Grant(w, p, c, t), p)
  {
    hide Inv, Grows;
    GrantKeeps(w, p, c, t);
    CommitInside(w, p);
  }

  lemma GrantNode(n: R.Node, w: World, p: nat, a: R.VoteArgs)
    requires NodeSim(n, w, p) && CanGrant(w, p, a.candidate, a.term)
    ensures NodeSim(R.Persist(n.(votedFor := a.candidate)), Grant(w, p, a.candidate, a.term), p)
  {
  }

  lemma VoteRepSim(c: K.Cluster, w: World, p: nat, m: K.Msg) returns (w': World)
    requires Sim(c, w) && K.Enabled(c, K.OnVoteRep(p, m)) && K.Indexable(c, K.OnVoteRep(p, m))
    ensures Sim(K.Step(c, K.OnVoteRep(p, m)), w') && Grows(w, w')
  {
    hide Inv, Grows, RsmSim, WaitSim, NodeSim, NoNewOps, Advances, VoteOk, R.OnVoteReply;
    var n := c.servers[p].node;
    assert ServerSim(c.servers[p], w, p) && MsgSim(w, m);
    var n' := R.OnVoteReply(n, m.va.term, m.from, m.vr);
    w' := VoteRepWorld(n, w, p, m);
    var evs := if n.role != Leader && n'.role == Leader then [K.Crowned(n'.currentTerm, p)] else [];
    NodeActs(c, w, w', p, n', {}, evs);
    assert c.trace + [] == c.trace;
  }

  lemma VoteRepWorld(n: R.Node, w: World, p: nat, m: K.Msg) returns (w': World)
    requires Inv(w) && NodeSim(n, w, p) && m.VoteRep? && MsgSim(w, m) && m.va.candidate == p
    requires m.va.term == n.currentTerm ==> m.from in n.asked && m.from !in n.heard
    ensures Moves(w, w', p) && NoNewOps(w, w')
    ensures var n' := R.OnVoteReply(n, m.va.term, m.from, m.vr);
      && NodeSim(n', w', p) && Advances(n, n') && n'.lastApplied == n.lastApplied
      && (n'.role == Leader ==> n'.currentTerm in w'.lead && w'.lead[n'.currentTerm] == p)
  {
    hide Inv, Grows;
    var t, i, r := m.va.term, m.from, m.vr;
    Parts(w);
    var n1 := if t == n.currentTerm then n.(heard := n.heard + {i}) else n;
    assert NodeSim(n1, w, p);
    Stays(w, p);
    if r.term > n.currentTerm {
      w' := Adopt(w, p, r.term);
      AdoptMoves(w, p, r.term);
      AdoptNode(n1, w, p, r.term);
    } else if n.currentTerm != t || n.role != Candidate || !r.granted {
      w' := w;
    } else {
      w' := CountVoteWorld(n1, w, p, i);
    }
  }

  /** A granted reply: one more vote, and with more than half of the cluster, leadership. */
  lemma CountVoteWorld(n: R.Node, w: World, p: nat, i: nat) returns (w': World)
    requires Inv(w) && NodeSim(n, w, p) && n.role == Candidate && i in n.heard && i !in n.granted
    requires (i, p, n.currentTerm) in w.votes
    ensures Moves(w, w', p) && NoNewOps(w, w')
    ensures var n2 := n.(votes := n.votes + 1, granted := n.granted + {i});
      var n' := if n2.votes > n2.n / 2 then R.BecomeLeader(n2, n.currentTerm) else n2;
      && NodeSim(n', w', p) && Advances(n, n')
      && (n'.role == Leader ==> n'.currentTerm in w'.lead && w'.lead[n'.currentTerm] == p)
  {
    hide Inv, Grows;
    var n2 := n.(votes := n.votes + 1, granted := n.granted + {i});
    assert NodeSim(n2, w, p);
    Stays(w, p);
    if n2.votes > n2.n / 2 {
      w' := ElectWorld(n2, w, p);
    } else {
      w' := w;
    }
  }

  lemma ElectWorld(n: R.Node, w: World, p: nat) returns (w': World)
    requires Inv(w) && NodeSim(n, w, p) && n.role == Candidate && n.votes > n.n / 2
    ensures Moves(w, w', p) && NoNewOps(w, w')
    ensures var n' := R.BecomeLeader(n, n.currentTerm);
      && NodeSim(n', w', p) && Advances(n, n')
      && n'.currentTerm in w'.lead && w'.lead[n'.currentTerm] == p
  {
    hide Inv, Grows;
    var Q := n.granted + {n.me};
    w' := Elect(w, p, Q);
    ElectKeeps(w, p, Q);
    CommitInside(w, p);
    Parts(w);
    ElectOps(w, p, Q);
    ElectNode(n, w, p, Q);
  }

  lemma ElectNode(n: R.Node, w: World, p: nat, Q: set<nat>)
    requires NodeSim(n, w, p) && CanElect(w, p, Q)
    ensures NodeSim(R.BecomeLeader(n, n.currentTerm), Elect(w, p, Q), p)
  {
    var n' := R.BecomeLeader(n, n.currentTerm);
    assert R.DiskOf(n') == R.DiskOf(n);
    assert R.LastIndex(n) == |w.peers[p].log| - 1;
  }

  lemma ElectOps(w: World, p: nat, Q: set<nat>)
    requires Logs(w) && CanElect(w, p, Q)
    ensures NoNewOps(w, Elect(w, p, Q))
  {
    var w' := Elect(w, p, Q);
    forall t, i: nat | t in w'.tlog && 0 < i < |w'.tlog[t]|
      ensures EntryIn(w, i, w'.tlog[t][i])
    {
      if t == w.peers[p].term {
        LogEntryIn(w, w.peers[p].log, i);
      } else {
        assert w.tlog[t][i] == w'.tlog[t][i];
      }
    }
  }

  lemma LogEntryIn(w: World, L: seq<Entry>, i: nat)
    requires Matches(w, L) && i < |L|
    ensures EntryIn(w, i, L[i])
  {
    var u := L[i].term;
    assert Has(w, L, u, i);
    assert w.tlog[u][i] == w.tlog[u][..i + 1][i] == L[..i + 1][i] == L[i];
  }
}
