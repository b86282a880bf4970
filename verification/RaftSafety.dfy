/** What holds in every state a cluster can reach. */
module RaftSafety {
  import opened Options
  import opened RaftTypes
  import opened Consensus
  import opened ConsensusProof
  import opened Simulation
  import opened SimulationNode
  import opened SimulationLog
  import opened SimulationRsm
  import Kv
  import R = RaftNode
  import S = Rsm
  import K = Cluster

  /** c is a state of some run of an n-peer cluster. */
  ghost predicate Reachable(n: nat, c: K.Cluster) {
    n > 0 && exists acts :: K.Reaches(K.Init(n), acts, c)
  }

  lemma {:induction false} ReachesNext(c0: K.Cluster, acts: seq<K.Action>, c: K.Cluster, a: K.Action)
    requires K.Reaches(c0, acts, c) && K.Enabled(c, a)
    ensures K.Reaches(c0, acts + [a], K.Step(c, a))
    decreases |acts|
  {
    hide K.Enabled, K.Step;
    if acts == [] {
      assert [a][1..] == [];
      assert K.Reaches(K.Step(c, a), [], K.Step(c, a));
    } else {
      ReachesNext(K.Step(c0, acts[0]), acts[1..], c, a);
      assert (acts + [a])[1..] == acts[1..] + [a];
    }
  }

  lemma StepReachable(n: nat, c: K.Cluster, a: K.Action)
    requires Reachable(n, c) && K.Enabled(c, a)
    ensures Reachable(n, K.Step(c, a))
  {
    hide K.Enabled, K.Step, K.Reaches, K.Init;
    var acts :| K.Reaches(K.Init(n), acts, c);
    ReachesNext(K.Init(n), acts, c, a);
  }

  lemma {:induction false} RunReachable(n: nat, c: K.Cluster, acts: seq<K.Action>, c': K.Cluster)
    requires Reachable(n, c) && K.Reaches(c, acts, c')
    ensures Reachable(n, c')
    decreases |acts|
  {
    hide Reachable, K.Enabled, K.Step;
    if acts == [] {
    } else {
      StepReachable(n, c, acts[0]);
      RunReachable(n, K.Step(c, acts[0]), acts[1..], c');
    }
  }

  // ----- every run is simulated by Consensus worlds -----

  lemma InitSim(n: nat)
    requires n > 0
    ensures Sim(K.Init(n), Start(n))
  {
    StartHolds(n);
    hide Inv;
    var c, w := K.Init(n), Start(n);
    forall p: nat | p < n
      ensures ServerSim(c.servers[p], w, p)
    {
      InitServer(n, p);
    }
  }

  lemma InitServer(n: nat, p: nat)
    requires p < n
    ensures ServerSim(K.Boot(p, n, 0, R.Disk(R.Blank, R.NoSnap)), Start(n), p)
  {
    assert [ZERO][1..] == [];
  }

  lemma NodeIndexes(n: R.Node, w: World, p: nat)
    requires Inv(w) && NodeSim(n, w, p)
    ensures R.Ok(n) && n.n == |w.peers| && n.lastApplied <= R.LastIndex(n) && (R.CanDeliver(n) ==> R.InRange(n))
  {
    hide Inv, Tracked, Counted, Fold;
    CommitInside(w, p);
  }

  lemma SimIndexable(c: K.Cluster, w: World, a: K.Action)
    requires Sim(c, w) && K.Enabled(c, a)
    ensures K.Indexable(c, a)
  {
    hide Inv, NodeSim, RsmSim, WaitSim, AppendOk, SnapOk, VoteOk, R.Ok, R.InRange;
    assert ServerSim(c.servers[a.p], w, a.p);
    NodeIndexes(c.servers[a.p].node, w, a.p);
    if a.OnAppRep? || a.OnSnapRep? {
      assert MsgSim(w, a.m);
    }
  }

  lemma StepSim(c: K.Cluster, w: World, a: K.Action) returns (w': World)
    requires Sim(c, w) && K.Enabled(c, a)
    ensures Sim(K.Step(c, a), w') && Grows(w, w')
  {
    hide Sim, Grows, K.Step;
    SimIndexable(c, w, a);
    match a
    case Timeout(p) => w' := TimeoutSim(c, w, p);
    case AskVote(p, i) => w' := AskVoteSim(c, w, p, i);
    case OnVoteReq(p, m) => w' := VoteReqSim(c, w, p, m);
    case OnVoteRep(p, m) => w' := VoteRepSim(c, w, p, m);
    case Send(p, i) => w' := SendSim(c, w, p, i);
    case OnAppReq(p, m) => w' := AppReqSim(c, w, p, m);
    case OnAppRep(p, m) => w' := AppRepSim(c, w, p, m);
    case OnSnapReq(p, m) => w' := SnapReqSim(c, w, p, m);
    case OnSnapRep(p, m) => w' := SnapRepSim(c, w, p, m);
    case Apply(p) => w' := ApplySim(c, w, p);
    case Read(p) => w' := ReadSim(c, w, p);
    case Compact(p) => w' := CompactSim(c, w, p);
    case Submit(p, req) => w' := SubmitSim(c, w, p, req);
    case SubmitReturns(p, id) => w' := ReturnsSim(c, w, p, id);
    case SubmitGivesUp(p, id) => w' := GivesUpSim(c, w, p, id);
    case Crash(p) => w' := CrashSim(c, w, p);
    case CrashInside(p, m) => w' := CrashInsideSim(c, w, p, m);
  }

  lemma {:induction false} RunSim(c: K.Cluster, w: World, acts: seq<K.Action>, c': K.Cluster) returns (w': World)
    requires Sim(c, w) && K.Reaches(c, acts, c')
    ensures Sim(c', w') && Grows(w, w')
    decreases |acts|
  {
    hide Sim, Grows, K.Step, K.Enabled;
    if acts == [] {
      w' := w;
      GrowsReflexive(w);
    } else {
      var w1 := StepSim(c, w, acts[0]);
      w' := RunSim(K.Step(c, acts[0]), w1, acts[1..], c');
      GrowsTransitive(w, w1, w');
    }
  }

  lemma ReachSim(n: nat, c: K.Cluster) returns (w: World)
    requires Reachable(n, c)
    ensures Sim(c, w)
  {
    hide Sim, K.Reaches;
    var acts :| K.Reaches(K.Init(n), acts, c);
    InitSim(n);
    w := RunSim(K.Init(n), Start(n), acts, c);
  }

  // ----- one agreed log -----

  /** The longest committed prefix. */
  lemma {:induction false} LongestChosen(w: World, C: set<(nat, nat)>) returns (G: seq<Entry>)
    requires Inv(w) && C <= w.chosen
    ensures |G| > 0 && Agreed(w, G, |G| - 1)
    ensures forall t: nat, i: nat :: (t, i) in C ==> i < |G|
    decreases |C|
  {
    hide Inv;
    if C == {} {
      G := [ZERO];
    } else {
      var x: (nat, nat) :| x in C;
      G := LongestChosen(w, C - {x});
      if x.1 >= |G| {
        G := ChosenPrefix(w, x.0, x.1);
      }
    }
  }

  lemma ChosenPrefix(w: World, t: nat, i: nat) returns (G: seq<Entry>)
    requires Inv(w) && (t, i) in w.chosen
    ensures |G| == i + 1 && Agreed(w, G, i)
  {
    hide Inv;
    ChosenOwn(w, t, i);
    G := w.tlog[t][..i + 1];
    assert G[0] == w.tlog[t][0];
    assert G[..i + 1] == G;
    assert Has(w, G, t, i);
  }

  lemma ChosenOwn(w: World, t: nat, i: nat)
    requires Inv(w) && (t, i) in w.chosen
    ensures OwnEntry(w, t, i) && w.tlog[t][0] == ZERO
  {
    ChosenIsChoosable(w, t, i);
    assert Matches(w, w.tlog[t]);
  }

  lemma AgreedSame(w: World, G: seq<Entry>, H: seq<Entry>, i: nat, j: nat)
    requires Inv(w) && Agreed(w, G, i) && Agreed(w, H, j) && i <= j
    ensures G[..i + 1] == H[..i + 1]
  {
    hide Inv;
    if i > 0 {
      var t: nat, a: nat :| (t, a) in w.chosen && i <= a && Has(w, G, t, i);
      var u: nat, b: nat :| (u, b) in w.chosen && j <= b && Has(w, H, u, j);
      ChosenAgree(w, t, a, u, b, i);
      HasShorter(w, H, u, i, j);
    }
  }

  /** G is long enough to contain every agreed index. */
  ghost predicate Covers(w: World, G: seq<Entry>) {
    && |G| > 0 && Agreed(w, G, |G| - 1)
    && (forall t: nat, i: nat :: (t, i) in w.chosen ==> i < |G|)
  }

  lemma AgreedInside(w: World, G: seq<Entry>, H: seq<Entry>, i: nat)
    requires Inv(w) && Covers(w, G) && Agreed(w, H, i)
    ensures i < |G| && H[..i + 1] == G[..i + 1] && H[i] == G[i]
    ensures Fold(H, i) == Fold(G, i) && SnapAt(H, i) == SnapAt(G, i)
  {
    AgreedSame(w, H, G, i, |G| - 1);
    hide Inv, Covers;
    assert H[i] == H[..i + 1][i] == G[..i + 1][i] == G[i];
    FoldPrefix(H, G, i);
  }

  /** The log of G, compacted at lii, is the log of the node as far as its commit index. */
  ghost predicate HoldsPrefix(n: R.Node, G: seq<Entry>) {
    && |n.log| > 0 && n.lastIncludedIndex <= n.commitIndex <= R.LastIndex(n) && n.commitIndex < |G|
    && n.lastIncludedTerm == G[n.lastIncludedIndex].term
    && n.snapshot == SnapAt(G, n.lastIncludedIndex)
    && (forall i :: n.lastIncludedIndex < i <= n.commitIndex ==> R.EntryAt(n, i) == G[i])
  }

  ghost predicate DeliveredFrom(G: seq<Entry>, e: K.Event) {
    match e
    case Delivered(_, CommandMsg(i, cmd)) => 0 < i < |G| && G[i].cmd == cmd
    case Delivered(_, SnapshotMsg(i, t, d)) => 0 < i < |G| && d == SnapAt(G, i) && t == G[i].term
    case Answered(p, life, id, own, i, reply) =>
      && 0 < i < |G| && G[i].cmd.Run?
      && var op := G[i].cmd.op;
        && op.me == p && op.id == id && reply == Kv.Apply(Fold(G, i - 1), op.req).1
        && op.life <= life && (op.life == life <==> op == own)
    case Crowned(_, _) => true
    case Proposed(_, _, _) => true
  }

  /** One log explains the whole run: every command and snapshot ever delivered anywhere, every committed
      prefix, every service state and every answer ever given comes from G, and every entry of G was proposed. */
  ghost predicate Explains(G: seq<Entry>, c: K.Cluster) {
    && |G| > 0 && AllProposed(G, c.trace)
    && (forall e :: e in c.trace ==> DeliveredFrom(G, e))
    && (forall p: nat :: p < |c.servers| ==> HoldsPrefix(c.servers[p].node, G))
    && (forall p: nat :: p < |c.servers| ==>
          var r := c.servers[p].rsm; r.lastApplied < |G| && r.state == Fold(G, r.lastApplied))
  }

  /** Every operation in G was put there, at its index and in its term, by some leader. */
  ghost predicate AllProposed(G: seq<Entry>, trace: seq<K.Event>) {
    forall i: nat :: 0 < i < |G| ==> G[i].cmd.Run? && K.Proposed(G[i].cmd.op, i, G[i].term) in trace
  }

  lemma ExplainEntries(c: K.Cluster, w: World, G: seq<Entry>)
    requires OpsSim(c.servers, c.trace, w) && |G| > 0 && Agreed(w, G, |G| - 1)
    ensures AllProposed(G, c.trace)
  {
    var m := |G| - 1;
    if m > 0 {
      var t: nat, x: nat :| (t, x) in w.chosen && m <= x && Has(w, G, t, m);
      forall i: nat | 0 < i < |G| ensures G[i].cmd.Run? && K.Proposed(G[i].cmd.op, i, G[i].term) in c.trace {
        assert G[i] == G[..m + 1][i] == w.tlog[t][..m + 1][i] == w.tlog[t][i];
        assert OpOk(c.servers, c.trace, i, w.tlog[t][i]);
      }
    }
  }

  lemma ExplainEvent(w: World, G: seq<Entry>, e: K.Event)
    requires Inv(w) && Covers(w, G) && EventSim(w, e)
    ensures DeliveredFrom(G, e)
  {
    hide Inv, Covers, Fold, SnapAt;
    match e
    case Crowned(t, p) =>
    case Proposed(_, _, _) =>
    case Delivered(_, CommandMsg(i, cmd)) =>
      var H: seq<Entry> :| Agreed(w, H, i) && H[i].cmd == cmd;
      AgreedInside(w, G, H, i);
    case Delivered(_, SnapshotMsg(i, t, d)) =>
      var H: seq<Entry> :| Agreed(w, H, i) && SnapAt(H, i) == d && H[i].term == t;
      AgreedInside(w, G, H, i);
    case Answered(p, life, id, own, i, reply) =>
      var op :| AnswerAt(w, i, op, reply) && AnswersTo(op, p, life, id, own);
      ExplainAnswer(w, G, i, op, reply);
  }

  lemma ExplainAnswer(w: World, G: seq<Entry>, i: nat, op: Op, reply: Kv.Reply)
    requires Inv(w) && Covers(w, G) && AnswerAt(w, i, op, reply)
    ensures 0 < i < |G| && G[i].cmd == Run(op) && reply == Kv.Apply(Fold(G, i - 1), op.req).1
  {
    hide Inv, Covers, Fold;
    var H: seq<Entry> :| Agreed(w, H, i) && H[i].cmd == Run(op) && reply == Kv.Apply(Fold(H, i - 1), op.req).1;
    AgreedInside(w, G, H, i);
    assert H[..i] == H[..i + 1][..i] && G[..i] == G[..i + 1][..i];
    FoldPrefix(H, G, i - 1);
  }

  lemma ExplainServer(w: World, G: seq<Entry>, s: K.Server, p: nat)
    requires Inv(w) && Covers(w, G) && ServerSim(s, w, p)
    ensures HoldsPrefix(s.node, G) && s.rsm.lastApplied < |G| && s.rsm.state == Fold(G, s.rsm.lastApplied)
  {
    hide Inv, Covers, Fold, WaitSim, Tracked, Counted, Has;
    var n, L := s.node, w.peers[p].log;
    CommitInside(w, p);
    CommitAgreed(w, p, n.commitIndex);
    AgreedInside(w, G, L, n.commitIndex);
    CommitAgreed(w, p, n.lastIncludedIndex);
    AgreedInside(w, G, L, n.lastIncludedIndex);
    QueuePrefix(L, L, s.applyCh, s.rsm.lastApplied, n.lastApplied);
    CommitAgreed(w, p, s.rsm.lastApplied);
    AgreedInside(w, G, L, s.rsm.lastApplied);
    forall i | n.lastIncludedIndex < i <= n.commitIndex
      ensures R.EntryAt(n, i) == G[i]
    {
      CompactsAt(n.log, n.lastIncludedIndex, L, i);
      assert L[i] == L[..n.commitIndex + 1][i] == G[..n.commitIndex + 1][i];
    }
  }

  lemma ExplainRun(c: K.Cluster, w: World) returns (G: seq<Entry>)
    requires Sim(c, w)
    ensures Explains(G, c) && Covers(w, G)
  {
    hide Inv, DeliveredFrom, HoldsPrefix, Fold, ServerSim;
    G := LongestChosen(w, w.chosen);
    ExplainEntries(c, w, G);
    forall e | e in c.trace ensures DeliveredFrom(G, e) { ExplainEvent(w, G, e); }
    forall p: nat | p < |c.servers|
      ensures HoldsPrefix(c.servers[p].node, G)
      ensures var r := c.servers[p].rsm; r.lastApplied < |G| && r.state == Fold(G, r.lastApplied)
    {
      ExplainServer(w, G, c.servers[p], p);
    }
  }

  /** State-machine safety, with replica states and answers. */
  lemma StateMachineSafety(n: nat, c: K.Cluster) returns (G: seq<Entry>)
    requires Reachable(n, c)
    ensures Explains(G, c)
  {
    hide Sim, Explains, Covers;
    var w := ReachSim(n, c);
    G := ExplainRun(c, w);
  }

  // ----- elections, logs and leaders -----

  /** What two nodes' logs are compared through. */
  ghost predicate Seen(n: R.Node, P: Peer) {
    && n.currentTerm == P.term && n.role == P.role && n.commitIndex == P.commit
    && Compacts(n.log, n.lastIncludedIndex, P.log)
  }

  ghost predicate AllSeen(c: K.Cluster, w: World) {
    |w.peers| == |c.servers| && forall p: nat :: p < |c.servers| ==> Seen(c.servers[p].node, w.peers[p])
  }

  lemma SimSeen(c: K.Cluster, w: World)
    requires Sim(c, w)
    ensures Inv(w) && AllSeen(c, w)
  {
    hide Inv, RsmSim, WaitSim, Tracked, Counted, Bounds;
    forall p: nat | p < |c.servers| ensures Seen(c.servers[p].node, w.peers[p]) {
      assert ServerSim(c.servers[p], w, p);
    }
  }

  lemma Views(n: nat, c: K.Cluster) returns (w: World)
    requires Reachable(n, c)
    ensures Inv(w) && AllSeen(c, w)
  {
    hide Inv, Sim, AllSeen;
    w := ReachSim(n, c);
    SimSeen(c, w);
  }

  /** Two moments of one run. */
  lemma TwoViews(n: nat, c: K.Cluster, acts: seq<K.Action>, c': K.Cluster) returns (w: World, w': World)
    requires Reachable(n, c) && K.Reaches(c, acts, c')
    ensures Inv(w) && Inv(w') && Grows(w, w') && AllSeen(c, w) && AllSeen(c', w')
  {
    hide Inv, Sim, AllSeen, Grows, K.Reaches;
    w := ReachSim(n, c);
    w' := RunSim(c, w, acts, c');
    SimSeen(c, w);
    SimSeen(c', w');
  }

  /** Nodes whose full logs share a prefix hold the same entries in it, above both boundaries. */
  lemma SharedEntry(a: R.Node, b: R.Node, L: seq<Entry>, M: seq<Entry>, k: nat, i: nat)
    requires Compacts(a.log, a.lastIncludedIndex, L) && Compacts(b.log, b.lastIncludedIndex, M)
    requires k < |L| && k < |M| && L[..k + 1] == M[..k + 1]
    requires a.lastIncludedIndex <= i <= k && b.lastIncludedIndex <= i
    ensures R.EntryAt(a, i).term == R.EntryAt(b, i).term
    ensures a.lastIncludedIndex < i && b.lastIncludedIndex < i ==> R.EntryAt(a, i) == R.EntryAt(b, i)
  {
    CompactsAt(a.log, a.lastIncludedIndex, L, i);
    CompactsAt(b.log, b.lastIncludedIndex, M, i);
    assert L[i] == L[..k + 1][i] && M[i] == M[..k + 1][i];
  }

  /** Election safety: over the whole run, through crashes, a term has at most one leader. */
  lemma ElectionSafety(n: nat, c: K.Cluster, t: nat, p: nat, q: nat)
    requires Reachable(n, c) && K.Crowned(t, p) in c.trace && K.Crowned(t, q) in c.trace
    ensures p == q
  {
    hide Inv, ServerSim;
    var w := ReachSim(n, c);
    assert EventSim(w, K.Crowned(t, p)) && EventSim(w, K.Crowned(t, q));
  }

  /** At most one peer is in the leader role of a term, and what is on disk is what is in memory. */
  lemma LeadersUnique(n: nat, c: K.Cluster, p: nat, q: nat)
    requires Reachable(n, c) && p < |c.servers| && q < |c.servers|
    ensures var a, b := c.servers[p].node, c.servers[q].node;
      && R.Synced(a)
      && (a.role == Candidate ==> a.votes == |a.granted| + 1)
      && (a.role == Leader && b.role == Leader && a.currentTerm == b.currentTerm ==> p == q)
  {
    hide Inv, LogSim;
    var w := ReachSim(n, c);
    assert ServerSim(c.servers[p], w, p) && ServerSim(c.servers[q], w, q);
    if c.servers[p].node.role == Leader && c.servers[q].node.role == Leader {
      LeaderLog(w, p);
      LeaderLog(w, q);
    }
  }

  /** Log matching across compaction: equal terms at an index mean equal entries at every earlier index
      both logs still hold, and equal boundary terms. */
  lemma LogMatchingTheorem(n: nat, c: K.Cluster, p: nat, q: nat, i: nat, j: nat)
    requires Reachable(n, c) && p < |c.servers| && q < |c.servers|
    requires var a, b := c.servers[p].node, c.servers[q].node;
      && a.lastIncludedIndex <= j <= i < a.lastIncludedIndex + |a.log|
      && b.lastIncludedIndex <= j <= i < b.lastIncludedIndex + |b.log|
      && R.EntryAt(a, i).term == R.EntryAt(b, i).term
    ensures var a, b := c.servers[p].node, c.servers[q].node;
      && R.EntryAt(a, j).term == R.EntryAt(b, j).term
      && (a.lastIncludedIndex < j && b.lastIncludedIndex < j ==> R.EntryAt(a, j) == R.EntryAt(b, j))
  {
    hide Inv, Matches, Compacts;
    var w := Views(n, c);
    var a, b := c.servers[p].node, c.servers[q].node;
    var L, M := w.peers[p].log, w.peers[q].log;
    LogsMatchPeer(w, p);
    LogsMatchPeer(w, q);
    CompactsLength(a.log, a.lastIncludedIndex, L);
    CompactsLength(b.log, b.lastIncludedIndex, M);
    CompactsAt(a.log, a.lastIncludedIndex, L, i);
    CompactsAt(b.log, b.lastIncludedIndex, M, i);
    LogMatching(w, L, M, i);
    SharedEntry(a, b, L, M, i, j);
  }

  lemma CompactsLength(log: seq<Entry>, lii: nat, L: seq<Entry>)
    requires Compacts(log, lii, L)
    ensures |log| > 0 && lii + |log| == |L|
  {
  }

  /** Leader completeness: what peer p regards as committed at some moment is in the log of every leader of that
      term or a later one at every later moment, crashes included. */
  lemma LeaderCompletenessTheorem(n: nat, c: K.Cluster, acts: seq<K.Action>, c': K.Cluster, p: nat, q: nat)
    requires Reachable(n, c) && K.Reaches(c, acts, c') && p < |c.servers| && q < |c'.servers|
    requires c'.servers[q].node.role == Leader && c.servers[p].node.currentTerm <= c'.servers[q].node.currentTerm
    ensures HoldsUpTo(c.servers[p].node, c'.servers[q].node, c.servers[p].node.commitIndex)
  {
    hide Inv, Matches, Compacts, Grows, K.Reaches;
    var w, w' := TwoViews(n, c, acts, c');
    CommittedInLeader(w, w', p, q);
    SharedUpTo(c.servers[p].node, c'.servers[q].node, w.peers[p].log, w'.peers[q].log, w.peers[p].commit);
  }

  /** Both logs reach index k and hold the same entries up to it, above both boundaries. */
  ghost predicate HoldsUpTo(a: R.Node, b: R.Node, k: nat) {
    && |a.log| > 0 && |b.log| > 0 && k <= R.LastIndex(a) && k <= R.LastIndex(b)
    && (forall i :: a.lastIncludedIndex < i <= k && b.lastIncludedIndex < i ==> R.EntryAt(a, i) == R.EntryAt(b, i))
  }

  lemma SharedUpTo(a: R.Node, b: R.Node, L: seq<Entry>, M: seq<Entry>, k: nat)
    requires Compacts(a.log, a.lastIncludedIndex, L) && Compacts(b.log, b.lastIncludedIndex, M)
    requires k < |L| && k < |M| && L[..k + 1] == M[..k + 1]
    ensures HoldsUpTo(a, b, k)
  {
    forall i | a.lastIncludedIndex < i <= k && b.lastIncludedIndex < i
      ensures R.EntryAt(a, i) == R.EntryAt(b, i)
    {
      SharedEntry(a, b, L, M, k, i);
    }
  }

  lemma CommittedInLeader(w: World, w': World, p: nat, q: nat)
    requires Inv(w) && Inv(w') && Grows(w, w') && p < |w.peers| && q < |w'.peers|
    requires w'.peers[q].role == Leader && w.peers[p].term <= w'.peers[q].term
    ensures var L, M, d := w.peers[p].log, w'.peers[q].log, w.peers[p].commit;
      d < |L| && d < |M| && L[..d + 1] == M[..d + 1]
  {
    hide Inv, Matches;
    var L, M, d, u := w.peers[p].log, w'.peers[q].log, w.peers[p].commit, w'.peers[q].term;
    CommitInside(w, p);
    LeaderLog(w', q);
    if d > 0 {
      var t: nat, i: nat :| CommitBy(w, L, d, w.peers[p].term, t, i);
      HasGrows(w, w', L, t, d);
      LeaderCompleteness(w', t, i, u);
      HasShorter(w', M, t, d, i);
    } else {
      LogsMatchPeer(w, p);
      LogsMatch(w', q, u);
      ZeroFirst(w, L);
      ZeroFirst(w', M);
    }
  }

  lemma ZeroFirst(w: World, L: seq<Entry>)
    requires Matches(w, L)
    ensures |L| > 0 && L[..1] == [ZERO]
  {
  }

  /** matchIndex soundness: what a leader recorded for a peer, the peer's log agrees with while it stays in the term. */
  lemma MatchIndexSound(n: nat, c: K.Cluster, p: nat, q: nat)
    requires Reachable(n, c) && p < |c.servers| && q < |c.servers|
    requires c.servers[p].node.role == Leader && c.servers[q].node.currentTerm == c.servers[p].node.currentTerm
    ensures var a, b := c.servers[p].node, c.servers[q].node;
      && |a.matchIndex| == |c.servers|
      && (a.matchIndex[q] > 0 ==> HoldsUpTo(a, b, a.matchIndex[q]))
  {
    hide Inv, Matches, RsmSim, WaitSim, Bounds;
    var w := ReachSim(n, c);
    var a, b := c.servers[p].node, c.servers[q].node;
    assert ServerSim(c.servers[p], w, p) && ServerSim(c.servers[q], w, q);
    hide LogSim, Compacts;
    if a.matchIndex[q] > 0 {
      AckedAgrees(w, p, q, a.matchIndex[q]);
      SharedUpTo(a, b, w.peers[p].log, w.peers[q].log, a.matchIndex[q]);
    }
  }

  lemma AckedAgrees(w: World, p: nat, q: nat, m: nat)
    requires Inv(w) && p < |w.peers| && q < |w.peers| && w.peers[p].role == Leader
    requires w.peers[q].term == w.peers[p].term && Acked(w, q, w.peers[p].term, m)
    ensures var L, M := w.peers[p].log, w.peers[q].log; m < |L| && m < |M| && L[..m + 1] == M[..m + 1]
  {
    var t := w.peers[p].term;
    LeaderLog(w, p);
    assert Has(w, w.peers[q].log, t, w.acks[(q, t)]);
    HasShorter(w, w.peers[q].log, t, m, w.acks[(q, t)]);
  }

  /** Every AppendEntries ever sent reaches its leader's commit index, so the follower's clamp to its own
      last index is exact: a peer that accepts it ends with max(old, LeaderCommit). */
  lemma CommitClampExact(n: nat, c: K.Cluster, m: K.Msg, x: R.Node)
    requires Reachable(n, c) && m in c.net && m.AppReq?
    requires |x.log| > 0 && R.AppendEntries(x, m.aa).1.success
    ensures m.aa.leaderCommit <= m.aa.prevLogIndex + |m.aa.entries|
    ensures R.AppendEntries(x, m.aa).0.commitIndex == Max(x.commitIndex, m.aa.leaderCommit)
  {
    hide Inv, ServerSim, R.AppendEntries;
    var w := ReachSim(n, c);
    assert MsgSim(w, m);
    ClampOne(x, m.aa);
  }

  lemma ClampOne(x: R.Node, a: R.AppendArgs)
    requires |x.log| > 0 && R.AppendEntries(x, a).1.success && a.leaderCommit <= a.prevLogIndex + |a.entries|
    ensures R.AppendEntries(x, a).0.commitIndex == Max(x.commitIndex, a.leaderCommit)
  {
    var x1 := EnteredNode(x, a.term);
    R.MergeGrows(x1.log, a.prevLogIndex + 1 - x1.lastIncludedIndex, a.entries);
  }

  // ----- the applier and the waiters -----

  /** No index is ever out of range, and the compacted log, applied index and commit index stay in order. */
  lemma AppliedInOrder(n: nat, c: K.Cluster, p: nat)
    requires Reachable(n, c) && p < |c.servers|
    ensures !c.panicked
    ensures var x := c.servers[p].node;
      && |x.log| > 0 && Bounds(x) && x.commitIndex <= R.LastIndex(x)
  {
    hide Inv, Fold;
    var w := ReachSim(n, c);
    assert ServerSim(c.servers[p], w, p);
    CommitInside(w, p);
  }

  /** The applier is gap-free: the next delivery is the operation at the next index, or a snapshot further on. */
  lemma DeliveriesGapFree(n: nat, c: K.Cluster, p: nat)
    requires Reachable(n, c) && p < |c.servers| && R.CanDeliver(c.servers[p].node)
    ensures var x := c.servers[p].node;
      && R.InRange(x)
      && match R.Deliver(x).1
        case CommandMsg(i, cmd) => i == x.lastApplied + 1 && cmd.Run?
        case SnapshotMsg(i, _, d) => i > x.lastApplied && d == x.snapshot && d.Snap? && d.lastApplied == i
  {
    hide Inv, Fold;
    var w := ReachSim(n, c);
    var x := c.servers[p].node;
    assert ServerSim(c.servers[p], w, p);
    CommitInside(w, p);
    if x.pending == R.NoPending {
      CompactsAt(x.log, x.lastIncludedIndex, w.peers[p].log, x.lastApplied + 1);
      LogOps(c.servers, c.trace, w, p, x.lastApplied + 1);
    }
  }

  /** A waiter that has neither a result nor a return is still registered at its index, or its term has
      passed and its own exit test is true. */
  lemma WaitersServed(n: nat, c: K.Cluster, p: nat, id: nat)
    requires Reachable(n, c) && p < |c.servers| && id in c.servers[p].rsm.waiters
    ensures var s := c.servers[p]; var x := s.rsm.waiters[id];
      && x.op.me == p && x.op.id == id && x.op.life == s.rsm.life
      && (x.ch == None && x.ret == None ==>
            || (x.index in s.rsm.pending && s.rsm.pending[x.index] == id)
            || (x.term < s.node.currentTerm && S.Lost(s.node, x)))
  {
    hide Inv, NodeSim, RsmSim;
    var w := ReachSim(n, c);
    assert ServerSim(c.servers[p], w, p) && WaiterOk(c.servers[p], w, id);
  }

  /** A peer's term never falls, through crashes and restarts. */
  lemma TermsOnlyGrow(n: nat, c: K.Cluster, acts: seq<K.Action>, c': K.Cluster, p: nat)
    requires Reachable(n, c) && K.Reaches(c, acts, c') && p < |c.servers|
    ensures p < |c'.servers| && c.servers[p].node.currentTerm <= c'.servers[p].node.currentTerm
  {
    hide Inv, Compacts, K.Reaches;
    var w, w' := TwoViews(n, c, acts, c');
  }

  /** Once a waiter's term has passed, its exit test holds at every later moment. */
  lemma LostForGood(n: nat, c: K.Cluster, acts: seq<K.Action>, c': K.Cluster, p: nat, id: nat)
    requires Reachable(n, c) && K.Reaches(c, acts, c') && p < |c.servers| && id in c.servers[p].rsm.waiters
    requires c.servers[p].rsm.waiters[id].term < c.servers[p].node.currentTerm
    ensures p < |c'.servers| && S.Lost(c'.servers[p].node, c.servers[p].rsm.waiters[id])
  {
    hide K.Reaches;
    TermsOnlyGrow(n, c, acts, c', p);
  }

  /** A restart brings back exactly the durable part of memory. */
  lemma RestartRestores(n: nat, c: K.Cluster, p: nat)
    requires Reachable(n, c) && p < |c.servers|
    ensures var x := c.servers[p].node; var y := R.Make(x.me, x.n, x.disk);
      && y.currentTerm == x.currentTerm && y.votedFor == x.votedFor && y.log == x.log && y.snapshot == x.snapshot
      && y.lastIncludedIndex == x.lastIncludedIndex && y.lastIncludedTerm == x.lastIncludedTerm
      && y.lastApplied == y.commitIndex == x.lastIncludedIndex
  {
    hide Inv, LogSim, RsmSim, WaitSim;
    var w := ReachSim(n, c);
    assert ServerSim(c.servers[p], w, p);
  }
}
