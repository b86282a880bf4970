/** What the peers and services of every reachable cluster do with what reaches them. */
module ClusterExact {
  import opened Options
  import opened RaftTypes
  import opened Consensus
  import opened ConsensusProof
  import opened Simulation
  import opened SimulationNode
  import opened SimulationLog
  import opened SimulationRsm
  import opened RaftSafety
  import opened RaftExact
  import Kv
  import Lin = Linearizability
  import R = RaftNode
  import S = Rsm
  import K = Cluster
  import Sorting

  // ----- AppendEntries -----

  /** Where equal terms mean equal entries, the entries are in the merged log as they are. */
  lemma MergedEntries(log: seq<Entry>, off: nat, es: seq<Entry>)
    requires off <= |log|
    requires forall i :: off <= i < |log| && i - off < |es| && log[i].term == es[i - off].term ==> log[i] == es[i - off]
    ensures off + |es| <= |R.Merge(log, off, es)| && R.Merge(log, off, es)[off..off + |es|] == es
  {
    hide R.Merge;
    MergeEntries(log, off, es);
    var m := R.Merge(log, off, es);
    forall k | 0 <= k < |es| ensures m[off..off + |es|][k] == es[k] {
      assert m[off + k].term == es[off + k - off].term;
    }
  }

  /** The entries of an accepted request are then in the log, right behind the previous entry, which is all that was
      there before them; and what the leader had committed is committed here. */
  lemma AcceptedEntries(n: nat, c: K.Cluster, q: nat, a: R.AppendArgs)
    requires Reachable(n, c) && K.Enabled(c, K.OnAppReq(q, K.AppReq(q, a)))
    requires |c.servers[q].node.log| > 0 && R.AppendEntries(c.servers[q].node, a).1.success
    ensures var x, x' := c.servers[q].node, R.AppendEntries(c.servers[q].node, a).0;
      var off := a.prevLogIndex + 1 - x.lastIncludedIndex;
      && 0 < off <= |x.log| && off + |a.entries| <= |x'.log| && x'.log[..off] == x.log[..off]
      && x'.log[off..off + |a.entries|] == a.entries
      && x'.commitIndex == MaxOf(x.commitIndex, MinOf(a.leaderCommit, Last(x')))
  {
    hide Reachable, Sim, R.AppendEntries, R.Merge, Clash, TermAt;
    var x := c.servers[q].node;
    var m := K.AppReq(q, a);
    AcceptExactly(x, a);
    CommitClampExact(n, c, m, x);
    MergedLog(x, a);
    var w := ReachSim(n, c);
    SameEntries(c, w, q, a);
    MergedEntries(x.log, a.prevLogIndex + 1 - x.lastIncludedIndex, a.entries);
  }

  lemma MergedLog(x: R.Node, a: R.AppendArgs)
    requires |x.log| > 0 && R.AppendEntries(x, a).1.success
    ensures x.lastIncludedIndex <= a.prevLogIndex <= Last(x)
    ensures R.AppendEntries(x, a).0.log == R.Merge(x.log, a.prevLogIndex + 1 - x.lastIncludedIndex, a.entries)
  {
    hide R.FirstOfTerm, R.Merge;
  }

  /** Where a request's entry and the peer's have one term, they are the same. */
  lemma SameEntries(c: K.Cluster, w: World, q: nat, a: R.AppendArgs)
    requires Sim(c, w) && q < |c.servers| && K.AppReq(q, a) in c.net
    ensures var x := c.servers[q].node; forall i :: 0 < i < |x.log| ==>
      var j := x.lastIncludedIndex + i - a.prevLogIndex - 1;
      0 <= j < |a.entries| && x.log[i].term == a.entries[j].term ==> x.log[i] == a.entries[j]
  {
    hide Sim;
    var x := c.servers[q].node;
    forall i | 0 < i < |x.log|
      ensures var j := x.lastIncludedIndex + i - a.prevLogIndex - 1;
        0 <= j < |a.entries| && x.log[i].term == a.entries[j].term ==> x.log[i] == a.entries[j]
    {
      var j := x.lastIncludedIndex + i - a.prevLogIndex - 1;
      if 0 <= j < |a.entries| && x.log[i].term == a.entries[j].term { SameEntry(c, w, q, a, i, j); }
    }
  }

  /** A request's entries are the log of its term's leader; a peer's log is what it compacts. */
  lemma SentFrom(c: K.Cluster, w: World, q: nat, a: R.AppendArgs)
    requires Sim(c, w) && q < |c.servers| && K.AppReq(q, a) in c.net
    ensures Inv(w) && |c.servers| == |w.peers| && a.term in w.tlog
    ensures Compacts(c.servers[q].node.log, c.servers[q].node.lastIncludedIndex, w.peers[q].log)
    ensures a.prevLogIndex + 1 + |a.entries| <= |w.tlog[a.term]|
    ensures forall j :: 0 <= j < |a.entries| ==> a.entries[j] == w.tlog[a.term][a.prevLogIndex + 1 + j]
  {
    hide Inv, RsmSim, WaitSim, Tracked, Counted;
    assert ServerSim(c.servers[q], w, q) && MsgSim(w, K.AppReq(q, a));
  }

  lemma SameEntry(c: K.Cluster, w: World, q: nat, a: R.AppendArgs, i: nat, j: nat)
    requires Sim(c, w) && q < |c.servers| && K.AppReq(q, a) in c.net
    requires 0 < i < |c.servers[q].node.log| && j < |a.entries|
    requires c.servers[q].node.lastIncludedIndex + i == a.prevLogIndex + 1 + j
    requires c.servers[q].node.log[i].term == a.entries[j].term
    ensures c.servers[q].node.log[i] == a.entries[j]
  {
    var x := c.servers[q].node;
    SentFrom(c, w, q, a);
    hide Sim, Matches, Inv;
    LogsMatch(w, q, a.term);
    SameTermSame(w, w.peers[q].log, w.tlog[a.term]);
    CompactsAll(x.log, x.lastIncludedIndex, w.peers[q].log);
  }

  // ----- commitment -----

  /** Half of the cluster is known to hold index N, which is of the leader's own term. */
  ghost predicate HeldByHalf(a: R.Node, N: nat) {
    2 * |Sorting.Holders(a.matchIndex, N)| >= a.n && TermAt(a, N) == a.currentTerm
  }

  /** Terms ascend along the log and do not pass the peer's own. */
  lemma LogTerms(c: K.Cluster, w: World, p: nat, i: nat, j: nat)
    requires Sim(c, w) && p < |c.servers| && TermAt(c.servers[p].node, i) >= 0 && i <= j <= Last(c.servers[p].node)
    ensures TermAt(c.servers[p].node, i) <= TermAt(c.servers[p].node, j) <= c.servers[p].node.currentTerm
  {
    hide Inv, Matches, RsmSim, WaitSim, Tracked, Counted;
    var x, L := c.servers[p].node, w.peers[p].log;
    assert ServerSim(c.servers[p], w, p);
    LogsMatchPeer(w, p);
    PeerTerms(w, p);
    TermsAscend(w, L, i, j);
    CompactsAt(x.log, x.lastIncludedIndex, L, i);
    CompactsAt(x.log, x.lastIncludedIndex, L, j);
  }

  lemma PeerTerms(w: World, p: nat)
    requires Inv(w) && p < |w.peers|
    ensures Terms(w) && TermsBelow(w.peers[p].log, w.peers[p].term)
  {
  }

  lemma LeaderTracks(c: K.Cluster, w: World, p: nat)
    requires Sim(c, w) && p < |c.servers| && c.servers[p].node.role == Leader
    ensures var x := c.servers[p].node;
      && x.n == |c.servers| == |x.matchIndex| == |x.nextIndex| && x.n > 0 && |x.log| > 0
      && (forall q: nat :: q < x.n ==> x.matchIndex[q] <= Last(x))
      && (forall q: nat :: q < x.n ==> 0 < x.nextIndex[q] <= Last(x) + 1)
  {
    hide Inv, RsmSim, WaitSim, Counted;
    assert ServerSim(c.servers[p], w, p);
  }

  /** What the commit rule does for a leader whose records lie inside its log. */
  lemma AdvanceMeans(a: R.Node)
    requires R.Ok(a) && a.role == Leader && (forall q: nat :: q < a.n ==> a.matchIndex[q] <= Last(a))
    requires forall i: nat, j: nat :: TermAt(a, i) >= 0 && i <= j <= Last(a) ==>
      TermAt(a, i) <= TermAt(a, j) <= a.currentTerm
    requires a.lastIncludedIndex <= a.commitIndex
    ensures var a' := R.AdvanceCommitIndex(a);
      && a' == a.(commitIndex := a'.commitIndex) && a'.commitIndex >= a.commitIndex
      && (a'.commitIndex > a.commitIndex ==> HeldByHalf(a, a'.commitIndex))
      && (forall N: nat :: HeldByHalf(a, N) ==> N <= a'.commitIndex)
  {
    hide Sorting.Sort, Sorting.Holders;
    var mid := Sorting.Sort(a.matchIndex)[a.n / 2];
    Sorting.MiddleHeldByHalf(a.matchIndex);
    Sorting.MiddleAmong(a.matchIndex, a.n / 2);
    forall N: nat | HeldByHalf(a, N) ensures N <= R.AdvanceCommitIndex(a).commitIndex {
      Sorting.MiddleIsGreatest(a.matchIndex, N);
      assert N <= mid <= Last(a);
      assert TermAt(a, N) <= TermAt(a, mid) <= a.currentTerm;
    }
  }

  /** A leader that hears of a success then has committed exactly what it may: the greatest index of its own term that
      half of the cluster is known to hold, unless it had committed more. */
  lemma CommitsExactly(n: nat, c: K.Cluster, p: nat, m: K.Msg)
    requires Reachable(n, c) && K.Enabled(c, K.OnAppRep(p, m)) && m.ar.success && m.ar.term <= m.aa.term
    requires c.servers[p].node.role == Leader && c.servers[p].node.currentTerm == m.aa.term
    ensures p < |K.Step(c, K.OnAppRep(p, m)).servers|
    ensures var a, a' := c.servers[p].node, K.Step(c, K.OnAppRep(p, m)).servers[p].node;
      && a'.role == Leader && a'.log == a.log && a'.commitIndex >= a.commitIndex
      && (a'.commitIndex > a.commitIndex ==> HeldByHalf(a', a'.commitIndex))
      && (forall N: nat :: HeldByHalf(a', N) ==> N <= a'.commitIndex)
  {
    hide Reachable, Sim, R.AdvanceCommitIndex, TermAt, Sorting.Holders;
    var w := ReachSim(n, c);
    SimIndexable(c, w, K.OnAppRep(p, m));
    var c' := K.Step(c, K.OnAppRep(p, m));
    var w' := StepSim(c, w, K.OnAppRep(p, m));
    var a, a' := c.servers[p].node, c'.servers[p].node;
    var a1 := HeardSuccess(a, m.from, m.aa, m.ar);
    AdvanceKeeps(a1);
    LeaderTracks(c', w', p);
    forall i: nat, j: nat | TermAt(a1, i) >= 0 && i <= j <= Last(a1)
      ensures TermAt(a1, i) <= TermAt(a1, j) <= a1.currentTerm
    {
      SameTermAt(a, a1, i);
      SameTermAt(a, a1, j);
      LogTerms(c, w, p, i, j);
    }
    AdvanceMeans(a1);
    forall N: nat ensures HeldByHalf(a', N) <==> HeldByHalf(a1, N) { SameTermAt(a1, a', N); }
  }

  lemma SameTermAt(a: R.Node, b: R.Node, i: nat)
    requires a.log == b.log && a.lastIncludedIndex == b.lastIncludedIndex
    ensures TermAt(a, i) == TermAt(b, i)
  {
  }

  lemma AdvanceKeeps(a: R.Node)
    requires R.Ok(a)
    ensures var a' := R.AdvanceCommitIndex(a); a' == a.(commitIndex := a'.commitIndex)
  {
  }

  lemma HeardSuccess(a: R.Node, q: nat, aa: R.AppendArgs, r: R.AppendReply) returns (a1: R.Node)
    requires R.Ok(a) && q < a.n && a.role == Leader && a.currentTerm == aa.term && r.success && r.term <= aa.term
    ensures a1 == a.(matchIndex := a1.matchIndex, nextIndex := a1.nextIndex) && R.Ok(a1)
    ensures R.OnAppendReply(a, q, aa, r) == R.AdvanceCommitIndex(a1)
  {
    hide R.AdvanceCommitIndex;
    var m := aa.prevLogIndex + |aa.entries|;
    a1 := a.(matchIndex := a.matchIndex[q := Sorting.Max(a.matchIndex[q], m)],
             nextIndex := a.nextIndex[q := Sorting.Max(a.nextIndex[q], m + 1)]);
  }

  // ----- what leaders send -----

  /** A leader always has something to send a peer: its snapshot, or everything from nextIndex to the end of its log. */
  lemma LeaderSends(n: nat, c: K.Cluster, p: nat, q: nat) returns (m: K.Msg)
    requires Reachable(n, c) && K.Enabled(c, K.Send(p, q))
    ensures K.Step(c, K.Send(p, q)).net == c.net + {m}
    ensures var x := c.servers[p].node; |x.log| > 0 && q < |x.nextIndex| && var next := x.nextIndex[q];
      if next <= x.lastIncludedIndex then
        m == K.SnapReq(q, R.SnapArgs(x.currentTerm, p, x.lastIncludedIndex, x.lastIncludedTerm, x.snapshot))
      else
        && m.AppReq? && m.to == q && m.aa.term == x.currentTerm && m.aa.leader == p
        && m.aa.leaderCommit == x.commitIndex
        && m.aa.prevLogIndex == next - 1 && TermAt(x, next - 1) == m.aa.prevLogTerm
        && m.aa.prevLogIndex + |m.aa.entries| == Last(x)
        && next - x.lastIncludedIndex <= |x.log| && m.aa.entries == x.log[next - x.lastIncludedIndex..]
  {
    hide Reachable, Sim, R.Replicate;
    var w := ReachSim(n, c);
    SimIndexable(c, w, K.Send(p, q));
    LeaderTracks(c, w, p);
    var x := c.servers[p].node;
    NamedPeer(c, w, p);
    SendExactly(x, q);
    var out := R.Replicate(x, q);
    m := if out.SendSnap? then K.SnapReq(q, out.snap) else K.AppReq(q, out.append);
    assert out.SendAppend? ==> out.append.entries == x.log[x.nextIndex[q] - x.lastIncludedIndex..];
  }

  lemma NamedPeer(c: K.Cluster, w: World, p: nat)
    requires Sim(c, w) && p < |c.servers|
    ensures c.servers[p].node.me == p == c.servers[p].rsm.me
  {
    hide Inv, RsmSim, WaitSim;
    assert ServerSim(c.servers[p], w, p);
  }

  // ----- compaction -----

  /** Compacting at what the service has applied makes that the boundary: the last index and every entry above stay, the
      entry there keeps its term and loses its command, and memory and disk hold the state after everything up to it.
      When the log is already compacted that far nothing changes. */
  lemma CompactsExactly(n: nat, c: K.Cluster, p: nat, G: seq<Entry>)
    requires Reachable(n, c) && K.Enabled(c, K.Compact(p)) && Explains(G, c)
    ensures p < |K.Step(c, K.Compact(p)).servers|
    ensures var x, x', i := c.servers[p].node, K.Step(c, K.Compact(p)).servers[p].node, c.servers[p].rsm.lastApplied;
      if x.lastIncludedIndex < i <= x.lastApplied then
        && x'.lastIncludedIndex == i && Last(x') == Last(x) && SameAbove(x, x', i)
        && TermAt(x', i) == TermAt(x, i) == x'.lastIncludedTerm
        && |x'.log| > 0 && x'.log[0] == Entry(x'.lastIncludedTerm, NoCommand)
        && i < |G| && x'.snapshot == R.Snap.Snap(i, Kv.Ran(Lin.Reqs(G, i))) && OnDisk(x')
      else x' == x
  {
    hide Reachable, Sim, R.Snapshot, SameAbove, Lin.Reqs, Kv.Ran, HoldsPrefix, DeliveredFrom, AllProposed, OnDisk;
    var w := ReachSim(n, c);
    SimIndexable(c, w, K.Compact(p));
    var s := c.servers[p];
    CompactExactly(s.node, s.rsm.lastApplied, S.Encode(s.rsm));
    Lin.FoldRan(G, s.rsm.lastApplied);
  }

  // ----- the service -----

  /** Everyone but the Submits in `but` is as before. */
  ghost predicate OthersKept(r: S.Replica, r': S.Replica, but: set<nat>) {
    && r'.waiters.Keys == r.waiters.Keys && r'.me == r.me && r'.life == r.life && r'.nextId == r.nextId
    && forall id :: id in r.waiters && id !in but ==> r'.waiters[id] == r.waiters[id]
  }

  /** The Submit registered at index i, if any, that is still without a result. */
  ghost function WaitingAt(r: S.Replica, i: nat): set<nat> {
    if i in r.pending && r.pending[i] in r.waiters && r.waiters[r.pending[i]].ch == None then {r.pending[i]} else {}
  }

  /** A command the service has not applied is applied. The Submit registered at its index is told: the answer iff the
      command is from this peer and has its id; nobody else hears anything. */
  lemma ReadCommandExactly(r: S.Replica, i: nat, op: Op)
    ensures var r' := S.Read(r, R.CommandMsg(i, Run(op))); var (state, reply) := Kv.Apply(r.state, op.req);
      if i <= r.lastApplied then r' == r
      else
        && r'.lastApplied == i && r'.state == state && r'.pending == r.pending - {i}
        && OthersKept(r, r', WaitingAt(r, i))
        && forall id :: id in WaitingAt(r, i) ==>
             var own := id == op.id && op.me == r.me;
             r'.waiters[id] == r.waiters[id].(ch := Some(if own then S.Answer(reply) else S.WrongLeader))
  {
  }

  /** A snapshot further on replaces the state, and every Submit registered at or below the index reached is told that
      its entry was not seen here; nobody else hears anything. */
  lemma ReadSnapshotExactly(r: S.Replica, i: nat, t: nat, last: nat, state: Kv.Store)
    ensures var r' := S.Read(r, R.SnapshotMsg(i, t, R.Snap.Snap(last, state)));
      && r'.lastApplied == (if i > r.lastApplied then MaxOf(r.lastApplied, last) else r.lastApplied)
      && r'.state == (if i > r.lastApplied then state else r.state)
      && (forall j :: j in r'.pending <==> j in r.pending && j > r'.lastApplied)
      && (forall j :: j in r'.pending ==> r'.pending[j] == r.pending[j])
      && r'.waiters.Keys == r.waiters.Keys
      && (forall id :: id in r.waiters ==>
            var x := r.waiters[id];
            r'.waiters[id] == if x.index <= r'.lastApplied && id in WaitingAt(r, x.index)
                              then x.(ch := Some(S.WrongLeader)) else x)
  {
  }

  /** Submit hands out the next id; on a leader the operation goes behind its log and the Submit waits there. */
  lemma SubmitExactly(r: S.Replica, n: R.Node, req: Kv.Request)
    requires R.Ok(n)
    ensures var (r', n') := S.Submit(r, n, req); var op := Op(r.me, r.nextId + 1, r.life, req);
      && r'.nextId == r.nextId + 1
      && (n.role != Leader ==> n' == n && r' == r.(nextId := r'.nextId))
      && (n.role == Leader ==>
            && n'.log == n.log + [Entry(n.currentTerm, Run(op))]
            && r'.waiters == r.waiters[op.id := S.Waiter(Last(n) + 1, n.currentTerm, op, None, None)]
            && r'.pending == r.pending[Last(n) + 1 := op.id]
            && r'.lastApplied == r.lastApplied && r'.state == r.state)
  {
  }

  /** A Submit that gives up returns ErrWrongLeader and is no longer registered; nobody else notices. */
  lemma GiveUpExactly(r: S.Replica, id: nat)
    requires id in r.waiters
    ensures var r' := S.GiveUp(r, id); var i := r.waiters[id].index;
      && OthersKept(r, r', {id}) && r'.waiters[id] == r.waiters[id].(ret := Some(S.WrongLeader))
      && r'.lastApplied == r.lastApplied && r'.state == r.state
      && r'.pending == if i in r.pending && r.pending[i] == id then r.pending - {i} else r.pending
  {
  }

  // ----- nobody waits below what has been applied -----

  /** Every registration lies above what the service has applied. */
  ghost predicate Ahead(r: S.Replica) {
    forall i :: i in r.pending ==> i > r.lastApplied
  }

  ghost predicate AllAhead(c: K.Cluster) {
    forall p: nat :: p < |c.servers| ==> Ahead(c.servers[p].rsm)
  }

  /** The next message on the apply channel is for the next index, or a snapshot further on that stands for its own. */
  lemma NextMessage(c: K.Cluster, w: World, p: nat)
    requires Sim(c, w) && p < |c.servers| && c.servers[p].applyCh != []
    ensures var r := c.servers[p].rsm;
      match c.servers[p].applyCh[0]
      case CommandMsg(i, cmd) => i == r.lastApplied + 1
      case SnapshotMsg(i, _, data) => i > r.lastApplied && data.Snap? && data.lastApplied == i
  {
    hide Inv, NodeSim, WaitSim, Fold;
    assert ServerSim(c.servers[p], w, p);
  }

  lemma ReadAhead(r: S.Replica, msg: R.ApplyMsg)
    requires Ahead(r)
    requires match msg
      case CommandMsg(i, cmd) => i == r.lastApplied + 1
      case SnapshotMsg(i, _, data) => i > r.lastApplied && data.Snap? && data.lastApplied == i
    ensures Ahead(S.Read(r, msg))
  {
    match msg
    case CommandMsg(i, NoCommand) =>
    case CommandMsg(i, Run(op)) => ReadCommandExactly(r, i, op);
    case SnapshotMsg(i, t, data) => ReadSnapshotExactly(r, i, t, data.lastApplied, data.state);
  }

  /** The service has applied nothing beyond the log. */
  lemma AppliedInLog(c: K.Cluster, w: World, p: nat)
    requires Sim(c, w) && p < |c.servers|
    ensures |c.servers[p].node.log| > 0 && c.servers[p].rsm.lastApplied <= Last(c.servers[p].node)
  {
    hide Inv, WaitSim, Fold, Queue, Tracked, Counted;
    assert ServerSim(c.servers[p], w, p);
  }

  lemma SubmitAhead(r: S.Replica, n: R.Node, req: Kv.Request)
    requires R.Ok(n) && Ahead(r) && r.lastApplied <= Last(n)
    ensures Ahead(S.Submit(r, n, req).0)
  {
    SubmitExactly(r, n, req);
  }

  lemma ResumeAhead(r: S.Replica, id: nat)
    requires id in r.waiters && Ahead(r)
    ensures Ahead(S.Return(r, id)) && Ahead(S.GiveUp(r, id))
  {
  }

  lemma StepAhead(c: K.Cluster, w: World, a: K.Action)
    requires Sim(c, w) && AllAhead(c) && K.Enabled(c, a)
    ensures AllAhead(K.Step(c, a))
  {
    hide Sim, Ahead, R.StartElection, R.RequestVote, R.OnVoteReply, R.AppendEntries, R.OnAppendReply;
    hide R.InstallSnapshot, R.OnSnapReply, R.Deliver, R.Snapshot, R.Replicate, S.Read, S.Submit, S.GiveUp, S.Return;
    SimIndexable(c, w, a);
    var s := c.servers[a.p];
    AppliedInLog(c, w, a.p);
    match a
    case Read(p) =>
      NextMessage(c, w, p);
      ReadAhead(s.rsm, s.applyCh[0]);
    case Submit(p, req) => SubmitAhead(s.rsm, s.node, req);
    case SubmitReturns(p, id) => ResumeAhead(s.rsm, id);
    case SubmitGivesUp(p, id) => ResumeAhead(s.rsm, id);
    case Crash(p) => BootAhead(s.node.me, s.rsm.life + 1, s.node.disk.snapshot);
    case CrashInside(p, m) => BootAhead(s.node.me, s.rsm.life + 1, R.ToFollower(s.node, K.TermFor(m, p)).disk.snapshot);
    case _ =>
  }

  lemma BootAhead(me: nat, life: nat, data: R.Snap)
    ensures Ahead(S.Boot(me, life, data))
  {
  }

  lemma {:induction false} RunAhead(c: K.Cluster, w: World, acts: seq<K.Action>, c': K.Cluster)
    requires Sim(c, w) && AllAhead(c) && K.Reaches(c, acts, c')
    ensures AllAhead(c')
    decreases |acts|
  {
    hide Sim, AllAhead, K.Step, K.Enabled, Grows;
    if acts == [] {
    } else {
      var w1 := StepSim(c, w, acts[0]);
      StepAhead(c, w, acts[0]);
      RunAhead(K.Step(c, acts[0]), w1, acts[1..], c');
    }
  }

  /** No Submit is left waiting behind what its service has applied: it has been told, it has returned, or its term has
      passed and its own exit test is true. */
  lemma WaitersTold(n: nat, c: K.Cluster, p: nat, id: nat)
    requires Reachable(n, c) && p < |c.servers| && id in c.servers[p].rsm.waiters
    requires c.servers[p].rsm.waiters[id].index <= c.servers[p].rsm.lastApplied
    ensures var x := c.servers[p].rsm.waiters[id]; x.ch != None || x.ret != None || S.Lost(c.servers[p].node, x)
  {
    hide Sim, K.Step, K.Enabled, K.Reaches;
    WaitersServed(n, c, p, id);
    var acts :| K.Reaches(K.Init(n), acts, c);
    InitSim(n);
    assert AllAhead(K.Init(n));
    RunAhead(K.Init(n), Start(n), acts, c);
    assert Ahead(c.servers[p].rsm);
  }

  /** The next command on the apply channel is the one at its index of the agreed order. */
  lemma NextAgreed(c: K.Cluster, w: World, p: nat, G: seq<Entry>, i: nat, cmd: Command)
    requires Sim(c, w) && Covers(w, G) && p < |c.servers| && c.servers[p].applyCh != []
    requires c.servers[p].applyCh[0] == R.CommandMsg(i, cmd)
    ensures i < |G| && G[i].cmd == cmd
  {
    hide Inv, Covers, WaitSim, Fold, Tracked, Counted, LogSim;
    var s, L := c.servers[p], w.peers[p].log;
    assert ServerSim(s, w, p);
    CommitInside(w, p);
    QueuePrefix(L, L, s.applyCh[1..], i, s.node.lastApplied);
    CommitAgreed(w, p, i);
    AgreedInside(w, G, L, i);
  }

  /** Reading the next command applies the next operation of the agreed order. The Submit registered at its index is
      then answered iff the command is from this peer with its id, rightly after what came before; nobody else hears
      anything. */
  lemma ReadsExactly(n: nat, c: K.Cluster, p: nat, i: nat, op: Op) returns (G: seq<Entry>)
    requires Reachable(n, c) && K.Enabled(c, K.Read(p)) && c.servers[p].applyCh[0] == R.CommandMsg(i, Run(op))
    ensures Explains(G, c) && 0 < i < |G| && G[i].cmd == Run(op) && p < |K.Step(c, K.Read(p)).servers|
    ensures var r, r' := c.servers[p].rsm, K.Step(c, K.Read(p)).servers[p].rsm;
      && r'.lastApplied == i == r.lastApplied + 1 && r'.state == Kv.Ran(Lin.Reqs(G, i))
      && OthersKept(r, r', WaitingAt(r, i)) && i !in r'.pending
      && (forall id :: id in WaitingAt(r, i) ==>
            Told(r'.waiters[id], id == op.id && op.me == p, Lin.Reqs(G, i - 1), op.req))
  {
    hide Reachable, Sim, HoldsPrefix, AllProposed, DeliveredFrom, Covers;
    hide S.Read, Lin.Reqs, Kv.Ran, Kv.Apply, Kv.RightAnswer;
    var w := ReachSim(n, c);
    G := ExplainRun(c, w);
    SimIndexable(c, w, K.Read(p));
    NextMessage(c, w, p);
    NextAgreed(c, w, p, G, i, Run(op));
    NamedPeer(c, w, p);
    var r := c.servers[p].rsm;
    ReadCommandExactly(r, i, op);
    Lin.FoldRan(G, i - 1);
    Kv.AnswersRight(Lin.Reqs(G, i - 1), op.req);
    NextState(G, i, op);
  }

  /** The Submit has its result: the right answer if the command was taken for its own, else that it was not. */
  ghost predicate Told(x: S.Waiter, own: bool, reqs: seq<Kv.Request>, req: Kv.Request) {
    x.ch.Some? && if own then x.ch.value.Answer? && Kv.RightAnswer(reqs, req, x.ch.value.reply)
                  else x.ch.value == S.WrongLeader
  }

  lemma NextState(G: seq<Entry>, i: nat, op: Op)
    requires 0 < i < |G| && G[i].cmd == Run(op)
    ensures Kv.Ran(Lin.Reqs(G, i)) == Kv.Apply(Kv.Ran(Lin.Reqs(G, i - 1)), op.req).0
  {
    Kv.RanNext(Lin.Reqs(G, i - 1), op.req);
  }
}
