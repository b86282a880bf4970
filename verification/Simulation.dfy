/** How a cluster state stands for a Consensus world. */
module Simulation {
  import opened Options
  import opened RaftTypes
  import opened Consensus
  import Kv
  import R = RaftNode
  import K = Cluster

  // ----- logs and the states they fold to -----

  ghost function RunCmd(s: Kv.Store, cmd: Command): Kv.Store {
    match cmd
    case NoCommand => s
    case Run(op) => Kv.Apply(s, op.req).0
  }

  /** The state after the commands at indexes 1..i of L. */
  ghost function Fold(L: seq<Entry>, i: nat): Kv.Store
    requires i < |L|
  {
    if i == 0 then map[] else RunCmd(Fold(L, i - 1), L[i].cmd)
  }

  /** The snapshot that stands for the commands at indexes 1..i of L. */
  ghost function SnapAt(L: seq<Entry>, i: nat): R.Snap
    requires i < |L|
  {
    if i == 0 then R.NoSnap else R.Snap.Snap(i, Fold(L, i))
  }

  lemma {:induction false} FoldPrefix(L: seq<Entry>, M: seq<Entry>, i: nat)
    requires i < |L| && i < |M| && L[..i + 1] == M[..i + 1]
    ensures Fold(L, i) == Fold(M, i) && SnapAt(L, i) == SnapAt(M, i)
  {
    assert L[i] == L[..i + 1][i] == M[..i + 1][i] == M[i];
    if i == 0 {
    } else {
      assert L[..i] == L[..i + 1][..i] && M[..i] == M[..i + 1][..i];
      FoldPrefix(L, M, i - 1);
    }
  }

  /** log with boundary lii is the compacted form of the full log L. */
  ghost predicate Compacts(log: seq<Entry>, lii: nat, L: seq<Entry>) {
    && lii < |L| && |log| == |L| - lii
    && log[0] == Entry(L[lii].term, NoCommand)
    && log[1..] == L[lii + 1..]
  }

  lemma CompactsAt(log: seq<Entry>, lii: nat, L: seq<Entry>, i: nat)
    requires Compacts(log, lii, L) && lii <= i < |L|
    ensures log[i - lii].term == L[i].term
    ensures i > lii ==> log[i - lii] == L[i]
  {
    if i > lii {
      assert log[i - lii] == log[1..][i - lii - 1] == L[lii + 1..][i - lii - 1];
    }
  }

  // ----- one server -----

  ghost predicate Bounds(n: R.Node) {
    && n.lastIncludedIndex <= n.commitIndex && n.lastApplied <= n.commitIndex
    && match n.pending
      case NoPending => n.lastIncludedIndex <= n.lastApplied
      case Pending(index, term, data) =>
        && index == n.lastIncludedIndex && index > n.lastApplied
        && term == n.lastIncludedTerm && data == n.snapshot
  }

  /** The vote counter is the number of peers that granted this election, plus this one. */
  ghost predicate Counted(n: R.Node, w: World) {
    && n.votes == |n.granted| + 1
    && n.granted <= n.heard <= n.asked
    && (forall q :: q in n.asked ==> q < n.n && q != n.me)
    && (forall q :: q in n.granted ==> (q, n.me, n.currentTerm) in w.votes)
    && (n.me, n.me, n.currentTerm) in w.votes
  }

  /** A leader's matchIndex claims only what the peer accepted. */
  ghost predicate Tracked(n: R.Node, w: World)
    requires |n.log| > 0
  {
    && |n.matchIndex| == n.n && |n.nextIndex| == n.n
    && (forall q: nat :: q < n.n ==>
          && n.matchIndex[q] <= R.LastIndex(n)
          && (n.matchIndex[q] > 0 ==> Acked(w, q, n.currentTerm, n.matchIndex[q])))
    && (forall q: nat :: q < n.n ==> 0 < n.nextIndex[q] <= R.LastIndex(n) + 1)
  }

  ghost predicate LogSim(n: R.Node, P: Peer) {
    && Compacts(n.log, n.lastIncludedIndex, P.log)
    && n.lastIncludedTerm == P.log[n.lastIncludedIndex].term
    && n.snapshot == SnapAt(P.log, n.lastIncludedIndex)
  }

  ghost predicate NodeSim(n: R.Node, w: World, p: nat) {
    && p < |w.peers|
    && var P := w.peers[p];
      && n.me == p && n.n == |w.peers| && |n.nextIndex| == n.n && |n.matchIndex| == n.n
      && P.term == n.currentTerm && P.voted == n.votedFor && P.role == n.role && P.commit == n.commitIndex
      && LogSim(n, P) && Bounds(n) && R.Synced(n)
      && (n.role == Candidate ==> Counted(n, w))
      && (n.role == Leader ==> Tracked(n, w))
  }

  /** The apply channel holds exactly what takes the service from index `from` to index `to`. */
  ghost predicate Queue(L: seq<Entry>, q: seq<R.ApplyMsg>, from: nat, to: nat)
    decreases |q|
  {
    if q == [] then from == to
    else match q[0]
      case CommandMsg(i, cmd) => i == from + 1 && i < |L| && L[i].cmd == cmd && Queue(L, q[1..], i, to)
      case SnapshotMsg(i, _, data) => i > from && i < |L| && data == SnapAt(L, i) && Queue(L, q[1..], i, to)
  }

  /** The service state is the fold of the log, and the channel continues it. */
  ghost predicate RsmSim(s: K.Server, L: seq<Entry>) {
    && s.rsm.lastApplied < |L|
    && s.rsm.state == Fold(L, s.rsm.lastApplied)
    && Queue(L, s.applyCh, s.rsm.lastApplied, s.node.lastApplied)
  }

  /** Index i of the log G is committed. */
  ghost predicate Agreed(w: World, G: seq<Entry>, i: nat) {
    && i < |G| && G[0] == ZERO
    && (i == 0 || exists t: nat, j: nat :: (t, j) in w.chosen && i <= j && Has(w, G, t, i))
  }

  /** reply is what op answers at index i of the agreed log. */
  ghost predicate AnswerAt(w: World, i: nat, op: Op, reply: Kv.Reply) {
    && i > 0
    && exists G: seq<Entry> :: Agreed(w, G, i) && G[i].cmd == Run(op) && reply == Kv.Apply(Fold(G, i - 1), op.req).1
  }

  ghost predicate WaiterOk(s: K.Server, w: World, id: nat)
    requires id in s.rsm.waiters && |s.node.log| > 0
  {
    var r, n, x := s.rsm, s.node, s.rsm.waiters[id];
    && id <= r.nextId && x.op.me == r.me && x.op.id == id && x.op.life == r.life
    && x.term <= n.currentTerm
    && (x.term == n.currentTerm ==> n.role != Candidate && (n.role == Leader ==> x.index <= R.LastIndex(n)))
    && (x.ch == None && x.ret == None ==>
          (x.index in r.pending && r.pending[x.index] == id) || x.term < n.currentTerm)
    && (x.ch.Some? && x.ch.value.Answer? ==>
          exists op :: AnswerAt(w, x.index, op, x.ch.value.reply) && op.me == r.me && op.id == id)
  }

  ghost predicate WaitSim(s: K.Server, w: World) {
    && |s.node.log| > 0
    && (forall id :: id in s.rsm.waiters ==> WaiterOk(s, w, id))
    && (forall i :: i in s.rsm.pending ==>
          && s.rsm.pending[i] in s.rsm.waiters && s.rsm.waiters[s.rsm.pending[i]].index == i
          && s.rsm.waiters[s.rsm.pending[i]].ch == None)
  }

  ghost predicate ServerSim(s: K.Server, w: World, p: nat) {
    && NodeSim(s.node, w, p) && s.rsm.me == p
    && RsmSim(s, w.peers[p].log) && WaitSim(s, w)
  }

  // ----- messages, events and operations -----

  ghost predicate VoteOk(w: World, a: R.VoteArgs) {
    && (a.term, a.candidate) in w.bid
    && var B := w.bid[(a.term, a.candidate)];
      |B| > 0 && a.lastLogIndex == |B| - 1 && a.lastLogTerm == B[|B| - 1].term
  }

  /** Every AppendEntries ever sent ships the leader's log up to or past its commit index. */
  ghost predicate AppendOk(w: World, a: R.AppendArgs) {
    && a.term in w.lead && a.term in w.tlog
    && var T := w.tlog[a.term]; var k := a.prevLogIndex + 1 + |a.entries|;
      && k <= |T| && T[a.prevLogIndex].term == a.prevLogTerm && a.entries == T[a.prevLogIndex + 1..k]
      && a.leaderCommit < k && CommitOk(w, T, a.leaderCommit, a.term)
  }

  ghost predicate SnapOk(w: World, a: R.SnapArgs) {
    && a.term in w.lead && a.term in w.tlog
    && var T := w.tlog[a.term]; var i := a.lastIncludedIndex;
      && 0 < i < |T| && T[i].term == a.lastIncludedTerm && a.data == SnapAt(T, i)
      && CommitOk(w, T, i, a.term)
  }

  ghost predicate MsgSim(w: World, m: K.Msg) {
    match m
    case VoteReq(_, a) => VoteOk(w, a)
    case VoteRep(from, a, r) =>
      from < |w.peers| && VoteOk(w, a) && (r.granted ==> (from, a.candidate, a.term) in w.votes)
    case AppReq(_, a) => AppendOk(w, a)
    case AppRep(from, a, r) =>
      from < |w.peers| && AppendOk(w, a)
      && (r.success ==> Acked(w, from, a.term, a.prevLogIndex + |a.entries|))
    case SnapReq(_, a) => SnapOk(w, a)
    case SnapRep(from, a, t) =>
      from < |w.peers| && SnapOk(w, a) && (t <= a.term ==> Acked(w, from, a.term, a.lastIncludedIndex))
  }

  /** op passes for the operation own of Submit id of this lifetime of p: it may be an earlier lifetime's. */
  ghost predicate AnswersTo(op: Op, p: nat, life: nat, id: nat, own: Op) {
    op.me == p && op.id == id && op.life <= life && (op.life == life ==> op == own)
  }

  ghost predicate EventSim(w: World, e: K.Event) {
    match e
    case Crowned(t, p) => t in w.lead && w.lead[t] == p
    case Delivered(_, CommandMsg(i, cmd)) => i > 0 && exists G: seq<Entry> :: Agreed(w, G, i) && G[i].cmd == cmd
    case Delivered(_, SnapshotMsg(i, t, d)) =>
      i > 0 && exists G: seq<Entry> :: Agreed(w, G, i) && SnapAt(G, i) == d && G[i].term == t
    case Answered(p, life, id, own, i, reply) =>
      && own.life == life
      && exists op :: AnswerAt(w, i, op, reply) && AnswersTo(op, p, life, id, own)
    case Proposed(_, _, _) => true
  }

  /** The entry at index i of some log is an operation its server proposed there, in the entry's term; one of this
      lifetime is its waiter's. */
  ghost predicate OpOk(servers: seq<K.Server>, trace: seq<K.Event>, i: nat, e: Entry) {
    && e.cmd.Run? && K.Proposed(e.cmd.op, i, e.term) in trace && e.cmd.op.me < |servers|
    && var r := servers[e.cmd.op.me].rsm;
      && e.cmd.op.life <= r.life
      && (e.cmd.op.life == r.life ==> e.cmd.op.id in r.waiters && r.waiters[e.cmd.op.id].op == e.cmd.op)
  }

  ghost predicate OpsSim(servers: seq<K.Server>, trace: seq<K.Event>, w: World) {
    forall t, i: nat :: t in w.tlog && 0 < i < |w.tlog[t]| ==> OpOk(servers, trace, i, w.tlog[t][i])
  }

  ghost predicate Sim(c: K.Cluster, w: World) {
    && !c.panicked && Inv(w) && |c.servers| == |w.peers|
    && (forall p: nat :: p < |c.servers| ==> ServerSim(c.servers[p], w, p))
    && (forall m :: m in c.net ==> MsgSim(w, m))
    && (forall e :: e in c.trace ==> EventSim(w, e))
    && OpsSim(c.servers, c.trace, w)
  }

  // ----- growth of history keeps all of this -----

  lemma AgreedGrows(w: World, w': World, G: seq<Entry>, i: nat)
    requires Grows(w, w') && Agreed(w, G, i)
    ensures Agreed(w', G, i)
  {
    if i > 0 {
      var t: nat, j: nat :| (t, j) in w.chosen && i <= j && Has(w, G, t, i);
      HasGrows(w, w', G, t, i);
    }
  }

  lemma AnswerGrows(w: World, w': World, i: nat, op: Op, reply: Kv.Reply)
    requires Grows(w, w') && AnswerAt(w, i, op, reply)
    ensures AnswerAt(w', i, op, reply)
  {
    var G: seq<Entry> :| Agreed(w, G, i) && G[i].cmd == Run(op) && reply == Kv.Apply(Fold(G, i - 1), op.req).1;
    AgreedGrows(w, w', G, i);
  }

  lemma MsgGrows(w: World, w': World, m: K.Msg)
    requires Grows(w, w') && MsgSim(w, m)
    ensures MsgSim(w', m)
  {
    match m
    case VoteReq(_, a) =>
    case VoteRep(_, a, _) =>
    case AppReq(_, a) => AppendGrows(w, w', a);
    case AppRep(_, a, _) => AppendGrows(w, w', a);
    case SnapReq(_, a) => SnapGrows(w, w', a);
    case SnapRep(_, a, _) => SnapGrows(w, w', a);
  }

  lemma AppendGrows(w: World, w': World, a: R.AppendArgs)
    requires Grows(w, w') && AppendOk(w, a)
    ensures AppendOk(w', a)
  {
    var T, T' := w.tlog[a.term], w'.tlog[a.term];
    assert T <= T';
    assert T'[..a.leaderCommit + 1] == T[..a.leaderCommit + 1];
    CommitOkGrows(w, w', T, T', a.leaderCommit, a.term, a.term);
  }

  lemma SnapGrows(w: World, w': World, a: R.SnapArgs)
    requires Grows(w, w') && SnapOk(w, a)
    ensures SnapOk(w', a)
  {
    var T, T', i := w.tlog[a.term], w'.tlog[a.term], a.lastIncludedIndex;
    assert T <= T';
    assert T'[..i + 1] == T[..i + 1];
    CommitOkGrows(w, w', T, T', i, a.term, a.term);
    FoldPrefix(T, T', i);
  }

  lemma EventGrows(w: World, w': World, e: K.Event)
    requires Grows(w, w') && EventSim(w, e)
    ensures EventSim(w', e)
  {
    match e
    case Crowned(t, p) =>
    case Delivered(_, CommandMsg(i, cmd)) =>
      var G: seq<Entry> :| Agreed(w, G, i) && G[i].cmd == cmd;
      AgreedGrows(w, w', G, i);
    case Delivered(_, SnapshotMsg(i, t, d)) =>
      var G: seq<Entry> :| Agreed(w, G, i) && SnapAt(G, i) == d && G[i].term == t;
      AgreedGrows(w, w', G, i);
    case Answered(p, life, id, own, i, reply) =>
      var op :| AnswerAt(w, i, op, reply) && AnswersTo(op, p, life, id, own);
      AnswerGrows(w, w', i, op, reply);
    case Proposed(_, _, _) =>
  }

  lemma WaitGrows(s: K.Server, w: World, w': World)
    requires Grows(w, w') && WaitSim(s, w)
    ensures WaitSim(s, w')
  {
    forall id | id in s.rsm.waiters
      ensures WaiterOk(s, w', id)
    {
      var x := s.rsm.waiters[id];
      assert WaiterOk(s, w, id);
      if x.ch.Some? && x.ch.value.Answer? {
        var op :| AnswerAt(w, x.index, op, x.ch.value.reply) && op.me == s.rsm.me && op.id == id;
        AnswerGrows(w, w', x.index, op, x.ch.value.reply);
      }
    }
  }

  lemma ServerGrows(s: K.Server, w: World, w': World, p: nat)
    requires Grows(w, w') && ServerSim(s, w, p) && w'.peers[p] == w.peers[p]
    ensures ServerSim(s, w', p)
  {
    WaitGrows(s, w, w');
  }

  lemma {:induction false} QueuePrefix(L: seq<Entry>, M: seq<Entry>, q: seq<R.ApplyMsg>, from: nat, to: nat)
    requires Queue(L, q, from, to) && to < |L| && to < |M| && L[..to + 1] == M[..to + 1]
    ensures Queue(M, q, from, to) && from <= to
    decreases |q|
  {
    if q == [] {
    } else {
      var i := q[0].index;
      QueuePrefix(L, M, q[1..], i, to);
      assert L[..i + 1] == L[..to + 1][..i + 1] && M[..i + 1] == M[..to + 1][..i + 1];
      assert L[i] == L[..i + 1][i] && M[i] == M[..i + 1][i];
      FoldPrefix(L, M, i);
    }
  }
}
