/** A fresh leader can bring every peer to its log, commit, apply and answer: from every reachable cluster of two or
    more peers every request can still be answered. */
module Progress {
  import opened Options
  import opened RaftTypes
  import opened Consensus
  import opened Simulation
  import opened SimulationNode
  import opened SimulationRsm
  import opened RaftSafety
  import opened RaftExact
  import opened ClusterExact
  import opened RaftBackup
  import opened Electable
  import opened Drive
  import Kv
  import Lin = Linearizability
  import P = Proposals
  import R = RaftNode
  import S = Rsm
  import K = Cluster
  import Sorting

  // ----- the leader's view of a peer -----

  /** What leader a tries next for x is not below x's boundary, or is its snapshot and reaches past that. */
  ghost predicate OnTrack(a: R.Node, x: R.Node, q: nat)
    requires q < |a.nextIndex|
  {
    var next := a.nextIndex[q];
    || (a.lastIncludedIndex < next <= Last(a) + 1 && x.lastIncludedIndex < next)
    || (next <= a.lastIncludedIndex && x.lastIncludedIndex < a.lastIncludedIndex)
  }

  /** The leader has the peer's boundary entry, as far as it has not compacted it. */
  ghost predicate HasBoundary(a: R.Node, x: R.Node) {
    && x.lastIncludedIndex <= Last(a)
    && (a.lastIncludedIndex <= x.lastIncludedIndex ==> TermAt(a, x.lastIncludedIndex) == TermAt(x, x.lastIncludedIndex))
  }

  lemma BoundaryHeld(n: nat, c: K.Cluster, p: nat, q: nat)
    requires Reachable(n, c) && p < |c.servers| && q < |c.servers| && c.servers[p].node.role == Leader
    requires c.servers[q].node.currentTerm <= c.servers[p].node.currentTerm
    ensures HasBoundary(c.servers[p].node, c.servers[q].node)
  {
    hide Reachable, Inv, Sim;
    var w := ReachSim(n, c);
    SimSeen(c, w);
    GrowsReflexive(w);
    CommittedInLeader(w, w, q, p);
    SimBounds(c, w, q);
    hide Compacts;
    var a, x, L, M := c.servers[p].node, c.servers[q].node, w.peers[p].log, w.peers[q].log;
    var i, d := x.lastIncludedIndex, x.commitIndex;
    assert L[i] == L[..d + 1][i] == M[..d + 1][i] == M[i];
    CompactsLength(a.log, a.lastIncludedIndex, L);
    CompactsLength(x.log, i, M);
    CompactsAt(x.log, i, M, i);
    if a.lastIncludedIndex <= i { CompactsAt(a.log, a.lastIncludedIndex, L, i); }
  }

  lemma SimBounds(c: K.Cluster, w: World, q: nat)
    requires Sim(c, w) && q < |c.servers|
    ensures c.servers[q].node.lastIncludedIndex <= c.servers[q].node.commitIndex
  {
    hide Inv, RsmSim, WaitSim, Tracked, Counted, LogSim;
    assert ServerSim(c.servers[q], w, q);
  }

  /** Terms do not fall along the log of a peer. */
  lemma TermsRise(x: R.Node, i: nat, j: nat)
    requires AscendingTerms(x.log)
    ensures x.lastIncludedIndex <= i <= j <= Last(x) ==> TermAt(x, i) <= TermAt(x, j)
  {
  }

  /** What x answers when it refuses to take what a tries next, and where that sends a. */
  lemma FallsOnTrack(a: R.Node, x: R.Node, q: nat, args: R.AppendArgs, r: R.AppendReply)
    requires R.Ok(a) && |x.log| > 0 && q < a.n && a.role == Leader && HasBoundary(a, x)
    requires AscendingTerms(a.log) && AscendingTerms(x.log)
    requires a.lastIncludedIndex < a.nextIndex[q] <= Last(a) + 1 && x.lastIncludedIndex < a.nextIndex[q]
    requires args.term == a.currentTerm >= x.currentTerm && args.prevLogIndex == a.nextIndex[q] - 1
    requires TermAt(a, args.prevLogIndex) == args.prevLogTerm
    requires r == R.AppendEntries(x, args).1 && !r.success
    ensures var a' := R.OnAppendReply(a, q, args, r);
      && a' == a.(nextIndex := a'.nextIndex) && |a'.nextIndex| == a.n && OnTrack(a', x, q)
      && a'.nextIndex[q] < a.nextIndex[q]
      && (forall u: nat :: u < a.n && u != q ==> a'.nextIndex[u] == a.nextIndex[u])
  {
    hide R.AppendEntries, R.OnAppendReply, AscendingTerms, TermAt;
    AppendExactly(x, args);
    RefuseExactly(x, args);
    AppendReplyExactly(a, q, args, r);
    Falls(a, q, args, r);
    var next, prev := a.nextIndex[q], args.prevLogIndex;
    TermInside(a, prev);
    TermInside(x, x.lastIncludedIndex);
    if prev <= Last(x) {
      TermInside(x, prev);
      ConflictHint(a, x, prev, r);
    }
  }

  lemma TermInside(x: R.Node, i: nat)
    ensures TermAt(x, i) >= 0 <==> x.lastIncludedIndex <= i <= Last(x)
  {
  }

  /** The hint a conflict gives is above the peer's boundary, or below the leader's. */
  lemma ConflictHint(a: R.Node, x: R.Node, prev: nat, r: R.AppendReply)
    requires R.Ok(a) && |x.log| > 0 && HasBoundary(a, x) && AscendingTerms(a.log) && AscendingTerms(x.log)
    requires a.lastIncludedIndex <= prev <= Last(a) && x.lastIncludedIndex <= prev <= Last(x)
    requires TermAt(a, prev) != TermAt(x, prev) && r.xTerm == TermAt(x, prev) && x.lastIncludedIndex <= r.xIndex <= prev
    requires forall i: nat :: r.xIndex <= i <= prev ==> TermAt(x, i) == TermAt(x, prev)
    ensures prev > x.lastIncludedIndex
    ensures Hint(a, r) > x.lastIncludedIndex ||
            (Hint(a, r) <= a.lastIncludedIndex && x.lastIncludedIndex < a.lastIncludedIndex)
  {
    hide TermAt, AscendingTerms;
    var i := R.LastOfTerm(a.log, r.xTerm, |a.log| - 1);
    var lii := x.lastIncludedIndex;
    TermsRise(x, lii, prev);
    TermsRise(a, a.lastIncludedIndex + i, lii);
    TermIs(a, a.lastIncludedIndex + i);
    TermIs(a, lii);
  }

  lemma TermIs(x: R.Node, i: nat)
    ensures x.lastIncludedIndex <= i <= Last(x) ==> TermAt(x, i) == x.log[i - x.lastIncludedIndex].term
  {
  }

  // ----- exchanges -----

  /** A leader keeps everything but its records, which only rise, and its commit index; of nextIndex only q's
      changes. */
  ghost predicate LeaderKept(a: R.Node, a': R.Node, q: nat) {
    && a' == a.(nextIndex := a'.nextIndex, matchIndex := a'.matchIndex, commitIndex := a'.commitIndex)
    && |a'.nextIndex| == |a.nextIndex| && |a'.matchIndex| == |a.matchIndex| && a.commitIndex <= a'.commitIndex
    && (forall u: nat :: u < |a.matchIndex| ==> a.matchIndex[u] <= a'.matchIndex[u])
    && (forall u: nat :: u < |a.nextIndex| && u != q ==> a'.nextIndex[u] == a.nextIndex[u])
  }

  /** Leader p and peer q have exchanged messages; nobody else was involved. */
  ghost predicate Exchanged(c: K.Cluster, c': K.Cluster, p: nat, q: nat) {
    && |c'.servers| == |c.servers| && p < |c.servers| && q < |c.servers| && p != q
    && (forall u: nat :: u < |c.servers| && u != p && u != q ==> c'.servers[u] == c.servers[u])
    && c'.servers[q] == c.servers[q].(node := c'.servers[q].node)
    && c'.servers[p] == c.servers[p].(node := c'.servers[p].node)
    && LeaderKept(c.servers[p].node, c'.servers[p].node, q)
    && c'.servers[q].node.currentTerm <= c'.servers[p].node.currentTerm
  }

  lemma ExchangedSince(c: K.Cluster, c1: K.Cluster, c2: K.Cluster, p: nat, q: nat)
    requires Exchanged(c, c1, p, q) && Exchanged(c1, c2, p, q)
    ensures Exchanged(c, c2, p, q)
  {
  }

  /** Leader p with q a peer that has not passed its term. */
  ghost predicate Leading(c: K.Cluster, n: nat, p: nat, q: nat) {
    && p < n && q < n && p != q && |c.servers| == n
    && c.servers[p].node.role == Leader && c.servers[q].node.currentTerm <= c.servers[p].node.currentTerm
    && |c.servers[p].node.nextIndex| == n && |c.servers[p].node.matchIndex| == n
  }

  /** Everything the leader may commit is committed. */
  ghost predicate Committed(a: R.Node) {
    forall N: nat :: HeldByHalf(a, N) ==> N <= a.commitIndex
  }

  lemma StepAppRep(c: K.Cluster, p: nat, m: K.Msg)
    requires K.Enabled(c, K.OnAppRep(p, m)) && K.Indexable(c, K.OnAppRep(p, m))
    ensures p < |K.Step(c, K.OnAppRep(p, m)).servers|
    ensures K.Step(c, K.OnAppRep(p, m)).servers[p].node == R.OnAppendReply(c.servers[p].node, m.from, m.aa, m.ar)
  {
    hide R.OnAppendReply;
  }

  lemma SuccessKept(a: R.Node, q: nat, aa: R.AppendArgs, r: R.AppendReply)
    requires R.Ok(a) && q < a.n && a.role == Leader && r.success && r.term <= aa.term == a.currentTerm
    requires a.commitIndex <= R.OnAppendReply(a, q, aa, r).commitIndex
    ensures var a' := R.OnAppendReply(a, q, aa, r);
      && LeaderKept(a, a', q) && a'.currentTerm == a.currentTerm
      && |a'.matchIndex| == a.n && a'.matchIndex[q] >= aa.prevLogIndex + |aa.entries|
  {
    hide R.OnAppendReply;
    AppendReplyExactly(a, q, aa, r);
  }

  /** After a success the whole log is recorded and what may be committed is. */
  lemma HearsSuccess(n: nat, b: K.Cluster, c: K.Cluster, p: nat, q: nat, aa: R.AppendArgs, r: R.AppendReply)
    returns (c': K.Cluster)
    requires Live(n, b, c) && Leading(c, n, p, q) && K.AppRep(q, aa, r) in c.net && aa.leader == p && r.success
    requires r.term <= aa.term == c.servers[p].node.currentTerm
    requires aa.prevLogIndex + |aa.entries| == Last(c.servers[p].node)
    ensures Live(n, b, c') && Exchanged(c, c', p, q) && c'.servers[q] == c.servers[q]
    ensures c'.servers[p].node.matchIndex[q] >= Last(c.servers[p].node) && Committed(c'.servers[p].node)
  {
    hide Live, R.OnAppendReply, HeldByHalf, LeaderKept, R.Ok;
    PeerOk(n, b, c, p);
    Apart(n, b, c);
    LiveReachable(n, b, c);
    var m := K.AppRep(q, aa, r);
    c' := Hears(b, c, p, q, aa, r);
    Together(n, b, c, c');
    CommitsExactly(n, c, p, m);
    StepAppRep(c, p, m);
    SuccessKept(c.servers[p].node, q, aa, r);
  }

  /** The leader sends everything from nextIndex on. The peer takes it, or the leader knows better what to try next. */
  lemma Tries(n: nat, b: K.Cluster, c: K.Cluster, p: nat, q: nat) returns (c': K.Cluster, done: bool)
    requires Live(n, b, c) && Leading(c, n, p, q)
    requires var a, x := c.servers[p].node, c.servers[q].node;
      a.lastIncludedIndex < a.nextIndex[q] <= Last(a) + 1 && x.lastIncludedIndex < a.nextIndex[q]
    ensures Live(n, b, c') && Exchanged(c, c', p, q)
    ensures var a, a', x' := c.servers[p].node, c'.servers[p].node, c'.servers[q].node;
      if done then a'.matchIndex[q] >= Last(a) && Committed(a')
      else OnTrack(a', x', q) && a'.nextIndex[q] < a.nextIndex[q]
    ensures var a, x := c.servers[p].node, c.servers[q].node;
      TermAt(x, a.nextIndex[q] - 1) == TermAt(a, a.nextIndex[q] - 1) ==> done
  {
    hide Live, R.OnAppendReply, R.AppendEntries, R.Replicate, HeldByHalf, TermAt, R.Ok, LeaderKept;
    PeerOk(n, b, c, p);
    PeerOk(n, b, c, q);
    Apart(n, b, c);
    var a, x := c.servers[p].node, c.servers[q].node;
    OkLog(a);
    OkLog(x);
    SendExactly(a, q);
    var aa := R.Replicate(a, q).append;
    var c1 := Sends(b, c, p, q, aa);
    Together(n, b, c, c1);
    var r := R.AppendEntries(x, aa).1;
    AppendExactly(x, aa);
    TermInside(a, a.nextIndex[q] - 1);
    done := r.success;
    if done {
      c' := HearsSuccess(n, b, c1, p, q, aa, r);
    } else {
      LiveReachable(n, b, c);
      BoundaryHeld(n, c, p, q);
      NodeAscends(n, c, p);
      NodeAscends(n, c, q);
      FallsOnTrack(a, x, q, aa, r);
      c' := Hears(b, c1, p, q, aa, r);
      Together(n, b, c1, c');
      NextKept(a, c'.servers[p].node, q);
    }
  }

  lemma OkLog(x: R.Node)
    requires R.Ok(x)
    ensures |x.log| > 0 && |x.nextIndex| == |x.matchIndex| == x.n
  {
  }

  lemma NextKept(a: R.Node, a': R.Node, q: nat)
    requires a' == a.(nextIndex := a'.nextIndex) && |a'.nextIndex| == |a.nextIndex|
    requires forall u: nat :: u < |a.nextIndex| && u != q ==> a'.nextIndex[u] == a.nextIndex[u]
    ensures LeaderKept(a, a', q)
  {
  }

  /** The leader sends its snapshot, the peer installs it and answers. */
  lemma ShipsSnapshot(n: nat, b: K.Cluster, c: K.Cluster, p: nat, q: nat) returns (c': K.Cluster)
    requires Live(n, b, c) && Leading(c, n, p, q)
    requires var a, x := c.servers[p].node, c.servers[q].node;
      0 < a.nextIndex[q] <= a.lastIncludedIndex && x.lastIncludedIndex < a.lastIncludedIndex
    ensures Live(n, b, c') && Exchanged(c, c', p, q)
    ensures var a', x' := c'.servers[p].node, c'.servers[q].node;
      && a'.nextIndex[q] == a'.lastIncludedIndex + 1 && x'.lastIncludedIndex == a'.lastIncludedIndex
      && TermAt(x', x'.lastIncludedIndex) == a'.lastIncludedTerm
  {
    hide Live, R.InstallSnapshot, R.OnSnapReply, R.Replicate, LeaderKept;
    PeerOk(n, b, c, p);
    PeerOk(n, b, c, q);
    Apart(n, b, c);
    Drive.Running(b, c);
    var a, x := c.servers[p].node, c.servers[q].node;
    SendExactly(a, q);
    var sa := R.SnapArgs(a.currentTerm, a.me, a.lastIncludedIndex, a.lastIncludedTerm, a.snapshot);
    InstallExactly(x, sa);
    Go(b, c, K.Send(p, q));
    var c1 := K.Step(c, K.Send(p, q));
    Go(b, c1, K.OnSnapReq(q, K.SnapReq(q, sa)));
    var c2 := K.Step(c1, K.OnSnapReq(q, K.SnapReq(q, sa)));
    var rep := K.SnapRep(q, sa, a.currentTerm);
    SnapReplyExactly(a, q, sa, a.currentTerm);
    Go(b, c2, K.OnSnapRep(p, rep));
    c' := K.Step(c2, K.OnSnapRep(p, rep));
    Together(n, b, c, c');
    RecordedKept(a, c'.servers[p].node, q, a.lastIncludedIndex);
  }

  lemma RecordedKept(a: R.Node, a': R.Node, q: nat, m: nat)
    requires q < |a.matchIndex| && q < |a.nextIndex| && Recorded(a, a', q, m)
    requires a' == a.(matchIndex := a'.matchIndex, nextIndex := a'.nextIndex)
    ensures LeaderKept(a, a', q)
  {
  }

  lemma BoundaryTerm(n: nat, c: K.Cluster, p: nat)
    requires Reachable(n, c) && p < |c.servers|
    ensures TermAt(c.servers[p].node, c.servers[p].node.lastIncludedIndex) == c.servers[p].node.lastIncludedTerm
  {
    hide Reachable, Inv, RsmSim, WaitSim, Tracked, Counted;
    var w := ReachSim(n, c);
    assert ServerSim(c.servers[p], w, p);
  }

  lemma Tracks(n: nat, b: K.Cluster, c: K.Cluster, p: nat, q: nat)
    requires Live(n, b, c) && Leading(c, n, p, q)
    ensures Reachable(n, c) && var a := c.servers[p].node;
      0 < a.nextIndex[q] <= Last(a) + 1 && a.lastIncludedIndex <= Last(a)
  {
    hide Live, Reachable, Sim;
    LiveReachable(n, b, c);
    var w := ReachSim(n, c);
    LeaderTracks(c, w, p);
  }

  lemma SyncsBySnapshot(n: nat, b: K.Cluster, c: K.Cluster, p: nat, q: nat) returns (c': K.Cluster)
    requires Live(n, b, c) && Leading(c, n, p, q)
    requires var a, x := c.servers[p].node, c.servers[q].node;
      0 < a.nextIndex[q] <= a.lastIncludedIndex && x.lastIncludedIndex < a.lastIncludedIndex
    ensures Live(n, b, c') && Exchanged(c, c', p, q)
    ensures c'.servers[p].node.matchIndex[q] >= Last(c.servers[p].node) && Committed(c'.servers[p].node)
  {
    hide Live, Reachable, TermAt, LeaderKept, Committed;
    var c1 := ShipsSnapshot(n, b, c, p, q);
    StillLeading(c, c1, n, p, q);
    Tracks(n, b, c1, p, q);
    BoundaryTerm(n, c1, p);
    var done;
    c', done := Tries(n, b, c1, p, q);
    ExchangedSince(c, c1, c', p, q);
  }

  /** However far apart their logs are, the leader can bring the peer to its own. */
  lemma {:induction false} Syncs(n: nat, b: K.Cluster, c: K.Cluster, p: nat, q: nat) returns (c': K.Cluster)
    requires Live(n, b, c) && Leading(c, n, p, q) && OnTrack(c.servers[p].node, c.servers[q].node, q)
    ensures Live(n, b, c') && Exchanged(c, c', p, q)
    ensures c'.servers[p].node.matchIndex[q] >= Last(c.servers[p].node) && Committed(c'.servers[p].node)
    decreases c.servers[p].node.nextIndex[q]
  {
    hide Live, Reachable, TermAt, LeaderKept, Committed;
    Tracks(n, b, c, p, q);
    if c.servers[p].node.nextIndex[q] <= c.servers[p].node.lastIncludedIndex {
      c' := SyncsBySnapshot(n, b, c, p, q);
    } else {
      var c1, done := Tries(n, b, c, p, q);
      if done {
        c' := c1;
      } else {
        StillLeading(c, c1, n, p, q);
        c' := Syncs(n, b, c1, p, q);
        ExchangedSince(c, c1, c', p, q);
      }
    }
  }

  lemma StillLeading(c: K.Cluster, c': K.Cluster, n: nat, p: nat, q: nat)
    requires Leading(c, n, p, q) && Exchanged(c, c', p, q)
    ensures Leading(c', n, p, q) && c'.servers[p].node.log == c.servers[p].node.log
    ensures c'.servers[p].node.lastIncludedIndex == c.servers[p].node.lastIncludedIndex
  {
  }

  // ----- all peers -----

  /** Leader p has index I as its last; the peers below k hold it, and it tries it next for the others. */
  ghost predicate Spreads(c: K.Cluster, n: nat, p: nat, I: nat, k: nat) {
    && p < n && |c.servers| == n
    && var a := c.servers[p].node;
      && a.role == Leader && |a.nextIndex| == |a.matchIndex| == n && Last(a) == I && a.lastIncludedIndex < I
      && a.matchIndex[p] >= I
      && (forall q: nat :: q < n && q != p ==> Brought(a, c.servers[q].node, q, I, k))
  }

  ghost predicate Brought(a: R.Node, x: R.Node, q: nat, I: nat, k: nat)
    requires q < |a.nextIndex| && q < |a.matchIndex|
  {
    && x.currentTerm <= a.currentTerm
    && (if q < k then a.matchIndex[q] >= I else a.nextIndex[q] == I && x.lastIncludedIndex < I)
  }

  /** Of server p only the leader's records and commit index have changed. */
  ghost predicate OnlyRecords(s: K.Server, s': K.Server) {
    && s' == s.(node := s'.node) && s.node.commitIndex <= s'.node.commitIndex
    && s'.node == s.node.(nextIndex := s'.node.nextIndex, matchIndex := s'.node.matchIndex,
                          commitIndex := s'.node.commitIndex)
  }

  lemma SpreadsOn(c: K.Cluster, c': K.Cluster, n: nat, p: nat, I: nat, q: nat)
    requires Spreads(c, n, p, I, q) && q < n && q != p && Exchanged(c, c', p, q)
    requires c'.servers[p].node.matchIndex[q] >= I
    ensures Spreads(c', n, p, I, q + 1) && OnlyRecords(c.servers[p], c'.servers[p])
  {
    var a, a' := c.servers[p].node, c'.servers[p].node;
    forall u: nat | u < n && u != p ensures Brought(a', c'.servers[u].node, u, I, q + 1) {
      assert Brought(a, c.servers[u].node, u, I, q);
    }
  }

  lemma {:induction false} SyncsAll(n: nat, b: K.Cluster, c: K.Cluster, p: nat, I: nat, k: nat) returns (c': K.Cluster)
    requires Live(n, b, c) && k <= n && Spreads(c, n, p, I, k)
    ensures Live(n, b, c') && Spreads(c', n, p, I, n) && OnlyRecords(c.servers[p], c'.servers[p])
    ensures Committed(c.servers[p].node) || (k < n && (k != p || k + 1 < n)) ==> Committed(c'.servers[p].node)
    decreases n - k
  {
    hide Live, Committed, Exchanged;
    if k == n {
      c' := c;
    } else if k == p {
      c' := SyncsAll(n, b, c, p, I, k + 1);
    } else {
      var a, x := c.servers[p].node, c.servers[k].node;
      assert Brought(a, x, k, I, k);
      var c1 := Syncs(n, b, c, p, k);
      SpreadsOn(c, c1, n, p, I, k);
      c' := SyncsAll(n, b, c1, p, I, k + 1);
    }
  }

  lemma AllHold(a: R.Node, n: nat, I: nat)
    requires a.n == |a.matchIndex| == n && TermAt(a, I) == a.currentTerm
    requires forall q: nat :: q < n ==> a.matchIndex[q] >= I
    ensures HeldByHalf(a, I)
  {
    Sorting.CountHolders(a.matchIndex, I);
    Sorting.CountAll(a.matchIndex, I);
  }

  /** The leader can commit its whole log. */
  lemma Commits(n: nat, b: K.Cluster, c: K.Cluster, p: nat, I: nat) returns (c': K.Cluster)
    requires Live(n, b, c) && n > 1 && Spreads(c, n, p, I, 0)
    requires TermAt(c.servers[p].node, I) == c.servers[p].node.currentTerm
    ensures Live(n, b, c') && |c'.servers| == n && OnlyRecords(c.servers[p], c'.servers[p])
    ensures c'.servers[p].node.commitIndex >= I
  {
    hide Live, HeldByHalf, TermAt;
    c' := SyncsAll(n, b, c, p, I, 0);
    PeerOk(n, b, c', p);
    var a := c'.servers[p].node;
    forall q: nat | q < n ensures a.matchIndex[q] >= I {
      if q != p { assert Brought(a, c'.servers[q].node, q, I, n); }
    }
    SameTermAt(c.servers[p].node, a, I);
    AllHold(a, n, I);
  }

  // ----- applying -----

  /** Submit id of server s waits for op at index I, which the service has not reached. */
  ghost predicate Awaits(s: K.Server, I: nat, id: nat, op: Op) {
    && id in s.rsm.waiters && s.rsm.waiters[id].index == I && s.rsm.waiters[id].op == op
    && s.rsm.waiters[id].ch == None && s.rsm.waiters[id].ret == None
    && I in s.rsm.pending && s.rsm.pending[I] == id && s.rsm.lastApplied < I
  }

  /** Registrations are of Submits that wait at that index. */
  lemma RegisteredAt(n: nat, c: K.Cluster, p: nat, i: nat)
    requires Reachable(n, c) && p < |c.servers| && i in c.servers[p].rsm.pending
    ensures var r := c.servers[p].rsm; r.pending[i] in r.waiters && r.waiters[r.pending[i]].index == i
  {
    hide Reachable, Inv, NodeSim, RsmSim;
    var w := ReachSim(n, c);
    assert ServerSim(c.servers[p], w, p);
  }

  /** What is on the apply channel has been delivered by the peer. */
  lemma NextBelow(n: nat, c: K.Cluster, p: nat)
    requires Reachable(n, c) && p < |c.servers| && c.servers[p].applyCh != []
    ensures c.servers[p].rsm.lastApplied < c.servers[p].applyCh[0].index <= c.servers[p].node.lastApplied
    ensures var r, m := c.servers[p].rsm, c.servers[p].applyCh[0];
      match m
      case CommandMsg(i, cmd) => i == r.lastApplied + 1 && cmd.Run?
      case SnapshotMsg(i, _, data) => data.Snap? && data.lastApplied == i
  {
    hide Reachable, Inv, WaitSim, Fold, Tracked, Counted, LogSim;
    var w := ReachSim(n, c);
    var s, L := c.servers[p], w.peers[p].log;
    assert ServerSim(s, w, p);
    CommitInside(w, p);
    var m := s.applyCh[0];
    QueuePrefix(L, L, s.applyCh[1..], m.index, s.node.lastApplied);
    if m.CommandMsg? { LogOps(c.servers, c.trace, w, p, m.index); }
  }

  lemma NothingQueued(n: nat, c: K.Cluster, p: nat)
    requires Reachable(n, c) && p < |c.servers| && c.servers[p].applyCh == []
    ensures c.servers[p].rsm.lastApplied == c.servers[p].node.lastApplied
  {
    hide Reachable, Inv, WaitSim, NodeSim;
    var w := ReachSim(n, c);
    assert ServerSim(c.servers[p], w, p);
  }

  /** The service reads a message for an index below I. */
  lemma ReadsBelow(n: nat, b: K.Cluster, c: K.Cluster, p: nat, I: nat, id: nat, op: Op) returns (c': K.Cluster)
    requires Live(n, b, c) && p < n && |c.servers| == n && Awaits(c.servers[p], I, id, op)
    requires c.servers[p].applyCh != [] && c.servers[p].applyCh[0].index < I
    ensures Live(n, b, c') && |c'.servers| == n && Awaits(c'.servers[p], I, id, op)
    ensures c'.servers[p].node == c.servers[p].node && c'.servers[p].applyCh == c.servers[p].applyCh[1..]
  {
    hide Live, Reachable, S.Read, Kv.Apply;
    PeerOk(n, b, c, p);
    Apart(n, b, c);
    Drive.Running(b, c);
    LiveReachable(n, b, c);
    NextBelow(n, c, p);
    var r, m := c.servers[p].rsm, c.servers[p].applyCh[0];
    match m {
      case CommandMsg(i, cmd) =>
        ReadCommandExactly(r, i, cmd.op);
        if i in r.pending { RegisteredAt(n, c, p, i); }
      case SnapshotMsg(i, t, data) =>
        ReadSnapshotExactly(r, i, t, data.lastApplied, data.state);
    }
    Go(b, c, K.Read(p));
    c' := K.Step(c, K.Read(p));
    Together(n, b, c, c');
  }

  /** The service reads everything the peer has delivered. */
  lemma {:induction false} Drains(n: nat, b: K.Cluster, c: K.Cluster, p: nat, I: nat, id: nat, op: Op)
    returns (c': K.Cluster)
    requires Live(n, b, c) && p < n && |c.servers| == n && Awaits(c.servers[p], I, id, op)
    requires c.servers[p].node.lastApplied < I
    ensures Live(n, b, c') && |c'.servers| == n && Awaits(c'.servers[p], I, id, op)
    ensures c'.servers[p].node == c.servers[p].node && c'.servers[p].applyCh == []
    decreases |c.servers[p].applyCh|
  {
    hide Live, Awaits;
    if c.servers[p].applyCh == [] {
      c' := c;
    } else {
      LiveReachable(n, b, c);
      NextBelow(n, c, p);
      var c1 := ReadsBelow(n, b, c, p, I, id, op);
      c' := Drains(n, b, c1, p, I, id, op);
    }
  }

  /** The peer delivers its next message onto the empty channel. */
  lemma Delivers(n: nat, b: K.Cluster, c: K.Cluster, p: nat) returns (c': K.Cluster)
    requires Live(n, b, c) && p < n && |c.servers| == n && c.servers[p].applyCh == []
    requires c.servers[p].node.lastApplied < c.servers[p].node.commitIndex
    ensures Live(n, b, c') && |c'.servers| == n && c'.servers[p].rsm == c.servers[p].rsm
    ensures var x, x' := c.servers[p].node, c'.servers[p].node;
      && x' == x.(lastApplied := x'.lastApplied, pending := R.NoPending) && |c'.servers[p].applyCh| == 1
      && c'.servers[p].applyCh[0].index == x'.lastApplied
      && (x.pending == R.NoPending ==>
            && x'.lastApplied == x.lastApplied + 1 && x.lastIncludedIndex < x'.lastApplied <= Last(x)
            && var e := x.log[x'.lastApplied - x.lastIncludedIndex];
              c'.servers[p].applyCh[0] == R.CommandMsg(x'.lastApplied, e.cmd))
      && (x.pending != R.NoPending ==> x.lastApplied < x'.lastApplied == x.lastIncludedIndex)
  {
    hide Live, Reachable, Sim;
    PeerOk(n, b, c, p);
    Apart(n, b, c);
    Drive.Running(b, c);
    LiveReachable(n, b, c);
    var w := ReachSim(n, c);
    PendingBounds(c, w, p);
    SimIndexable(c, w, K.Apply(p));
    Go(b, c, K.Apply(p));
    c' := K.Step(c, K.Apply(p));
    Together(n, b, c, c');
  }

  lemma PendingBounds(c: K.Cluster, w: World, p: nat)
    requires Sim(c, w) && p < |c.servers|
    ensures Bounds(c.servers[p].node)
  {
    hide Inv, RsmSim, WaitSim, Tracked, Counted, LogSim;
    assert ServerSim(c.servers[p], w, p);
  }

  /** The peer has committed index I and its service waits for it with nothing left to read. */
  ghost predicate Ready(s: K.Server, I: nat, id: nat, op: Op) {
    && Awaits(s, I, id, op) && s.applyCh == []
    && s.node.lastApplied < I <= s.node.commitIndex && s.node.lastIncludedIndex < I <= Last(s.node)
  }

  /** The service catches up to the index before I. */
  lemma {:induction false} AppliesUpTo(n: nat, b: K.Cluster, c: K.Cluster, p: nat, I: nat, id: nat, op: Op)
    returns (c': K.Cluster)
    requires Live(n, b, c) && p < n && |c.servers| == n && Ready(c.servers[p], I, id, op)
    ensures Live(n, b, c') && |c'.servers| == n && Ready(c'.servers[p], I, id, op)
    ensures var x, x' := c.servers[p].node, c'.servers[p].node;
      x' == x.(lastApplied := I - 1, pending := R.NoPending)
    decreases I - c.servers[p].node.lastApplied
  {
    hide Live, Awaits, Bounds;
    var x := c.servers[p].node;
    Settled(n, b, c, p);
    if x.lastApplied == I - 1 {
      c' := c;
    } else {
      var c1 := Delivers(n, b, c, p);
      AwaitsStill(c.servers[p], c1.servers[p], I, id, op);
      var c2 := ReadsBelow(n, b, c1, p, I, id, op);
      c' := AppliesUpTo(n, b, c2, p, I, id, op);
    }
  }

  /** A pending snapshot lies ahead of what has been delivered, at the boundary. */
  lemma Settled(n: nat, b: K.Cluster, c: K.Cluster, p: nat)
    requires Live(n, b, c) && p < n && |c.servers| == n
    ensures var x := c.servers[p].node; x.lastIncludedIndex <= x.lastApplied ==> x.pending == R.NoPending
  {
    hide Live, Reachable, Sim;
    LiveReachable(n, b, c);
    var w := ReachSim(n, c);
    PendingBounds(c, w, p);
  }

  lemma AwaitsStill(s: K.Server, s': K.Server, I: nat, id: nat, op: Op)
    requires Awaits(s, I, id, op) && s'.rsm == s.rsm
    ensures Awaits(s', I, id, op)
  {
  }

  lemma TraceSince(n: nat, b: K.Cluster, c: K.Cluster)
    requires Live(n, b, c)
    ensures b.trace <= c.trace
  {
    hide Live, K.Reaches;
    var acts := ActsOf(n, b, c);
    P.TraceKept(b, acts, c);
  }

  /** The awaited operation is delivered, read and answered. */
  lemma Answers(n: nat, b: K.Cluster, c: K.Cluster, p: nat, I: nat, id: nat, op: Op) returns (c': K.Cluster, e: K.Event)
    requires Live(n, b, c) && p < n && |c.servers| == n && Ready(c.servers[p], I, id, op)
    requires op.id == id && op.me == p
    requires var x := c.servers[p].node;
      x.lastApplied == I - 1 && x.pending == R.NoPending && x.log[I - x.lastIncludedIndex].cmd == Run(op)
    ensures Live(n, b, c') && c'.trace != [] && e == c'.trace[|c'.trace| - 1]
    ensures e.Answered? && e.peer == p && e.id == id && e.op == op && e.index == I
    ensures |c'.servers| == n && c'.servers[p].node == c.servers[p].node.(lastApplied := I) && |b.trace| < |c'.trace|
  {
    hide Live, Reachable, S.Read, Kv.Apply;
    LiveReachable(n, b, c);
    NothingQueued(n, c, p);
    var c1 := Delivers(n, b, c, p);
    PeerOk(n, b, c1, p);
    Apart(n, b, c1);
    Drive.Running(b, c1);
    ReadCommandExactly(c1.servers[p].rsm, I, op);
    Go(b, c1, K.Read(p));
    var c2 := K.Step(c1, K.Read(p));
    Together(n, b, c1, c2);
    TraceSince(n, b, c2);
    Go(b, c2, K.SubmitReturns(p, id));
    c' := K.Step(c2, K.SubmitReturns(p, id));
    Together(n, b, c1, c');
    e := c'.trace[|c'.trace| - 1];
  }

  // ----- from every reachable cluster -----

  /** Some peer is at least as up to date as all others. */
  lemma {:induction false} MostUpToDate(c: K.Cluster, k: nat) returns (p: nat)
    requires 0 < k <= |c.servers| && forall q: nat :: q < |c.servers| ==> |c.servers[q].node.log| > 0
    ensures p < k && forall q: nat :: q < k ==> NotBehind(c.servers[p].node, c.servers[q].node)
  {
    if k == 1 {
      p := 0;
    } else {
      p := MostUpToDate(c, k - 1);
      if !NotBehind(c.servers[p].node, c.servers[k - 1].node) { p := k - 1; }
    }
  }

  lemma OthersCount(n: nat, p: nat) returns (V: set<nat>)
    requires p < n
    ensures |V| == n - 1 && forall v: nat :: v in V <==> v < n && v != p
  {
    var all := AllBelow(n);
    assert p in all;
    V := all - {p};
  }

  lemma {:induction false} AllBelow(n: nat) returns (V: set<nat>)
    ensures |V| == n && forall v: nat :: v in V <==> v < n
  {
    if n == 0 {
      V := {};
    } else {
      var fewer := AllBelow(n - 1);
      assert n - 1 !in fewer;
      V := fewer + {n - 1};
    }
  }

  /** The leader takes a request and has its log to spread. */
  lemma TakesRequest(n: nat, b: K.Cluster, c: K.Cluster, p: nat, T: nat, req: Kv.Request)
    returns (c': K.Cluster, I: nat, op: Op)
    requires Live(n, b, c) && p < n && |c.servers| == n && FreshLeader(c.servers[p].node, n, T)
    requires forall q: nat :: q < n ==> c.servers[q].node.currentTerm <= T
    ensures Live(n, b, c') && Spreads(c', n, p, I, 0) && Awaits(c'.servers[p], I, op.id, op)
    ensures op.req == req && op.me == p && op == Op(p, c.servers[p].rsm.nextId + 1, c.servers[p].rsm.life, req)
    ensures K.Enabled(c, K.Submit(p, req)) && c' == K.Step(c, K.Submit(p, req))
    ensures var x := c'.servers[p].node;
      && x.lastApplied < I && x.lastIncludedIndex < I == Last(x) && x.log[I - x.lastIncludedIndex] == Entry(T, Run(op))
      && x.currentTerm == T
    ensures c'.trace == c.trace + [K.Proposed(op, I, T)]
  {
    hide Live, Reachable, Sim, R.Start, Spreads, Awaits, S.Submit, R.Ok;
    PeerOk(n, b, c, p);
    Apart(n, b, c);
    LiveReachable(n, b, c);
    var s := c.servers[p];
    OkLog(s.node);
    var w := ReachSim(n, c);
    AppliedInLog(c, w, p);
    CommitInLog(c, w, p);
    op := Op(p, s.rsm.nextId + 1, s.rsm.life, req);
    I := Last(s.node) + 1;
    c' := Submits(b, c, p, req);
    Together(n, b, c, c');
    SubmitStarts(s, req, op);
    StartExactly(s.node, Run(op));
    forall q: nat | q < n ensures c.servers[q].node.lastIncludedIndex < I { BoundaryHeld(n, c, p, q); }
    StartsSpreading(c, c', n, p, T, I, op);
    LoggedSubmit(c, p, req);
  }

  lemma SubmitStarts(s: K.Server, req: Kv.Request, op: Op)
    requires R.Ok(s.node) && s.node.role == Leader && s.rsm.lastApplied <= Last(s.node)
    requires op == Op(s.rsm.me, s.rsm.nextId + 1, s.rsm.life, req)
    ensures var (r', x') := S.Submit(s.rsm, s.node, req);
      x' == R.Start(s.node, Run(op)) && Awaits(s.(rsm := r', node := x'), Last(s.node) + 1, op.id, op)
  {
    hide R.Start;
  }

  lemma LoggedSubmit(c: K.Cluster, p: nat, req: Kv.Request)
    requires K.Enabled(c, K.Submit(p, req)) && R.Ok(c.servers[p].node) && c.servers[p].node.role == Leader
    ensures var s := c.servers[p]; var op := Op(s.rsm.me, s.rsm.nextId + 1, s.rsm.life, req);
      K.Step(c, K.Submit(p, req)).trace == c.trace + [K.Proposed(op, Last(s.node) + 1, s.node.currentTerm)]
  {
    hide R.Start;
  }

  lemma StartsSpreading(c: K.Cluster, c': K.Cluster, n: nat, p: nat, T: nat, I: nat, op: Op)
    requires p < n && |c.servers| == n && FreshLeader(c.servers[p].node, n, T) && |c.servers[p].node.matchIndex| == n
    requires |c'.servers| == n && I == Last(c.servers[p].node) + 1 && c.servers[p].node.me == p
    requires forall q: nat :: q < n ==> c.servers[q].node.currentTerm <= T && c.servers[q].node.lastIncludedIndex < I
    requires forall q: nat :: q < n && q != p ==> c'.servers[q] == c.servers[q]
    requires var a, a' := c.servers[p].node, c'.servers[p].node;
      && a'.log == a.log + [Entry(a.currentTerm, Run(op))]
      && a'.nextIndex == a.nextIndex[p := I + 1] && a'.matchIndex == a.matchIndex[p := I]
      && a' == a.(log := a'.log, nextIndex := a'.nextIndex, matchIndex := a'.matchIndex, disk := a'.disk)
    ensures Spreads(c', n, p, I, 0)
  {
  }

  lemma CommitInLog(c: K.Cluster, w: World, p: nat)
    requires Sim(c, w) && p < |c.servers|
    ensures var x := c.servers[p].node; x.lastApplied <= x.commitIndex <= Last(x) && x.lastIncludedIndex <= Last(x)
  {
    hide Inv, RsmSim, WaitSim, Tracked, Counted;
    assert ServerSim(c.servers[p], w, p);
    CommitInside(w, p);
  }

  /** After c some Submit of req was proposed and answered with its own operation. */
  ghost predicate NewlyAnswered(c: K.Cluster, c': K.Cluster, req: Kv.Request, j: nat, k: nat) {
    && |c.trace| <= j < k < |c'.trace| && c.trace <= c'.trace
    && c'.trace[j].Proposed? && c'.trace[k].Answered? && c'.trace[k].op == c'.trace[j].op && c'.trace[j].op.req == req
    && (forall G: seq<Entry> :: Explains(G, c') ==> Lin.Own(G, c'.trace[k]))
  }

  lemma {:induction false} Joins(c: K.Cluster, acts: seq<K.Action>, c1: K.Cluster, more: seq<K.Action>, c2: K.Cluster)
    requires K.Reaches(c, acts, c1) && K.Reaches(c1, more, c2)
    ensures K.Reaches(c, acts + more, c2)
    decreases |acts|
  {
    hide K.Step, K.Enabled;
    if acts == [] {
      assert acts + more == more;
    } else {
      Joins(K.Step(c, acts[0]), acts[1..], c1, more, c2);
      assert (acts + more)[1..] == acts[1..] + more;
    }
  }

  /** What has been proposed is committed, applied and answered. */
  lemma Finishes(n: nat, c: K.Cluster, p: nat, I: nat, op: Op) returns (acts: seq<K.Action>, c': K.Cluster, e: K.Event)
    requires Reachable(n, c) && n > 1 && Spreads(c, n, p, I, 0) && Awaits(c.servers[p], I, op.id, op) && op.me == p
    requires var x := c.servers[p].node;
      && x.lastApplied < I && x.lastIncludedIndex < I == Last(x)
      && x.log[I - x.lastIncludedIndex] == Entry(x.currentTerm, Run(op))
    ensures K.Reaches(c, acts, c') && |c'.trace| > |c.trace| && c.trace <= c'.trace && e == c'.trace[|c'.trace| - 1]
    ensures e.Answered? && e.op == op && forall G: seq<Entry> :: Explains(G, c') ==> Lin.Own(G, e)
  {
    hide Live, Awaits, Explains, Reachable;
    AtFirst(n, c);
    assert TermAt(c.servers[p].node, I) == c.servers[p].node.currentTerm;
    var c1 := Commits(n, c, c, p, I);
    AwaitsStill(c.servers[p], c1.servers[p], I, op.id, op);
    var c2 := Drains(n, c, c1, p, I, op.id, op);
    var c3 := AppliesUpTo(n, c, c2, p, I, op.id, op);
    c', e := Answers(n, c, c3, p, I, op.id, op);
    acts := ActsOf(n, c, c');
    P.TraceKept(c, acts, c');
    forall G: seq<Entry> | Explains(G, c') ensures Lin.Own(G, e) { OwnThere(c', p, I, op, e, G); }
  }

  /** From every reachable cluster of two or more peers, one can come to lead. */
  lemma CanLead(n: nat, c: K.Cluster) returns (acts: seq<K.Action>, c': K.Cluster, p: nat, T: nat)
    requires Reachable(n, c) && n > 1
    ensures K.Reaches(c, acts, c') && Live(n, c', c')
    ensures p < n && |c'.servers| == n && FreshLeader(c'.servers[p].node, n, T)
    ensures forall q: nat :: q < n ==> c'.servers[q].node.currentTerm <= T
  {
    hide Reachable, OnlyTerms, K.Reaches, Live;
    AtFirst(n, c);
    LiveReachable(n, c, c);
    forall q: nat | q < n ensures |c.servers[q].node.log| > 0 { PeerOk(n, c, c, q); }
    p := MostUpToDate(c, n);
    var V := OthersCount(n, p);
    acts, c', T := Electable.CanElect(n, c, p, V);
    RunReachable(n, c, acts, c');
    AtFirst(n, c');
    TermsStay(c, c', T);
  }

  /** From every reachable cluster of two or more peers, every request can still be proposed and answered. */
  lemma CanAnswer(n: nat, c: K.Cluster, req: Kv.Request) returns (acts: seq<K.Action>, c': K.Cluster, j: nat, k: nat)
    requires Reachable(n, c) && n > 1
    ensures K.Reaches(c, acts, c') && NewlyAnswered(c, c', req, j, k)
  {
    hide Reachable, Spreads, Awaits, Explains, FreshLeader, K.Reaches, Live, K.Step, K.Enabled;
    var acts1, c1, p, T := CanLead(n, c);
    P.TraceKept(c, acts1, c1);
    RunReachable(n, c, acts1, c1);
    var c2, I, op := TakesRequest(n, c1, c1, p, T, req);
    var acts2 := ActsOf(n, c1, c2);
    LiveReachable(n, c1, c2);
    var acts3, c3, e := Finishes(n, c2, p, I, op);
    Joins(c, acts1, c1, acts2, c2);
    Joins(c, acts1 + acts2, c2, acts3, c3);
    acts, c', j, k := acts1 + acts2 + acts3, c3, |c1.trace|, |c3.trace| - 1;
    assert c3.trace[j] == c2.trace[j];
  }

  lemma TermsStay(c: K.Cluster, c': K.Cluster, T: nat)
    requires OnlyTerms(c, c', T) && forall q: nat :: q < |c.servers| ==> c.servers[q].node.currentTerm < T
    ensures |c'.servers| == |c.servers| && forall q: nat :: q < |c.servers| ==> c'.servers[q].node.currentTerm <= T
  {
    forall q: nat | q < |c.servers| ensures c'.servers[q].node.currentTerm <= T {
      assert TermsOnly(c.servers[q], c'.servers[q], T);
    }
  }

  lemma OwnThere(c: K.Cluster, p: nat, I: nat, op: Op, e: K.Event, G: seq<Entry>)
    requires Explains(G, c) && p < |c.servers| && e.Answered? && e.index == I && e.op == op
    requires var x := c.servers[p].node;
      0 < I && x.lastIncludedIndex < I <= x.commitIndex && I <= Last(x) && x.log[I - x.lastIncludedIndex].cmd == Run(op)
    ensures Lin.Own(G, e)
  {
    hide DeliveredFrom, AllProposed;
    assert HoldsPrefix(c.servers[p].node, G);
    assert R.EntryAt(c.servers[p].node, I) == G[I];
  }

  // ----- one peer alone -----

  /** A cluster of one peer: no message, no leader, no waiter, no answer. */
  ghost predicate Alone(c: K.Cluster) {
    && |c.servers| == 1 && c.net == {}
    && c.servers[0].node.n == 1 && c.servers[0].node.me == 0 && c.servers[0].node.role != Leader
    && c.servers[0].rsm.waiters == map[]
    && forall e :: e in c.trace ==> !e.Answered?
  }

  lemma StepAlone(c: K.Cluster, a: K.Action)
    requires Alone(c) && K.Enabled(c, a)
    ensures Alone(K.Step(c, a))
  {
    hide R.AppendEntries, R.InstallSnapshot, R.OnAppendReply, R.OnVoteReply;
    var c' := K.Step(c, a);
    if a.Read? {
      assert c'.servers[0].rsm.waiters == map[];
    }
  }

  lemma {:induction false} RunAlone(c: K.Cluster, acts: seq<K.Action>, c': K.Cluster)
    requires Alone(c) && K.Reaches(c, acts, c')
    ensures Alone(c')
    decreases |acts|
  {
    if acts == [] {
    } else {
      StepAlone(c, acts[0]);
      RunAlone(K.Step(c, acts[0]), acts[1..], c');
    }
  }

  lemma NeverAnswers(c: K.Cluster, acts: seq<K.Action>, c': K.Cluster, req: Kv.Request, j: nat, k: nat)
    requires Reachable(1, c) && K.Reaches(c, acts, c')
    ensures !NewlyAnswered(c, c', req, j, k)
  {
    var before :| K.Reaches(K.Init(1), before, c);
    RunAlone(K.Init(1), before, c);
    RunAlone(c, acts, c');
  }

  /** A reachable cluster can still answer a request iff it has a second peer: the votes of an election are counted when
      a reply comes in, so a peer alone never leads. */
  lemma AnswersExactly(n: nat, c: K.Cluster, req: Kv.Request)
    requires Reachable(n, c)
    ensures n > 1 <==> exists acts, c', j, k :: K.Reaches(c, acts, c') && NewlyAnswered(c, c', req, j, k)
  {
    if n > 1 {
      var acts, c', j, k := CanAnswer(n, c, req);
    } else {
      forall acts, c', j, k | K.Reaches(c, acts, c') ensures !NewlyAnswered(c, c', req, j, k) {
        NeverAnswers(c, acts, c', req, j, k);
      }
    }
  }
}
