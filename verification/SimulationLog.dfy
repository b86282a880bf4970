/** Replication, commitment and snapshot installation as Consensus steps. */
module SimulationLog {
  import opened RaftTypes
  import opened Consensus
  import opened ConsensusProof
  import opened Simulation
  import opened SimulationNode
  import R = RaftNode
  import K = Cluster
  import Sorting

  // ----- the truncate-and-append loop on a compacted log -----

  /** When entries with equal terms are equal, the loop keeps a log that has all entries and otherwise
      replaces everything from the first of them. */
  lemma {:induction false} MergeIsAdopted(log: seq<Entry>, off: nat, es: seq<Entry>)
    requires off <= |log|
    requires forall i :: off <= i < |log| && i - off < |es| && log[i].term == es[i - off].term ==> log[i] == es[i - off]
    ensures R.Merge(log, off, es) == Adopted(log, log[..off] + es)
    decreases |es|
  {
    if es == [] {
      assert log[..off] + es == log[..off];
    } else {
      var rest := es[1..];
      assert es == [es[0]] + rest;
      if off == |log| {
        var log' := log + [es[0]];
        MergeIsAdopted(log', off + 1, rest);
        assert log'[..off + 1] + rest == log[..off] + es;
      } else if log[off].term == es[0].term {
        assert log[off] == es[0];
        assert log[..off + 1] + rest == log[..off] + es;
        MergeIsAdopted(log, off + 1, rest);
      }
    }
  }

  lemma CompactsAll(log: seq<Entry>, lii: nat, L: seq<Entry>)
    requires Compacts(log, lii, L)
    ensures |log| == |L| - lii && forall i :: 0 < i < |log| ==> log[i] == L[lii + i]
  {
    forall i | 0 < i < |log|
      ensures log[i] == L[lii + i]
    {
      CompactsAt(log, lii, L, lii + i);
    }
  }

  lemma SameTermSame(w: World, L: seq<Entry>, S: seq<Entry>)
    requires Matches(w, L) && Matches(w, S)
    ensures forall i :: 0 <= i < |L| && i < |S| && L[i].term == S[i].term ==> L[i] == S[i]
  {
    hide Matches;
    forall i: nat | i < |L| && i < |S| && L[i].term == S[i].term
      ensures L[i] == S[i]
    {
      LogMatching(w, L, S, i);
      assert L[i] == L[..i + 1][i] && S[i] == S[..i + 1][i];
    }
  }

  lemma CompactMerge(w: World, log: seq<Entry>, lii: nat, L: seq<Entry>, S: seq<Entry>, prev: nat)
    requires Compacts(log, lii, L) && Matches(w, L) && Matches(w, S)
    requires lii <= prev < |L| && prev < |S| && L[prev].term == S[prev].term
    ensures Compacts(R.Merge(log, prev + 1 - lii, S[prev + 1..]), lii, Adopted(L, S))
    ensures Adopted(L, S)[..lii + 1] == L[..lii + 1]
  {
    hide Matches, Has, Compacts, Adopted, R.Merge;
    CompactsAll(log, lii, L);
    var off, es := prev + 1 - lii, S[prev + 1..];
    LogMatching(w, L, S, prev);
    assert forall j :: 0 <= j <= prev ==> L[j] == L[..prev + 1][j] && S[j] == S[..prev + 1][j];
    SameTermSame(w, L, S);
    forall i | off <= i < |log| && i - off < |es| && log[i].term == es[i - off].term
      ensures log[i] == es[i - off]
    {
      assert es[i - off] == S[lii + i];
    }
    MergeIsAdopted(log, off, es);
    CompactAdopted(log, lii, L, S, prev);
  }

  lemma CompactAdopted(log: seq<Entry>, lii: nat, L: seq<Entry>, S: seq<Entry>, prev: nat)
    requires Compacts(log, lii, L) && lii <= prev < |L| && prev < |S|
    requires forall j :: 0 <= j <= prev ==> L[j] == S[j]
    requires forall i :: 0 < i < |log| ==> log[i] == L[lii + i]
    ensures Compacts(Adopted(log, log[..prev + 1 - lii] + S[prev + 1..]), lii, Adopted(L, S))
    ensures Adopted(L, S)[..lii + 1] == L[..lii + 1]
  {
    var off := prev + 1 - lii;
    var T := log[..off] + S[prev + 1..];
    assert forall i :: 0 < i < |T| ==> T[i] == S[lii + i];
    PrefixTogether(log, lii, L, S, T);
    if !(S <= L) {
      assert T[1..] == S[lii + 1..];
    }
  }

  /** T, the compacted form of S, is a prefix of log exactly when S is a prefix of the log's full form. */
  lemma PrefixTogether(log: seq<Entry>, lii: nat, L: seq<Entry>, S: seq<Entry>, T: seq<Entry>)
    requires lii < |L| && lii < |S| && |log| == |L| - lii && |T| == |S| - lii
    requires forall i :: 0 < i < |log| ==> log[i] == L[lii + i]
    requires forall i :: 0 < i < |T| ==> T[i] == S[lii + i]
    requires log[0] == T[0] && forall j :: 0 <= j <= lii ==> L[j] == S[j]
    ensures T <= log <==> S <= L
  {
    if T <= log {
      forall j | 0 <= j < |S| ensures S[j] == L[j] {
        if j > lii { assert T[j - lii] == log[j - lii]; }
      }
    }
    if S <= L {
      forall i | 0 <= i < |T| ensures T[i] == log[i] {
        if i > 0 { assert S[lii + i] == L[lii + i]; }
      }
    }
  }

  // ----- Follow as a move -----

  lemma FollowMoves(w: World, p: nat, k: nat, c: nat)
    requires Inv(w) && CanFollow(w, p, k, c)
    ensures Moves(w, Follow(w, p, k, c), p)
    ensures Acked(Follow(w, p, k, c), p, w.peers[p].term, k - 1)
  {
    hide Inv, Grows, CommitOk;
    FollowKeeps(w, p, k, c);
    FollowSame(w, p, k, c);
  }

  lemma FollowSame(w: World, p: nat, k: nat, c: nat)
    requires Inv(w) && CanFollow(w, p, k, c)
    ensures var L, L', d := w.peers[p].log, Follow(w, p, k, c).peers[p].log, w.peers[p].commit;
      d < |L| && d < |L'| && L'[..d + 1] == L[..d + 1]
  {
    FollowPrefix(w, p, k, c);
    hide *;
  }

  lemma FollowPrefix(w: World, p: nat, k: nat, c: nat)
    requires Shape(w) && Logs(w) && Commits(w) && LeadersCarry(w) && CanFollow(w, p, k, c)
    ensures var L, L', d := w.peers[p].log, Follow(w, p, k, c).peers[p].log, w.peers[p].commit;
      d < |L| && d < |L'| && L'[..d + 1] == L[..d + 1]
  {
    var L, d := w.peers[p].log, w.peers[p].commit;
    assert CommitOk(w, L, d, w.peers[p].term);
    if d > 0 {
      CommittedStays(w, p, k, c);
    } else {
      assert Matches(w, L) && Matches(w, w.tlog[w.peers[p].term]);
      assert Adopted(L, w.tlog[w.peers[p].term][..k])[0] == ZERO;
    }
  }

  // ----- Send -----

  lemma SendSim(c: K.Cluster, w: World, p: nat, i: nat) returns (w': World)
    requires Sim(c, w) && K.Enabled(c, K.Send(p, i)) && K.Indexable(c, K.Send(p, i))
    ensures Sim(K.Step(c, K.Send(p, i)), w') && Grows(w, w')
  {
    hide Inv, Grows, Moves, NoNewOps, RsmSim, WaitSim, LogSim, Tracked, Counted, AppendOk, SnapOk;
    w' := w;
    GrowsReflexive(w);
    Stays(w, p);
    var n := c.servers[p].node;
    assert ServerSim(c.servers[p], w, p);
    SendOk(n, w, p, i);
    assert c.trace + [] == c.trace;
    assert c.net + {} == c.net;
    assert c.servers[p := c.servers[p].(node := n)] == c.servers;
    match R.Replicate(n, i)
    case Nothing =>
    case SendAppend(aa) => NodeActs(c, w, w, p, n, {K.AppReq(i, aa)}, []);
    case SendSnap(sa) => NodeActs(c, w, w, p, n, {K.SnapReq(i, sa)}, []);
  }

  /** Whatever a leader sends is true of its log, and reaches past its commit index. */
  lemma SendOk(n: R.Node, w: World, p: nat, i: nat)
    requires Inv(w) && NodeSim(n, w, p) && n.role == Leader && i < n.n
    ensures match R.Replicate(n, i)
      case Nothing => true
      case SendAppend(a) => AppendOk(w, a)
      case SendSnap(a) => SnapOk(w, a)
  {
    hide Inv, AppendOk, SnapOk;
    if n.nextIndex[i] <= n.lastIncludedIndex {
      SendSnapOk(n, w, p);
    } else if n.nextIndex[i] - 1 <= R.LastIndex(n) {
      SendAppendOk(n, w, p, i);
    }
  }

  lemma SendSnapOk(n: R.Node, w: World, p: nat)
    requires Inv(w) && NodeSim(n, w, p) && n.role == Leader && n.lastIncludedIndex > 0
    ensures SnapOk(w, R.SnapArgs(n.currentTerm, n.me, n.lastIncludedIndex, n.lastIncludedTerm, n.snapshot))
  {
    hide Inv;
    LeaderLog(w, p);
    CommitInside(w, p);
    CommitOkLower(w, w.peers[p].log, n.commitIndex, n.lastIncludedIndex, n.currentTerm);
  }

  lemma SendAppendOk(n: R.Node, w: World, p: nat, i: nat)
    requires Inv(w) && NodeSim(n, w, p) && n.role == Leader && i < n.n
    requires n.lastIncludedIndex < n.nextIndex[i] <= R.LastIndex(n) + 1
    ensures var prev := n.nextIndex[i] - 1;
      AppendOk(w, R.AppendArgs(n.currentTerm, n.me, prev, R.EntryAt(n, prev).term,
                               n.log[prev + 1 - n.lastIncludedIndex..], n.commitIndex))
  {
    hide Inv;
    var L, prev := w.peers[p].log, n.nextIndex[i] - 1;
    LeaderLog(w, p);
    CommitInside(w, p);
    CompactsAt(n.log, n.lastIncludedIndex, L, prev);
    var x := prev + 1 - n.lastIncludedIndex;
    assert n.log[x..] == n.log[1..][x - 1..] == L[n.lastIncludedIndex + 1..][x - 1..] == L[prev + 1..];
  }

  // ----- AppendEntries -----

  lemma AppReqSim(c: K.Cluster, w: World, p: nat, m: K.Msg) returns (w': World)
    requires Sim(c, w) && K.Enabled(c, K.OnAppReq(p, m)) && K.Indexable(c, K.OnAppReq(p, m))
    ensures Sim(K.Step(c, K.OnAppReq(p, m)), w') && Grows(w, w')
  {
    hide Inv, Grows, RsmSim, WaitSim, NodeSim, NoNewOps, Advances, AppendOk, SnapOk, R.AppendEntries;
    var n := c.servers[p].node;
    assert ServerSim(c.servers[p], w, p) && MsgSim(w, m);
    var (n', r) := R.AppendEntries(n, m.aa);
    w' := AppReqWorld(n, w, p, m.aa);
    AppendGrows(w, w', m.aa);
    NodeActs(c, w, w', p, n', {K.AppRep(p, m.aa, r)}, []);
    assert c.trace + [] == c.trace;
  }

  lemma AppReqWorld(n: R.Node, w: World, p: nat, a: R.AppendArgs) returns (w': World)
    requires Inv(w) && NodeSim(n, w, p) && AppendOk(w, a)
    ensures Moves(w, w', p) && NoNewOps(w, w')
    ensures var (n', r) := R.AppendEntries(n, a);
      && NodeSim(n', w', p) && Advances(n, n') && n'.lastApplied == n.lastApplied
      && (r.success ==> Acked(w', p, a.term, a.prevLogIndex + |a.entries|))
  {
    hide Inv, Grows, R.AppendEntries, Accepted;
    AppendCases(n, a);
    if a.term < n.currentTerm {
      w' := w;
      Stays(w, p);
    } else {
      EnteredMoves(n, w, p, a.term);
      var w1 := Entered(w, p, a.term);
      var n1 := EnteredNode(n, a.term);
      AppendGrows(w, w1, a);
      var (n', r) := R.AppendEntries(n, a);
      if r.success {
        AcceptWorld(n1, w1, p, a);
        w' := Follow(w1, p, a.prevLogIndex + 1 + |a.entries|, a.leaderCommit);
        MovesThen(w, w1, w', p);
      } else {
        w' := w1;
      }
    }
  }

  function EnteredNode(n: R.Node, t: nat): R.Node {
    if t > n.currentTerm then R.ToFollower(n, t) else n.(role := Follower)
  }

  lemma AppendCases(n: R.Node, a: R.AppendArgs)
    requires |n.log| > 0
    ensures var (n', r) := R.AppendEntries(n, a); var n1 := EnteredNode(n, a.term);
      if a.term < n.currentTerm then n' == n && !r.success
      else if r.success then
        && n1.lastIncludedIndex <= a.prevLogIndex <= R.LastIndex(n1)
        && R.EntryAt(n1, a.prevLogIndex).term == a.prevLogTerm && n' == Accepted(n1, a)
      else n' == n1
  {
  }

  /** The state after an accepted AppendEntries. */
  function Accepted(n: R.Node, a: R.AppendArgs): R.Node
    requires |n.log| > 0 && n.lastIncludedIndex <= a.prevLogIndex <= R.LastIndex(n)
  {
    var log' := R.Merge(n.log, a.prevLogIndex + 1 - n.lastIncludedIndex, a.entries);
    var n2 := n.(log := log');
    var n3 := if a.entries != [] then R.Persist(n2) else n2;
    R.MergeGrows(n.log, a.prevLogIndex + 1 - n.lastIncludedIndex, a.entries);
    if a.leaderCommit > n3.commitIndex
    then n3.(commitIndex := R.Min(a.leaderCommit, R.LastIndex(n3))) else n3
  }

  lemma AcceptedLog(n: R.Node, a: R.AppendArgs)
    requires |n.log| > 0 && n.lastIncludedIndex <= a.prevLogIndex <= R.LastIndex(n)
    ensures var n' := Accepted(n, a);
      && n'.log == R.Merge(n.log, a.prevLogIndex + 1 - n.lastIncludedIndex, a.entries)
      && n'.lastIncludedIndex == n.lastIncludedIndex && n'.lastIncludedTerm == n.lastIncludedTerm
      && n'.snapshot == n.snapshot
      && (a.entries == [] ==> n'.log == n.log)
  {
  }

  lemma AcceptWorld(n: R.Node, w: World, p: nat, a: R.AppendArgs)
    requires Inv(w) && NodeSim(n, w, p) && AppendOk(w, a) && n.currentTerm == a.term && n.role == Follower
    requires n.lastIncludedIndex <= a.prevLogIndex <= R.LastIndex(n)
    requires R.EntryAt(n, a.prevLogIndex).term == a.prevLogTerm
    ensures var k := a.prevLogIndex + 1 + |a.entries|;
      && CanFollow(w, p, k, a.leaderCommit)
      && var w' := Follow(w, p, k, a.leaderCommit);
        && Moves(w, w', p) && NodeSim(Accepted(n, a), w', p) && Acked(w', p, a.term, k - 1)
        && Accepted(n, a).lastApplied == n.lastApplied && Accepted(n, a).role == Follower
        && Accepted(n, a).currentTerm == n.currentTerm
  {
    hide Inv, Grows, Moves, Acked, CommitOk, Matches;
    FollowMoves(w, p, a.prevLogIndex + 1 + |a.entries|, a.leaderCommit);
    LogsMatch(w, p, a.term);
    AcceptNode(n, w, p, a);
  }

  lemma AcceptNode(n: R.Node, w: World, p: nat, a: R.AppendArgs)
    requires NodeSim(n, w, p) && AppendOk(w, a) && n.currentTerm == a.term && n.role == Follower
    requires n.lastIncludedIndex <= a.prevLogIndex <= R.LastIndex(n)
    requires R.EntryAt(n, a.prevLogIndex).term == a.prevLogTerm
    requires Matches(w, w.peers[p].log) && Matches(w, w.tlog[a.term])
    requires CanFollow(w, p, a.prevLogIndex + 1 + |a.entries|, a.leaderCommit)
    ensures NodeSim(Accepted(n, a), Follow(w, p, a.prevLogIndex + 1 + |a.entries|, a.leaderCommit), p)
  {
    hide Matches, CommitOk, Compacts, R.Merge, Fold;
    var L', k := Adopted(w.peers[p].log, w.tlog[a.term][..a.prevLogIndex + 1 + |a.entries|]),
                 a.prevLogIndex + 1 + |a.entries|;
    AcceptLog(n, w, p, a);
    assert |L'| >= k;
  }

  lemma AcceptLog(n: R.Node, w: World, p: nat, a: R.AppendArgs)
    requires p < |w.peers| && LogSim(n, w.peers[p]) && AppendOk(w, a) && n.currentTerm == a.term
    requires |n.log| > 0 && n.lastIncludedIndex <= a.prevLogIndex <= R.LastIndex(n)
    requires R.EntryAt(n, a.prevLogIndex).term == a.prevLogTerm
    requires Matches(w, w.peers[p].log) && Matches(w, w.tlog[a.term])
    ensures var n', L' := Accepted(n, a), Adopted(w.peers[p].log, w.tlog[a.term][..a.prevLogIndex + 1 + |a.entries|]);
      LogSim(n', w.peers[p].(log := L')) && R.LastIndex(n') == |L'| - 1
      && (a.entries == [] ==> n'.log == n.log)
  {
    hide Matches, CommitOk, Has, Accepted, R.Merge, Fold;
    AcceptedLog(n, a);
    var L, lii, k := w.peers[p].log, n.lastIncludedIndex, a.prevLogIndex + 1 + |a.entries|;
    var T := w.tlog[a.term];
    var S := T[..k];
    MatchesPrefix(w, T, k);
    CompactsAt(n.log, lii, L, a.prevLogIndex);
    assert S[a.prevLogIndex + 1..] == a.entries;
    CompactMerge(w, n.log, lii, L, S, a.prevLogIndex);
    var L' := Adopted(L, S);
    assert L'[lii] == L'[..lii + 1][lii] == L[..lii + 1][lii] == L[lii];
    FoldPrefix(L, L', lii);
  }

  // ----- the leader's reply handlers -----

  lemma AppRepSim(c: K.Cluster, w: World, p: nat, m: K.Msg) returns (w': World)
    requires Sim(c, w) && K.Enabled(c, K.OnAppRep(p, m)) && K.Indexable(c, K.OnAppRep(p, m))
    ensures Sim(K.Step(c, K.OnAppRep(p, m)), w') && Grows(w, w')
  {
    hide Inv, Grows, RsmSim, WaitSim, NodeSim, NoNewOps, Advances, AppendOk, SnapOk, R.OnAppendReply;
    var n := c.servers[p].node;
    assert ServerSim(c.servers[p], w, p) && MsgSim(w, m);
    w' := AppRepWorld(n, w, p, m.from, m.aa, m.ar);
    NodeActs(c, w, w', p, R.OnAppendReply(n, m.from, m.aa, m.ar), {}, []);
    assert c.trace + [] == c.trace;
  }

  lemma AppRepWorld(n: R.Node, w: World, p: nat, q: nat, a: R.AppendArgs, r: R.AppendReply) returns (w': World)
    requires Inv(w) && NodeSim(n, w, p) && q < n.n && AppendOk(w, a)
    requires r.success ==> Acked(w, q, a.term, a.prevLogIndex + |a.entries|)
    ensures Moves(w, w', p) && NoNewOps(w, w')
    ensures var n' := R.OnAppendReply(n, q, a, r);
      NodeSim(n', w', p) && Advances(n, n') && n'.lastApplied == n.lastApplied
  {
    hide Inv, Grows, Moves, NoNewOps, Counted, Acked, Fold, Compacts, CommitOk, R.AdvanceCommitIndex, R.BackupNextIndex;
    LastIndexIs(n, w.peers[p]);
    Stays(w, p);
    if n.role != Leader || n.currentTerm != a.term {
      w' := w;
    } else if r.term > n.currentTerm {
      w' := Adopt(w, p, r.term);
      AdoptMoves(w, p, r.term);
      AdoptNode(n, w, p, r.term);
    } else if r.success {
      var i := a.prevLogIndex + |a.entries|;
      MatchNode(n, w, p, q, i);
      w' := AdvanceWorld(Matched(n, q, i), w, p);
    } else {
      w' := w;
      BackupNode(n, w, p, q, r);
    }
  }

  /** The leader records that peer q holds its log up to i. */
  function Matched(n: R.Node, q: nat, i: nat): R.Node
    requires R.Ok(n) && q < n.n
  {
    n.(matchIndex := n.matchIndex[q := Sorting.Max(n.matchIndex[q], i)],
       nextIndex := n.nextIndex[q := Sorting.Max(n.nextIndex[q], i + 1)])
  }

  lemma MatchNode(n: R.Node, w: World, p: nat, q: nat, i: nat)
    requires Inv(w) && NodeSim(n, w, p) && q < n.n && n.role == Leader
    requires Acked(w, q, n.currentTerm, i) && i < |w.tlog[n.currentTerm]|
    ensures NodeSim(Matched(n, q, i), w, p)
  {
    hide Inv, Compacts, SnapAt, Acked;
    LeaderLog(w, p);
    assert R.LastIndex(n) == |w.peers[p].log| - 1 by { LastIndexIs(n, w.peers[p]); }
  }

  lemma LastIndexIs(n: R.Node, P: Peer)
    requires LogSim(n, P)
    ensures |n.log| > 0 && R.LastIndex(n) == |P.log| - 1
  {
  }

  /** Each rejection the leader acts on lowers nextIndex, or lands on max(1, lastIncludedIndex). */
  lemma BackupLowers(n: R.Node, q: nat, r: R.AppendReply)
    requires R.Ok(n) && q < n.n
    ensures var x := R.BackupNextIndex(n, q, r);
      x >= Sorting.Max(1, n.lastIncludedIndex)
      && (x < n.nextIndex[q] || x == Sorting.Max(1, n.lastIncludedIndex))
  {
  }

  lemma BackupNode(n: R.Node, w: World, p: nat, q: nat, r: R.AppendReply)
    requires NodeSim(n, w, p) && q < n.n && n.role == Leader
    ensures NodeSim(n.(nextIndex := n.nextIndex[q := R.BackupNextIndex(n, q, r)]), w, p)
  {
    BackupLowers(n, q, r);
  }

  lemma AdvanceWorld(n: R.Node, w: World, p: nat) returns (w': World)
    requires Inv(w) && NodeSim(n, w, p) && n.role == Leader
    ensures Moves(w, w', p) && NoNewOps(w, w')
    ensures NodeSim(R.AdvanceCommitIndex(n), w', p) && Advances(n, R.AdvanceCommitIndex(n))
    ensures R.AdvanceCommitIndex(n).lastApplied == n.lastApplied
  {
    hide Inv, Grows;
    var N := Sorting.Sort(n.matchIndex)[n.n / 2];
    Stays(w, p);
    if N > n.commitIndex && N <= R.LastIndex(n) && R.EntryAt(n, N).term == n.currentTerm {
      var H := AdvanceQuorum(n, w, p, N);
      w' := Commit(w, p, N);
      CommitKeeps(w, p, N, H);
      CommitInside(w, p);
      SameOps(w, w');
    } else {
      w' := w;
    }
  }

  /** The peers counted by the sorted-matchIndex rule have all accepted index N in this term. */
  lemma AdvanceQuorum(n: R.Node, w: World, p: nat, N: nat) returns (H: set<nat>)
    requires Inv(w) && NodeSim(n, w, p) && n.role == Leader
    requires N == Sorting.Sort(n.matchIndex)[n.n / 2] && n.commitIndex < N <= R.LastIndex(n)
    requires R.EntryAt(n, N).term == n.currentTerm
    ensures CanCommit(w, p, N, H)
  {
    hide Inv;
    H := Sorting.Holders(n.matchIndex, N);
    Sorting.MiddleHeldByHalf(n.matchIndex);
    LeaderLog(w, p);
    CompactsAt(n.log, n.lastIncludedIndex, w.peers[p].log, N);
    forall q | q in H ensures q < |w.peers| && Acked(w, q, n.currentTerm, N) {
      assert Acked(w, q, n.currentTerm, n.matchIndex[q]);
    }
  }

  lemma SnapRepSim(c: K.Cluster, w: World, p: nat, m: K.Msg) returns (w': World)
    requires Sim(c, w) && K.Enabled(c, K.OnSnapRep(p, m)) && K.Indexable(c, K.OnSnapRep(p, m))
    ensures Sim(K.Step(c, K.OnSnapRep(p, m)), w') && Grows(w, w')
  {
    hide Inv, Grows, RsmSim, WaitSim, NodeSim, NoNewOps, Advances, AppendOk, SnapOk, R.OnSnapReply;
    var n := c.servers[p].node;
    assert ServerSim(c.servers[p], w, p) && MsgSim(w, m);
    w' := SnapRepWorld(n, w, p, m.from, m.sa, m.replyTerm);
    NodeActs(c, w, w', p, R.OnSnapReply(n, m.from, m.sa, m.replyTerm), {}, []);
    assert c.trace + [] == c.trace;
  }

  lemma SnapRepWorld(n: R.Node, w: World, p: nat, q: nat, a: R.SnapArgs, t: nat) returns (w': World)
    requires Inv(w) && NodeSim(n, w, p) && q < n.n && SnapOk(w, a)
    requires t <= a.term ==> Acked(w, q, a.term, a.lastIncludedIndex)
    ensures Moves(w, w', p) && NoNewOps(w, w')
    ensures var n' := R.OnSnapReply(n, q, a, t);
      NodeSim(n', w', p) && Advances(n, n') && n'.lastApplied == n.lastApplied
  {
    hide Inv, Grows, Moves, NoNewOps, Counted, Acked, Fold;
    Stays(w, p);
    if n.role != Leader || n.currentTerm != a.term {
      w' := w;
    } else if t > n.currentTerm {
      w' := Adopt(w, p, t);
      AdoptMoves(w, p, t);
      AdoptNode(n, w, p, t);
    } else {
      w' := w;
      MatchNode(n, w, p, q, a.lastIncludedIndex);
    }
  }

  // ----- InstallSnapshot -----

  lemma SnapReqSim(c: K.Cluster, w: World, p: nat, m: K.Msg) returns (w': World)
    requires Sim(c, w) && K.Enabled(c, K.OnSnapReq(p, m)) && K.Indexable(c, K.OnSnapReq(p, m))
    ensures Sim(K.Step(c, K.OnSnapReq(p, m)), w') && Grows(w, w')
  {
    hide Inv, Grows, RsmSim, WaitSim, NodeSim, NoNewOps, Advances, AppendOk, SnapOk, R.InstallSnapshot;
    var n := c.servers[p].node;
    assert ServerSim(c.servers[p], w, p) && MsgSim(w, m);
    var (n', t) := R.InstallSnapshot(n, m.sa);
    w' := SnapReqWorld(n, w, p, m.sa);
    SnapGrows(w, w', m.sa);
    NodeActs(c, w, w', p, n', {K.SnapRep(p, m.sa, t)}, []);
    assert c.trace + [] == c.trace;
  }

  lemma SnapReqWorld(n: R.Node, w: World, p: nat, a: R.SnapArgs) returns (w': World)
    requires Inv(w) && NodeSim(n, w, p) && SnapOk(w, a)
    ensures Moves(w, w', p) && NoNewOps(w, w')
    ensures var (n', t) := R.InstallSnapshot(n, a);
      && NodeSim(n', w', p) && Advances(n, n') && n'.lastApplied == n.lastApplied
      && (t <= a.term ==> Acked(w', p, a.term, a.lastIncludedIndex))
  {
    hide Inv, Grows, R.InstallSnapshot, Installed;
    InstallCases(n, a);
    if a.term < n.currentTerm {
      w' := w;
      Stays(w, p);
    } else {
      EnteredMoves(n, w, p, a.term);
      var w1 := Entered(w, p, a.term);
      var n1 := EnteredNode(n, a.term);
      SnapGrows(w, w1, a);
      InstallWorld(n1, w1, p, a);
      w' := Follow(w1, p, a.lastIncludedIndex + 1, a.lastIncludedIndex);
      MovesThen(w, w1, w', p);
    }
  }

  /** The state after InstallSnapshot, once the sender's term is accepted. */
  function Installed(n: R.Node, a: R.SnapArgs): R.Node
    requires |n.log| > 0
  {
    if a.lastIncludedIndex <= n.lastIncludedIndex then n
    else
      var log' :=
        if a.lastIncludedIndex <= R.LastIndex(n) && R.EntryAt(n, a.lastIncludedIndex).term == a.lastIncludedTerm
        then R.Cut(n.log, a.lastIncludedIndex - n.lastIncludedIndex)
        else [Entry(a.lastIncludedTerm, NoCommand)];
      var n2 := R.Persist(n.(log := log', lastIncludedIndex := a.lastIncludedIndex,
                             lastIncludedTerm := a.lastIncludedTerm, snapshot := a.data,
                             commitIndex := if n.commitIndex < a.lastIncludedIndex then a.lastIncludedIndex
                                            else n.commitIndex));
      if a.lastIncludedIndex > n2.lastApplied
      then n2.(pending := R.Pending(a.lastIncludedIndex, a.lastIncludedTerm, a.data)) else n2
  }

  lemma InstallCases(n: R.Node, a: R.SnapArgs)
    requires |n.log| > 0
    ensures var (n', t) := R.InstallSnapshot(n, a);
      if a.term < n.currentTerm then n' == n && t == n.currentTerm
      else n' == Installed(EnteredNode(n, a.term), a) && t == a.term
  {
  }

  lemma InstallWorld(n: R.Node, w: World, p: nat, a: R.SnapArgs)
    requires Inv(w) && NodeSim(n, w, p) && SnapOk(w, a) && n.currentTerm == a.term && n.role == Follower
    ensures var i := a.lastIncludedIndex;
      && CanFollow(w, p, i + 1, i)
      && var w' := Follow(w, p, i + 1, i);
        && Moves(w, w', p) && NodeSim(Installed(n, a), w', p) && Acked(w', p, a.term, i)
        && Installed(n, a).lastApplied == n.lastApplied && Installed(n, a).role == Follower
        && Installed(n, a).currentTerm == n.currentTerm
  {
    hide Inv, Grows, Moves, Acked, Matches, Installed, Follow, Fold, Counted, Tracked;
    var i := a.lastIncludedIndex;
    InstalledKeeps(n, a);
    FollowMoves(w, p, i + 1, i);
    LogsMatch(w, p, a.term);
    CommitInside(w, p);
    if i <= n.lastIncludedIndex {
      CommittedAgree(w, w.peers[p].log, n.commitIndex, n.currentTerm, w.tlog[a.term], i, a.term, i);
      InstallOld(n, w, p, a);
    } else {
      InstallNew(n, w, p, a);
    }
  }

  lemma InstalledKeeps(n: R.Node, a: R.SnapArgs)
    requires |n.log| > 0
    ensures var n' := Installed(n, a);
      n'.lastApplied == n.lastApplied && n'.role == n.role && n'.currentTerm == n.currentTerm
    ensures a.lastIncludedIndex <= n.lastIncludedIndex ==> Installed(n, a) == n
  {
  }

  /** Two committed prefixes agree as far as both go. */
  lemma CommittedAgree(w: World, L: seq<Entry>, c: nat, t: nat, M: seq<Entry>, d: nat, u: nat, x: nat)
    requires Inv(w) && CommitOk(w, L, c, t) && CommitOk(w, M, d, u) && x <= c && x <= d
    requires Matches(w, L) && Matches(w, M)
    ensures L[..x + 1] == M[..x + 1]
  {
    if x > 0 {
      var a: nat, i: nat :| CommitBy(w, L, c, t, a, i);
      var b: nat, j: nat :| CommitBy(w, M, d, u, b, j);
      ChosenAgree(w, a, i, b, j, x);
      HasShorter(w, L, a, x, c);
      HasShorter(w, M, b, x, d);
    }
  }

  lemma InstallOld(n: R.Node, w: World, p: nat, a: R.SnapArgs)
    requires NodeSim(n, w, p) && SnapOk(w, a) && n.currentTerm == a.term && n.role == Follower
    requires a.lastIncludedIndex <= n.lastIncludedIndex
    requires w.peers[p].log[..a.lastIncludedIndex + 1] == w.tlog[a.term][..a.lastIncludedIndex + 1]
    ensures NodeSim(n, Follow(w, p, a.lastIncludedIndex + 1, a.lastIncludedIndex), p)
  {
    assert w.tlog[a.term][..a.lastIncludedIndex + 1] <= w.peers[p].log;
  }

  lemma InstallNew(n: R.Node, w: World, p: nat, a: R.SnapArgs)
    requires NodeSim(n, w, p) && SnapOk(w, a) && n.currentTerm == a.term && n.role == Follower
    requires Matches(w, w.peers[p].log) && Matches(w, w.tlog[a.term])
    requires a.lastIncludedIndex > n.lastIncludedIndex
    ensures NodeSim(Installed(n, a), Follow(w, p, a.lastIncludedIndex + 1, a.lastIncludedIndex), p)
  {
    hide Matches, CommitOk, Has, Fold;
    var L, T, i := w.peers[p].log, w.tlog[a.term], a.lastIncludedIndex;
    var L' := Adopted(L, T[..i + 1]);
    InstallPrefix(L, T, i);
    FoldPrefix(L', T, i);
    InstallLog(n, w, p, a);
    assert LogSim(Installed(n, a), w.peers[p].(log := L'));
  }

  lemma InstallPrefix(L: seq<Entry>, T: seq<Entry>, i: nat)
    requires i < |T|
    ensures var L' := Adopted(L, T[..i + 1]); i < |L'| && L'[..i + 1] == T[..i + 1] && L'[i] == T[i]
  {
    var S := T[..i + 1];
    var L' := Adopted(L, S);
    assert L'[..i + 1] == S;
    assert L'[i] == L'[..i + 1][i] == T[..i + 1][i] == T[i];
  }

  lemma InstallLog(n: R.Node, w: World, p: nat, a: R.SnapArgs)
    requires NodeSim(n, w, p) && SnapOk(w, a) && n.currentTerm == a.term
    requires Matches(w, w.peers[p].log) && Matches(w, w.tlog[a.term])
    requires a.lastIncludedIndex > n.lastIncludedIndex
    ensures Compacts(Installed(n, a).log, a.lastIncludedIndex,
                     Adopted(w.peers[p].log, w.tlog[a.term][..a.lastIncludedIndex + 1]))
  {
    var L, T, i, lii := w.peers[p].log, w.tlog[a.term], a.lastIncludedIndex, n.lastIncludedIndex;
    var S := T[..i + 1];
    if i < |L| {
      CompactsAt(n.log, lii, L, i);
      if L[i].term == T[i].term {
        LogMatching(w, L, T, i);
        assert S <= L;
        CompactsCut(n.log, lii, L, i);
      } else {
        assert S[i] == T[i];
      }
    }
  }

  /** Cutting a compacted log moves its boundary up. */
  lemma CompactsCut(log: seq<Entry>, lii: nat, L: seq<Entry>, i: nat)
    requires Compacts(log, lii, L) && lii < i < |L|
    ensures Compacts(R.Cut(log, i - lii), i, L)
  {
    CompactsAt(log, lii, L, i);
    var cut := R.Cut(log, i - lii);
    assert cut[1..] == log[i - lii + 1..] == log[1..][i - lii..] == L[lii + 1..][i - lii..] == L[i + 1..];
  }
}
