/** From every reachable cluster, a peer whose log is at least as up to date as those of a majority can come to lead. */
module Electable {
  import opened RaftTypes
  import opened Consensus
  import opened Simulation
  import opened RaftSafety
  import opened RaftExact
  import opened Drive
  import RsmOnce
  import R = RaftNode
  import K = Cluster

  /** c follows the reachable state b. */
  ghost predicate Live(n: nat, b: K.Cluster, c: K.Cluster) {
    Reachable(n, b) && From(b, c)
  }

  lemma LiveReachable(n: nat, b: K.Cluster, c: K.Cluster)
    requires Live(n, b, c)
    ensures Reachable(n, c) && !c.panicked && |c.servers| == n
  {
    hide Reachable, K.Reaches;
    var acts :| K.Reaches(b, acts, c);
    RunReachable(n, b, acts, c);
    SizeKept(n, c);
  }

  lemma SizeKept(n: nat, c: K.Cluster)
    requires Reachable(n, c)
    ensures |c.servers| == n
  {
    hide K.Step, K.Enabled;
    var acts :| K.Reaches(K.Init(n), acts, c);
    RunSize(K.Init(n), acts, c);
  }

  lemma {:induction false} RunSize(c: K.Cluster, acts: seq<K.Action>, c': K.Cluster)
    requires K.Reaches(c, acts, c')
    ensures |c'.servers| == |c.servers|
    decreases |acts|
  {
    hide K.Step, K.Enabled;
    if acts == [] {
    } else {
      RsmOnce.SameServers(c, acts[0]);
      RunSize(K.Step(c, acts[0]), acts[1..], c');
    }
  }

  lemma PeerOk(n: nat, b: K.Cluster, c: K.Cluster, p: nat)
    requires Live(n, b, c) && p < n
    ensures p < |c.servers| && R.Ok(c.servers[p].node)
    ensures c.servers[p].node.me == p == c.servers[p].rsm.me && c.servers[p].node.n == n
  {
    hide Reachable, Sim, Inv;
    LiveReachable(n, b, c);
    var w := ReachSim(n, c);
    SimPeer(c, w, p);
  }

  lemma SimPeer(c: K.Cluster, w: World, p: nat)
    requires Sim(c, w) && p < |c.servers|
    ensures R.Ok(c.servers[p].node) && c.servers[p].node.me == p == c.servers[p].rsm.me
    ensures c.servers[p].node.n == |c.servers|
  {
    hide Inv, RsmSim, WaitSim, Tracked, Counted;
    assert ServerSim(c.servers[p], w, p);
  }

  // ----- the candidate -----

  /** The candidate's last (term, index) is at least the voter's. */
  ghost predicate NotBehind(x: R.Node, y: R.Node) {
    && |x.log| > 0 && |y.log| > 0
    && var s, t := x.log[|x.log| - 1].term, y.log[|y.log| - 1].term; s > t || (s == t && Last(x) >= Last(y))
  }

  /** x' differs from x in nothing that outlasts an election. */
  ghost predicate SameLog(x: R.Node, x': R.Node) {
    && x'.log == x.log && x'.lastIncludedIndex == x.lastIncludedIndex && x'.lastIncludedTerm == x.lastIncludedTerm
    && x'.snapshot == x.snapshot && x'.commitIndex == x.commitIndex && x'.lastApplied == x.lastApplied
    && x'.pending == x.pending
  }

  /** Every server but p is as it was, and p's service is. */
  ghost predicate OnlyNode(c: K.Cluster, c': K.Cluster, p: nat) {
    && |c'.servers| == |c.servers| && p < |c.servers|
    && c'.servers[p] == c.servers[p].(node := c'.servers[p].node)
    && (forall q: nat :: q < |c.servers| && q != p ==> c'.servers[q] == c.servers[q])
  }

  /** x runs the election of term T and has the votes of S. */
  ghost predicate Campaigning(x: R.Node, T: nat, S: set<nat>) {
    && x.role == Candidate && x.currentTerm == T && x.votes == |S| + 1
    && x.asked == x.heard == x.granted == S
  }

  lemma {:induction false} RunsTo(n: nat, b: K.Cluster, c: K.Cluster, p: nat, T: nat) returns (c': K.Cluster)
    requires Live(n, b, c) && p < n && |c.servers| == n && c.servers[p].node.currentTerm < T
    ensures Live(n, b, c') && OnlyNode(c, c', p)
    ensures Campaigning(c'.servers[p].node, T, {}) && SameLog(c.servers[p].node, c'.servers[p].node)
    decreases T - c.servers[p].node.currentTerm
  {
    hide Live, R.StartElection;
    PeerOk(n, b, c, p);
    var x := c.servers[p].node;
    ElectionExactly(x);
    Apart(n, b, c);
    var c1 := TimesOut(b, c, p);
    Together(n, b, c, c1);
    if x.currentTerm + 1 == T {
      c' := c1;
    } else {
      c' := RunsTo(n, b, c1, p, T);
    }
  }

  lemma Apart(n: nat, b: K.Cluster, c: K.Cluster)
    requires Live(n, b, c)
    ensures From(b, c) && |c.servers| == n
  {
    LiveReachable(n, b, c);
  }

  lemma Together(n: nat, b: K.Cluster, c: K.Cluster, c': K.Cluster)
    requires Live(n, b, c) && From(b, c')
    ensures Live(n, b, c')
  {
  }

  /** Voter v has not reached the term and is no further than the candidate. */
  ghost predicate WillVote(c: K.Cluster, p: nat, v: nat, T: nat)
    requires p < |c.servers|
  {
    && v < |c.servers| && v != p
    && c.servers[v].node.currentTerm < T && NotBehind(c.servers[p].node, c.servers[v].node)
  }

  /** Nothing but terms, votes and roles of peers has changed, and no term has passed T. */
  ghost predicate OnlyTerms(c: K.Cluster, c': K.Cluster, T: nat) {
    && |c'.servers| == |c.servers|
    && (forall q: nat :: q < |c.servers| ==> TermsOnly(c.servers[q], c'.servers[q], T))
  }

  ghost predicate TermsOnly(s: K.Server, s': K.Server, T: nat) {
    && s' == s.(node := s'.node) && SameLog(s.node, s'.node)
    && (s.node.currentTerm <= T ==> s'.node.currentTerm <= T)
  }

  lemma OnlyTermsSince(c: K.Cluster, c1: K.Cluster, c2: K.Cluster, T: nat)
    requires OnlyTerms(c, c1, T) && OnlyTerms(c1, c2, T)
    ensures OnlyTerms(c, c2, T)
  {
    forall q: nat | q < |c.servers| ensures TermsOnly(c.servers[q], c2.servers[q], T) {
      assert TermsOnly(c.servers[q], c1.servers[q], T) && TermsOnly(c1.servers[q], c2.servers[q], T);
    }
  }

  /** The leader of term T knows of nothing on the others. */
  ghost predicate FreshLeader(x: R.Node, n: nat, T: nat) {
    && x.role == Leader && x.currentTerm == T
    && |x.nextIndex| == n && forall q: nat :: q < n ==> x.nextIndex[q] == Last(x) + 1
  }

  /** One more vote. */
  lemma OneVote(n: nat, b: K.Cluster, c: K.Cluster, p: nat, T: nat, S: set<nat>, v: nat) returns (c': K.Cluster)
    requires Live(n, b, c) && p < n && |c.servers| == n && Campaigning(c.servers[p].node, T, S)
    requires WillVote(c, p, v, T) && v !in S
    ensures Live(n, b, c') && |c'.servers| == n
    ensures forall q: nat :: q < n && q != p && q != v ==> c'.servers[q] == c.servers[q]
    ensures OnlyTerms(c, c', T)
    ensures var x' := c'.servers[p].node;
      if 2 * (|S| + 2) > n then FreshLeader(x', n, T) else Campaigning(x', T, S + {v})
  {
    hide Live, R.RequestVote, R.OnVoteReply;
    PeerOk(n, b, c, p);
    PeerOk(n, b, c, v);
    Apart(n, b, c);
    var x, y := c.servers[p].node, c.servers[v].node;
    var va := R.MakeVoteArgs(x);
    VoteExactly(y, va);
    assert x.asked + {v} == S + {v};
    c' := Votes(b, c, p, v);
    Together(n, b, c, c');
    VoteReplyExactly(x.(asked := x.asked + {v}), T, v, R.VoteReply(T, true));
    ReplyKeeps(x.(asked := x.asked + {v}), T, v, R.VoteReply(T, true));
  }

  lemma ReplyKeeps(x: R.Node, t: nat, v: nat, r: R.VoteReply)
    requires R.Ok(x) && r.term <= x.currentTerm
    ensures var x' := R.OnVoteReply(x, t, v, r); SameLog(x, x') && x'.asked == x.asked && x'.n == x.n
    ensures var x' := R.OnVoteReply(x, t, v, r); |x'.nextIndex| == x.n && (x'.role == Leader || x'.role == x.role)
  {
  }

  /** What an election leaves: a leader of term T, and nothing but terms, votes and roles changed. */
  ghost predicate Elected(c: K.Cluster, c': K.Cluster, p: nat, T: nat) {
    OnlyTerms(c, c', T) && p < |c'.servers| && FreshLeader(c'.servers[p].node, |c.servers|, T)
  }

  /** The votes of a majority make the candidate leader. */
  lemma {:induction false} Wins(n: nat, b: K.Cluster, c: K.Cluster, p: nat, T: nat, S: set<nat>, V: set<nat>)
    returns (c': K.Cluster)
    requires Live(n, b, c) && p < n && |c.servers| == n && Campaigning(c.servers[p].node, T, S)
    requires S !! V && (forall v :: v in V ==> WillVote(c, p, v, T))
    requires 2 * (|S| + 1) <= n < 2 * (|S| + |V| + 1)
    ensures Live(n, b, c') && Elected(c, c', p, T)
    decreases |V|
  {
    hide Live, Campaigning, OnlyTerms, FreshLeader, NotBehind;
    var v :| v in V;
    var c1 := OneVote(n, b, c, p, T, S, v);
    if 2 * (|S| + 2) > n {
      c' := c1;
    } else {
      forall u | u in V - {v} ensures WillVote(c1, p, u, T) { StillWilling(c, c1, p, u, T); }
      c' := Wins(n, b, c1, p, T, S + {v}, V - {v});
      OnlyTermsSince(c, c1, c', T);
    }
  }

  lemma StillWilling(c: K.Cluster, c1: K.Cluster, p: nat, u: nat, T: nat)
    requires p < |c.servers| && WillVote(c, p, u, T) && OnlyTerms(c, c1, T) && c1.servers[u] == c.servers[u]
    ensures WillVote(c1, p, u, T)
  {
    assert TermsOnly(c.servers[p], c1.servers[p], T);
  }

  /** Some term is beyond those of all peers. */
  lemma {:induction false} BeyondAll(servers: seq<K.Server>) returns (T: nat)
    ensures forall s :: s in servers ==> s.node.currentTerm < T
  {
    if servers == [] {
      T := 0;
    } else {
      var last := servers[|servers| - 1];
      T := BeyondAll(servers[..|servers| - 1]);
      T := MaxOf(T, last.node.currentTerm + 1);
      assert servers == servers[..|servers| - 1] + [last];
    }
  }

  /** From every reachable cluster a peer that is at least as up to date as enough others to make a majority can come to
      lead, with its log and every service as they were. */
  lemma CanElect(n: nat, c: K.Cluster, p: nat, V: set<nat>) returns (acts: seq<K.Action>, c': K.Cluster, T: nat)
    requires Reachable(n, c) && p < n && 1 < n < 2 * (|V| + 1) && |c.servers| == n
    requires forall v :: v in V ==> v < n && v != p && NotBehind(c.servers[p].node, c.servers[v].node)
    ensures K.Reaches(c, acts, c') && Elected(c, c', p, T)
    ensures forall q: nat :: q < n ==> c.servers[q].node.currentTerm < T
  {
    hide Reachable, NotBehind, OnlyTerms, FreshLeader;
    AtFirst(n, c);
    T := BeyondAll(c.servers);
    var c1 := RunsTo(n, c, c, p, T);
    forall v | v in V ensures WillVote(c1, p, v, T) { SameOrder(c, c1, p, v); }
    var c2 := Wins(n, c, c1, p, T, {}, V);
    RanOnlyTerms(c, c1, p, T);
    OnlyTermsSince(c, c1, c2, T);
    c' := c2;
    acts := ActsOf(n, c, c');
  }

  lemma AtFirst(n: nat, c: K.Cluster)
    requires Reachable(n, c)
    ensures Live(n, c, c)
  {
    hide Reachable;
    AppliedInOrderAny(n, c);
    FromSelf(c);
  }

  lemma AppliedInOrderAny(n: nat, c: K.Cluster)
    requires Reachable(n, c)
    ensures !c.panicked
  {
    hide Reachable, Inv, ServerSim;
    var w := ReachSim(n, c);
  }

  lemma SameOrder(c: K.Cluster, c1: K.Cluster, p: nat, v: nat)
    requires OnlyNode(c, c1, p) && v < |c.servers| && v != p && NotBehind(c.servers[p].node, c.servers[v].node)
    requires SameLog(c.servers[p].node, c1.servers[p].node)
    ensures NotBehind(c1.servers[p].node, c1.servers[v].node)
  {
  }

  lemma RanOnlyTerms(c: K.Cluster, c1: K.Cluster, p: nat, T: nat)
    requires OnlyNode(c, c1, p) && SameLog(c.servers[p].node, c1.servers[p].node) && c1.servers[p].node.currentTerm <= T
    ensures OnlyTerms(c, c1, T)
  {
  }

  lemma ActsOf(n: nat, b: K.Cluster, c: K.Cluster) returns (acts: seq<K.Action>)
    requires Live(n, b, c)
    ensures K.Reaches(b, acts, c)
  {
    acts :| K.Reaches(b, acts, c);
  }
}
