/** Concrete runs of a cluster: what a few steps at a time do, for peers that have compacted and applied nothing. */
module Drive {
  import opened Options
  import opened RaftTypes
  import opened RaftNode
  import opened Cluster
  import RaftSafety
  import Kv
  import Rsm
  import Sorting

  // ----- steps -----

  /** c is reached from b. */
  ghost predicate From(b: Cluster, c: Cluster) {
    !c.panicked && exists acts :: Reaches(b, acts, c)
  }

  lemma FromSelf(b: Cluster)
    requires !b.panicked
    ensures From(b, b)
  {
    assert Reaches(b, [], b);
  }

  lemma Go(b: Cluster, c: Cluster, a: Action)
    requires From(b, c) && Enabled(c, a) && !Step(c, a).panicked
    ensures From(b, Step(c, a))
  {
    hide Enabled, Step, Reaches;
    var acts :| Reaches(b, acts, c);
    RaftSafety.ReachesNext(b, acts, c, a);
  }

  lemma Running(b: Cluster, c: Cluster)
    requires From(b, c)
    ensures !c.panicked
  {
  }

  /** Server p with its peer in state n. */
  function With(c: Cluster, p: nat, n: Node): seq<Server>
    requires p < |c.servers|
  {
    c.servers[p := c.servers[p].(node := n)]
  }

  lemma TimesOut(b: Cluster, c: Cluster, p: nat) returns (c': Cluster)
    requires From(b, c) && p < |c.servers| && Ok(c.servers[p].node)
    ensures From(b, c') && c'.servers == With(c, p, StartElection(c.servers[p].node))
  {
    hide From, StartElection;
    Running(b, c);
    Go(b, c, Timeout(p));
    c' := Step(c, Timeout(p));
  }

  /** Candidate p asks v and gets its vote. */
  lemma Votes(b: Cluster, c: Cluster, p: nat, v: nat) returns (c': Cluster)
    requires From(b, c) && p < |c.servers| && v < |c.servers| && p != v
    requires var n := c.servers[p].node;
      && Ok(n) && n.me == p && n.n == |c.servers| && n.role == Candidate && v !in n.asked && v !in n.heard
      && Ok(c.servers[v].node) && RequestVote(c.servers[v].node, MakeVoteArgs(n)).1 == VoteReply(n.currentTerm, true)
    ensures var n := c.servers[p].node;
      && From(b, c') && Ok(n.(asked := n.asked + {v}))
      && c'.servers == c.servers
        [v := c.servers[v].(node := RequestVote(c.servers[v].node, MakeVoteArgs(n)).0)]
        [p := c.servers[p].(node := OnVoteReply(n.(asked := n.asked + {v}), n.currentTerm, v,
                                                VoteReply(n.currentTerm, true)))]
  {
    hide From, RequestVote, OnVoteReply;
    Running(b, c);
    var n := c.servers[p].node;
    var va := MakeVoteArgs(n);
    Go(b, c, AskVote(p, v));
    var c1 := Step(c, AskVote(p, v));
    var req := VoteReq(v, va);
    Go(b, c1, OnVoteReq(v, req));
    var c2 := Step(c1, OnVoteReq(v, req));
    var rep := VoteRep(v, va, VoteReply(n.currentTerm, true));
    Go(b, c2, OnVoteRep(p, rep));
    c' := Step(c2, OnVoteRep(p, rep));
  }

  /** Leader p sends q what it lacks; q handles it. */
  lemma Sends(b: Cluster, c: Cluster, p: nat, q: nat, aa: AppendArgs) returns (c': Cluster)
    requires From(b, c) && p < |c.servers| && q < |c.servers| && p != q
    requires var n := c.servers[p].node;
      Ok(n) && n.me == p && n.n == |c.servers| && n.role == Leader && Replicate(n, q) == SendAppend(aa)
    requires Ok(c.servers[q].node)
    ensures From(b, c') && c'.servers == With(c, q, AppendEntries(c.servers[q].node, aa).0)
    ensures AppRep(q, aa, AppendEntries(c.servers[q].node, aa).1) in c'.net
  {
    hide From, AppendEntries, Replicate;
    Running(b, c);
    Go(b, c, Send(p, q));
    var c1 := Step(c, Send(p, q));
    var req := AppReq(q, aa);
    Go(b, c1, OnAppReq(q, req));
    c' := Step(c1, OnAppReq(q, req));
  }

  /** The leader gets the reply to what it sent. */
  lemma Hears(b: Cluster, c: Cluster, p: nat, q: nat, aa: AppendArgs, r: AppendReply) returns (c': Cluster)
    requires From(b, c) && p < |c.servers| && q < |c.servers| && aa.leader == p && AppRep(q, aa, r) in c.net
    requires Ok(c.servers[p].node) && c.servers[p].node.n == |c.servers|
    ensures From(b, c') && c'.servers == With(c, p, OnAppendReply(c.servers[p].node, q, aa, r))
  {
    hide From, OnAppendReply;
    Running(b, c);
    var rep := AppRep(q, aa, r);
    Go(b, c, OnAppRep(p, rep));
    c' := Step(c, OnAppRep(p, rep));
  }

  /** One exchange between leader p and peer q. */
  lemma Ships(b: Cluster, c: Cluster, p: nat, q: nat, aa: AppendArgs) returns (c': Cluster)
    requires From(b, c) && p < |c.servers| && q < |c.servers| && p != q && aa.leader == p
    requires var n := c.servers[p].node;
      Ok(n) && n.me == p && n.n == |c.servers| && n.role == Leader && Replicate(n, q) == SendAppend(aa)
    requires Ok(c.servers[q].node)
    ensures From(b, c')
    ensures var (m, r) := AppendEntries(c.servers[q].node, aa);
      c'.servers == c.servers[q := c.servers[q].(node := m)]
                    [p := c.servers[p].(node := OnAppendReply(c.servers[p].node, q, aa, r))]
  {
    hide From, AppendEntries, Replicate, OnAppendReply;
    var c1 := Sends(b, c, p, q, aa);
    c' := Hears(b, c1, p, q, aa, AppendEntries(c.servers[q].node, aa).1);
  }

  lemma Submits(b: Cluster, c: Cluster, p: nat, req: Kv.Request) returns (c': Cluster)
    requires From(b, c) && p < |c.servers| && Ok(c.servers[p].node)
    ensures From(b, c') && Enabled(c, Submit(p, req)) && c' == Step(c, Submit(p, req))
    ensures var s := c.servers[p]; var (r', n') := Rsm.Submit(s.rsm, s.node, req);
      c'.servers == c.servers[p := s.(rsm := r', node := n')]
  {
    hide From, Rsm.Submit;
    Running(b, c);
    Go(b, c, Submit(p, req));
    c' := Step(c, Submit(p, req));
  }

  lemma Crashes(b: Cluster, c: Cluster, p: nat) returns (c': Cluster)
    requires From(b, c) && p < |c.servers| && Ok(c.servers[p].node)
    ensures From(b, c')
    ensures var s := c.servers[p];
      c'.servers == c.servers[p := Boot(s.node.me, s.node.n, s.rsm.life + 1, s.node.disk)]
  {
    hide From, Boot;
    Running(b, c);
    Go(b, c, Crash(p));
    c' := Step(c, Crash(p));
  }

  /** The applier delivers the next command and the reader takes it. */
  lemma Applies(b: Cluster, c: Cluster, p: nat) returns (c': Cluster)
    requires From(b, c) && p < |c.servers| && c.servers[p].applyCh == []
    requires var n := c.servers[p].node; Ok(n) && CanDeliver(n) && InRange(n) && n.pending == NoPending
    ensures From(b, c')
    ensures var s := c.servers[p]; var (n', msg) := Deliver(s.node);
      c'.servers == c.servers[p := Server(n', Rsm.Read(s.rsm, msg), [])]
  {
    hide From, Rsm.Read;
    Running(b, c);
    Go(b, c, Apply(p));
    var c1 := Step(c, Apply(p));
    var msg := Deliver(c.servers[p].node).1;
    assert c1.servers[p].applyCh == [msg] && [msg][1..] == [];
    Go(b, c1, Read(p));
    c' := Step(c1, Read(p));
    assert c'.servers[p].applyCh == [];
  }

  // ----- peers as they appear in the run -----

  /** A peer of five that has compacted and applied nothing. */
  ghost predicate Holds(n: Node, me: nat, term: nat, log: seq<Entry>, commit: nat) {
    && Ok(n) && n.me == me && n.n == 5 && n.currentTerm == term && n.log == log && n.commitIndex == commit
    && n.snapshot == NoSnap && n.lastIncludedIndex == 0 && n.lastIncludedTerm == 0
    && n.lastApplied == 0 && n.pending == NoPending
    && |log| > 0 && log[0] == ZERO
  }

  ghost predicate Saves(n: Node) {
    n.disk == DiskOf(n)
  }

  ghost predicate Campaigns(n: Node, me: nat, term: nat, log: seq<Entry>) {
    && Holds(n, me, term, log, 0) && Saves(n)
    && n.role == Candidate && n.votes == 1 && n.asked == {} && n.heard == {} && n.granted == {}
  }

  ghost predicate Leads(n: Node, me: nat, term: nat, log: seq<Entry>, next: seq<nat>, matched: seq<nat>, commit: nat) {
    && Holds(n, me, term, log, commit) && Saves(n)
    && n.role == Leader && n.nextIndex == next && n.matchIndex == matched
  }

  function Zeros(): seq<nat> { [0, 0, 0, 0, 0] }

  function All(k: nat): seq<nat> { [k, k, k, k, k] }

  lemma Runs(n: Node, me: nat, term: nat, log: seq<Entry>)
    requires Holds(n, me, term, log, 0)
    ensures Campaigns(StartElection(n), me, term + 1, log)
  {
  }

  /** A peer with an empty log votes for anyone in a later term. */
  lemma Grants(n: Node, v: nat, term: nat, a: VoteArgs)
    requires Holds(n, v, term, [ZERO], 0) && term < a.term
    ensures var (n', r) := RequestVote(n, a); Holds(n', v, a.term, [ZERO], 0) && r == VoteReply(a.term, true)
  {
  }

  lemma Counts(n: Node, me: nat, term: nat, log: seq<Entry>)
    requires me < 3 && Campaigns(n, me, term, log)
    ensures Ok(n.(asked := {3}))
    ensures var n1 := OnVoteReply(n.(asked := {3}), term, 3, VoteReply(term, true));
      && Holds(n1, me, term, log, 0) && Saves(n1)
      && n1.role == Candidate && n1.votes == 2 && n1.asked == {3} && n1.heard == {3} && n1.granted == {3}
  {
  }

  lemma Wins(n: Node, me: nat, term: nat, log: seq<Entry>)
    requires me < 3 && Holds(n, me, term, log, 0) && Saves(n)
    requires n.role == Candidate && n.votes == 2 && n.asked == {3} && n.heard == {3} && n.granted == {3}
    ensures Leads(OnVoteReply(n.(asked := {3, 4}), term, 4, VoteReply(term, true)), me, term, log,
                  All(|log|), Zeros()[me := |log| - 1], 0)
  {
    var n2 := OnVoteReply(n.(asked := {3, 4}), term, 4, VoteReply(term, true));
    assert n2.nextIndex == All(|log|) && n2.matchIndex == Zeros()[me := |log| - 1];
  }

  /** Peer v has an empty log and has not reached the term. */
  ghost predicate Willing(s: Server, v: nat, term: nat) {
    s.node.currentTerm < term && Holds(s.node, v, s.node.currentTerm, [ZERO], 0)
  }

  /** A candidate among peers 0, 1 and 2 is elected by peers 3 and 4. */
  lemma Elects(b: Cluster, c: Cluster, p: nat, term: nat, log: seq<Entry>) returns (c': Cluster)
    requires From(b, c) && |c.servers| == 5 && p < 3
    requires Campaigns(c.servers[p].node, p, term, log) && Willing(c.servers[3], 3, term)
    requires Willing(c.servers[4], 4, term)
    ensures From(b, c') && |c'.servers| == 5
    ensures forall q: nat :: q < 3 && q != p ==> c'.servers[q] == c.servers[q]
    ensures c'.servers[p] == c.servers[p].(node := c'.servers[p].node)
    ensures Leads(c'.servers[p].node, p, term, log, All(|log|), Zeros()[p := |log| - 1], 0)
    ensures Holds(c'.servers[3].node, 3, term, [ZERO], 0) && Holds(c'.servers[4].node, 4, term, [ZERO], 0)
  {
    hide From, RequestVote, OnVoteReply, Saves, Zeros, All;
    var n := c.servers[p].node;
    var va := MakeVoteArgs(n);
    Counts(n, p, term, log);
    Grants(c.servers[3].node, 3, c.servers[3].node.currentTerm, va);
    Grants(c.servers[4].node, 4, c.servers[4].node.currentTerm, va);
    assert {} + {3} == {3} && {3} + {4} == {3, 4};
    var c1 := Votes(b, c, p, 3);
    assert MakeVoteArgs(c1.servers[p].node) == va;
    Wins(c1.servers[p].node, p, term, log);
    c' := Votes(b, c1, p, 4);
  }

  // ----- what peers and leaders make of AppendEntries -----

  /** A peer whose log agrees up to prev, and not right after it, ends with the entries. */
  lemma Takes(n: Node, me: nat, term: nat, log: seq<Entry>, a: AppendArgs)
    requires Holds(n, me, term, log, 0) && a.term >= term && a.prevLogIndex < |log| && |a.entries| > 0
    requires log[a.prevLogIndex].term == a.prevLogTerm
    requires a.prevLogIndex + 1 == |log| || log[a.prevLogIndex + 1].term != a.entries[0].term
    ensures var (n', r) := AppendEntries(n, a); var log' := log[..a.prevLogIndex + 1] + a.entries;
      && Holds(n', me, a.term, log', Min(a.leaderCommit, |log'| - 1)) && Saves(n')
      && r == AppendReply(a.term, true, 0, 0, 0)
  {
    var k := a.prevLogIndex + 1;
    if k == |log| {
      assert log[..k] == log;
      MergeEnd(log, a.entries);
    }
  }

  lemma {:induction false} MergeEnd(log: seq<Entry>, es: seq<Entry>)
    ensures Merge(log, |log|, es) == log + es
    decreases |es|
  {
    if es == [] {
      assert log + es == log;
    } else {
      MergeEnd(log + [es[0]], es[1..]);
      assert log + [es[0]] + es[1..] == log + es;
    }
  }

  lemma Rejects(n: Node, me: nat, term: nat, log: seq<Entry>, a: AppendArgs)
    requires Holds(n, me, term, log, 0) && a.term >= term
    requires a.prevLogIndex >= |log| || log[a.prevLogIndex].term != a.prevLogTerm
    ensures var (n', r) := AppendEntries(n, a); var prev := a.prevLogIndex;
      && Holds(n', me, a.term, log, 0)
      && (prev >= |log| ==> r == AppendReply(a.term, false, -1, 0, |log|))
      && (prev < |log| ==> r == AppendReply(a.term, false, log[prev].term, FirstOfTerm(log, prev), |log|))
  {
  }

  /** What leader `me` sends to a peer whose nextIndex is k. */
  function Args(me: nat, term: nat, log: seq<Entry>, k: nat, commit: nat): AppendArgs
    requires 0 < k <= |log|
  {
    AppendArgs(term, me, k - 1, log[k - 1].term, log[k..], commit)
  }

  lemma SendsTail(n: Node, me: nat, term: nat, log: seq<Entry>, q: nat)
    requires Holds(n, me, term, log, n.commitIndex) && n.role == Leader && q < 5 && 0 < n.nextIndex[q] <= |log|
    ensures Replicate(n, q) == SendAppend(Args(me, term, log, n.nextIndex[q], n.commitIndex))
  {
  }

  /** A rejection that sends the leader back to index k. */
  lemma FallsBack(n: Node, me: nat, term: nat, log: seq<Entry>, next: seq<nat>, matched: seq<nat>, commit: nat, q: nat,
                  r: AppendReply, k: nat)
    requires Leads(n, me, term, log, next, matched, commit) && |next| == 5 && q < 5 && 0 < k < next[q] <= |log|
    requires !r.success && r.term == term
    requires
      || (r.xTerm == -1 && r.xLen == k)
      || (r.xTerm >= 0 && r.xIndex == k && forall i :: 0 <= i < |log| ==> log[i].term != r.xTerm)
    ensures Leads(OnAppendReply(n, q, Args(me, term, log, next[q], commit), r), me, term, log,
                  next[q := k], matched, commit)
  {
    var i := LastOfTerm(n.log, r.xTerm, |n.log| - 1);
  }

  /** A peer took the whole log. */
  lemma Records(n: Node, me: nat, term: nat, log: seq<Entry>, next: seq<nat>, matched: seq<nat>, commit: nat, q: nat)
    requires Leads(n, me, term, log, next, matched, commit) && |next| == |matched| == 5 && |log| > 1
    requires q < 5 && next[q] == 1 && matched[q] == 0
    requires Sorting.Sort(matched[q := |log| - 1])[2] in {0, |log| - 1} && commit == 0 && log[|log| - 1].term == term
    ensures Leads(OnAppendReply(n, q, Args(me, term, log, 1, commit), AppendReply(term, true, 0, 0, 0)), me, term, log,
                  next[q := |log|], matched[q := |log| - 1], Sorting.Sort(matched[q := |log| - 1])[2])
  {
  }

  lemma SortsTwo(m: nat)
    requires m > 0
    ensures Sorting.Sort([0, m, 0, m, 0])[2] == 0 && Sorting.Sort([0, m, 0, m, m])[2] == m
  {
    SortsLow(m);
    SortsHigh(m);
  }

  lemma SortsLow(m: nat)
    requires m > 0
    ensures Sorting.Sort([0, m, 0, m, 0])[2] == 0
  {
    SortsFirst(m, [0]);
    SortsFirst(0, [m, 0]);
    SortsFirst(m, [0, m, 0]);
    SortsFirst(0, [m, 0, m, 0]);
    assert Sorting.Sort([0]) == [0] by { SortsFirst(0, []); }
    InsertsLast(m, [0]);
    assert Sorting.Sort([0, m, 0]) == [0, 0, m];
    InsertsAfter(m, 0, [0, m]);
    InsertsAfter(m, 0, [m]);
    assert Sorting.Sort([m, 0, m, 0]) == [0, 0, m, m];
  }

  lemma SortsHigh(m: nat)
    requires m > 0
    ensures Sorting.Sort([0, m, 0, m, m])[2] == m
  {
    SortsFirst(m, [m]);
    SortsFirst(0, [m, m]);
    SortsFirst(m, [0, m, m]);
    SortsFirst(0, [m, 0, m, m]);
    assert Sorting.Sort([m]) == [m] by { SortsFirst(m, []); }
    assert Sorting.Sort([0, m, m]) == [0, m, m];
    InsertsAfter(m, 0, [m, m]);
    assert Sorting.Sort([m, 0, m, m]) == [0, m, m, m];
  }

  lemma SortsFirst(x: nat, s: seq<nat>)
    ensures Sorting.Sort([x] + s) == Sorting.Insert(x, Sorting.Sort(s))
  {
    assert ([x] + s)[1..] == s;
  }

  lemma InsertsAfter(x: nat, y: nat, s: seq<nat>)
    requires x > y
    ensures Sorting.Insert(x, [y] + s) == [y] + Sorting.Insert(x, s)
  {
    assert ([y] + s)[1..] == s;
  }

  lemma InsertsLast(x: nat, s: seq<nat>)
    requires s == [0] && x > 0
    ensures Sorting.Insert(x, s) == [0, x]
  {
    InsertsAfter(x, 0, []);
  }

  // ----- repeated steps -----

  const GET: Kv.Request := Kv.Get("k")

  /** The first k operations of peer p's first lifetime, all gets. */
  function Gets(p: nat, term: nat, k: nat): seq<Entry> {
    seq(k, (i: nat) => Entry(term, Run(Op(p, i + 1, 0, GET))))
  }

  /** A leader's Submit. */
  lemma Adds(s: Server, p: nat, term: nat, log: seq<Entry>, next: seq<nat>, matched: seq<nat>, req: Kv.Request)
    requires Leads(s.node, p, term, log, next, matched, 0) && |next| == |matched| == 5 && p < 5 && s.rsm.me == p
    ensures var (r', n') := Rsm.Submit(s.rsm, s.node, req); var op := Op(p, s.rsm.nextId + 1, s.rsm.life, req);
      && Leads(n', p, term, log + [Entry(term, Run(op))], next[p := |log| + 1], matched[p := |log|], 0)
      && r' == s.rsm.(nextId := op.id, waiters := s.rsm.waiters[op.id := Rsm.Waiter(|log|, term, op, None, None)],
                      pending := s.rsm.pending[|log| := op.id])
  {
  }

  lemma {:induction false} SubmitsGets(b: Cluster, c: Cluster, p: nat, term: nat, k: nat) returns (c': Cluster)
    requires From(b, c) && |c.servers| == 5 && p < 5 && Leads(c.servers[p].node, p, term, [ZERO], All(1), Zeros(), 0)
    requires c.servers[p].rsm.me == p && c.servers[p].rsm.life == 0 && c.servers[p].rsm.nextId == 0
    ensures From(b, c') && |c'.servers| == 5 && (forall q: nat :: q < 5 && q != p ==> c'.servers[q] == c.servers[q])
    ensures Leads(c'.servers[p].node, p, term, [ZERO] + Gets(p, term, k), All(1)[p := k + 1], Zeros()[p := k], 0)
    ensures c'.servers[p].rsm.me == p && c'.servers[p].rsm.life == 0 && c'.servers[p].rsm.nextId == k
    decreases k
  {
    hide From, Rsm.Submit;
    if k == 0 {
      c' := c;
      assert All(1)[p := 1] == All(1) && Zeros()[p := 0] == Zeros() && [ZERO] + Gets(p, term, 0) == [ZERO];
    } else {
      var c1 := SubmitsGets(b, c, p, term, k - 1);
      var log := [ZERO] + Gets(p, term, k - 1);
      Adds(c1.servers[p], p, term, log, All(1)[p := k], Zeros()[p := k - 1], GET);
      c' := Submits(b, c1, p, GET);
      assert log + [Entry(term, Run(Op(p, k, 0, GET)))] == [ZERO] + Gets(p, term, k);
      assert All(1)[p := k][p := k + 1] == All(1)[p := k + 1] && Zeros()[p := k - 1][p := k] == Zeros()[p := k];
    }
  }

  /** A peer that does not lead refuses, and hands out an id each time. */
  lemma {:induction false} Refused(b: Cluster, c: Cluster, p: nat, k: nat) returns (c': Cluster)
    requires From(b, c) && p < |c.servers| && Ok(c.servers[p].node) && c.servers[p].node.role != Leader
    ensures From(b, c') && c'.servers == c.servers
      [p := c.servers[p].(rsm := c.servers[p].rsm.(nextId := c.servers[p].rsm.nextId + k))]
    decreases k
  {
    hide From;
    if k == 0 {
      c' := c;
    } else {
      var c1 := Refused(b, c, p, k - 1);
      c' := Submits(b, c1, p, GET);
    }
  }

  lemma {:induction false} Restarts(b: Cluster, c: Cluster, p: nat, term: nat, log: seq<Entry>, k: nat)
    returns (c': Cluster)
    requires From(b, c) && p < |c.servers| && k > 0 && Holds(c.servers[p].node, p, term, log, 0)
    requires Saves(c.servers[p].node)
    ensures From(b, c') && |c'.servers| == |c.servers| && c'.servers == c.servers[p := c'.servers[p]]
    ensures var s := c'.servers[p];
      && Holds(s.node, p, term, log, 0) && Saves(s.node) && s.node.role == Follower
      && s.rsm == Rsm.Boot(p, c.servers[p].rsm.life + k, NoSnap) && s.applyCh == []
    decreases k
  {
    hide From;
    if k == 1 {
      c' := Crashes(b, c, p);
    } else {
      var c1 := Restarts(b, c, p, term, log, k - 1);
      c' := Crashes(b, c1, p);
    }
  }

  // ----- the start -----

  lemma Starts()
    ensures From(Init(5), Init(5)) && |Init(5).servers| == 5
    ensures forall p: nat :: p < 5 ==>
      var s := Init(5).servers[p];
      Holds(s.node, p, 0, [ZERO], 0) && s.rsm.me == p && s.rsm.life == 0 && s.rsm.nextId == 0
  {
    FromSelf(Init(5));
  }

  lemma Arrived(c: Cluster)
    requires From(Init(5), c)
    ensures RaftSafety.Reachable(5, c)
  {
  }
}
