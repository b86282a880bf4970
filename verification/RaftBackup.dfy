/** The fast backup is sound: what a rejection makes a leader skip could not have matched, however late it arrives. */
module RaftBackup {
  import opened RaftTypes
  import opened Consensus
  import opened ConsensusProof
  import opened Simulation
  import opened SimulationRsm
  import opened RaftSafety
  import opened Drive
  import R = RaftNode
  import K = Cluster
  import Rsm

  ghost predicate AscendingTerms(log: seq<Entry>) {
    forall i, j :: 0 <= i <= j < |log| ==> log[i].term <= log[j].term
  }

  lemma NodeAscends(n: nat, c: K.Cluster, p: nat)
    requires Reachable(n, c) && p < |c.servers|
    ensures AscendingTerms(c.servers[p].node.log)
  {
    hide Inv, Matches, Compacts;
    var w := Views(n, c);
    var x, L := c.servers[p].node, w.peers[p].log;
    LogsMatchPeer(w, p);
    InvTerms(w);
    CompactsLength(x.log, x.lastIncludedIndex, L);
    forall i, j | 0 <= i <= j < |x.log| ensures x.log[i].term <= x.log[j].term {
      CompactsAt(x.log, x.lastIncludedIndex, L, x.lastIncludedIndex + i);
      CompactsAt(x.log, x.lastIncludedIndex, L, x.lastIncludedIndex + j);
      TermsAscend(w, L, x.lastIncludedIndex + i, x.lastIncludedIndex + j);
    }
  }

  lemma InvTerms(w: World)
    requires Inv(w)
    ensures Terms(w)
  {
  }

  /** Both logs hold index j, with the same term. */
  ghost predicate CouldMatch(a: R.Node, b: R.Node, j: nat) {
    && a.lastIncludedIndex <= j < a.lastIncludedIndex + |a.log|
    && b.lastIncludedIndex <= j < b.lastIncludedIndex + |b.log|
    && R.EntryAt(a, j).term == R.EntryAt(b, j).term
  }

  /** Where the hints of a rejection point in the log of a. */
  function Hint(a: R.Node, r: R.AppendReply): nat
    requires |a.log| > 0
  {
    if r.xTerm == -1 then r.xLen
    else
      var i := R.LastOfTerm(a.log, r.xTerm, |a.log| - 1);
      if a.log[i].term == r.xTerm then a.lastIncludedIndex + i + 1 else r.xIndex
  }

  /** b refuses args for its log, not for its term. */
  ghost predicate Refuses(b: R.Node, args: R.AppendArgs, r: R.AppendReply) {
    |b.log| > 0 && args.term >= b.currentTerm && r == R.AppendEntries(b, args).1 && !r.success
  }

  /** Whatever the log of a: from the hint up to the index that was tried it differs from what b held then. */
  lemma SkipsNone(a: R.Node, b: R.Node, args: R.AppendArgs, r: R.AppendReply, j: nat)
    requires |a.log| > 0 && AscendingTerms(a.log) && AscendingTerms(b.log) && Refuses(b, args, r)
    requires Hint(a, r) <= j <= args.prevLogIndex
    ensures !CouldMatch(a, b, j)
  {
    if b.lastIncludedIndex <= args.prevLogIndex <= R.LastIndex(b) {
      var i := R.LastOfTerm(a.log, r.xTerm, |a.log| - 1);
      assert r.xTerm == R.EntryAt(b, args.prevLogIndex).term;
    }
  }

  function Floor(a: R.Node): nat {
    if a.lastIncludedIndex > 1 then a.lastIncludedIndex else 1
  }

  /** What a leader makes of a rejection in its own term. */
  lemma Falls(a: R.Node, q: nat, args: R.AppendArgs, r: R.AppendReply)
    requires R.Ok(a) && q < a.n && a.role == Leader && a.currentTerm == args.term == r.term && !r.success
    requires a.nextIndex[q] <= args.prevLogIndex + 1
    ensures var a' := R.OnAppendReply(a, q, args, r); var k := a.nextIndex[q];
      && q < |a'.nextIndex|
      && (Hint(a, r) < k ==> a'.nextIndex[q] == if Hint(a, r) < Floor(a) then Floor(a) else Hint(a, r))
      && (Hint(a, r) >= k ==> a'.nextIndex[q] == if k - 1 < Floor(a) then Floor(a) else k - 1)
  {
  }

  lemma RefusedTerm(b: R.Node, args: R.AppendArgs, r: R.AppendReply)
    requires Refuses(b, args, r)
    ensures r.term == args.term
  {
  }

  /** Peer q refused the request when the cluster was in state c; later, in c', leader p handles that rejection. */
  ghost predicate Handles(n: nat, c: K.Cluster, q: nat, args: R.AppendArgs, r: R.AppendReply, acts: seq<K.Action>,
                          c': K.Cluster, p: nat) {
    && Reachable(n, c) && K.Enabled(c, K.OnAppReq(q, K.AppReq(q, args))) && Refuses(c.servers[q].node, args, r)
    && K.Reaches(K.Step(c, K.OnAppReq(q, K.AppReq(q, args))), acts, c')
    && K.Enabled(c', K.OnAppRep(p, K.AppRep(q, args, r))) && K.Indexable(c', K.OnAppRep(p, K.AppRep(q, args, r)))
    && var a := c'.servers[p].node;
      a.role == Leader && a.currentTerm == args.term && a.nextIndex[q] <= args.prevLogIndex + 1
  }

  /** However many other replies the leader has handled meanwhile: if the hint lies below its nextIndex, it falls back
      to it (but not below max(1, lastIncludedIndex)), and no index from there up to the one that was tried could have
      matched what the peer held when it refused. Otherwise the reply says nothing new, and nextIndex falls by one. */
  lemma BackupSkipsNoMatch(n: nat, c: K.Cluster, q: nat, args: R.AppendArgs, r: R.AppendReply, acts: seq<K.Action>,
                           c': K.Cluster, p: nat)
    requires Handles(n, c, q, args, r, acts, c', p)
    ensures var a := c'.servers[p].node; var a' := K.Step(c', K.OnAppRep(p, K.AppRep(q, args, r))).servers[p].node;
      && q < |a'.nextIndex|
      && (Hint(a, r) < a.nextIndex[q] ==>
            && a'.nextIndex[q] == (if Hint(a, r) < Floor(a) then Floor(a) else Hint(a, r))
            && forall j: nat :: a'.nextIndex[q] <= j <= args.prevLogIndex ==> !CouldMatch(a, c.servers[q].node, j))
      && (Hint(a, r) >= a.nextIndex[q] ==>
            a'.nextIndex[q] == if a.nextIndex[q] - 1 < Floor(a) then Floor(a) else a.nextIndex[q] - 1)
  {
    hide Reachable, K.Reaches, AscendingTerms, Hint, CouldMatch, R.AppendEntries, R.OnAppendReply;
    var m := K.AppReq(q, args);
    StepReachable(n, c, K.OnAppReq(q, m));
    RunReachable(n, K.Step(c, K.OnAppReq(q, m)), acts, c');
    NodeAscends(n, c, q);
    NodeAscends(n, c', p);
    RefusedTerm(c.servers[q].node, args, r);
    Falls(c'.servers[p].node, q, args, r);
    var a := c'.servers[p].node;
    forall j: nat | Hint(a, r) <= j <= args.prevLogIndex ensures !CouldMatch(a, c.servers[q].node, j) {
      SkipsNone(a, c.servers[q].node, args, r, j);
    }
  }

  // ----- a rejection handled twice -----

  /** Peer 1 leads term 1, has three entries and gave peer 0 the first. */
  lemma Leaves() returns (c: K.Cluster, log: seq<Entry>)
    ensures From(K.Init(5), c) && |c.servers| == 5 && |log| == 4
    ensures Holds(c.servers[1].node, 1, 1, log, 0) && Holds(c.servers[0].node, 0, 1, log[..2], 0)
    ensures Willing(c.servers[3], 3, 2) && Willing(c.servers[4], 4, 2)
  {
    hide From, R.StartElection, R.AppendEntries, R.Replicate, Rsm.Submit, K.Init;
    var b := K.Init(5);
    Starts();
    Runs(b.servers[1].node, 1, 0, [ZERO]);
    var c1 := TimesOut(b, b, 1);
    var c2 := Elects(b, c1, 1, 1, [ZERO]);
    assert Zeros()[1 := 0] == Zeros();
    var c3 := SubmitsGets(b, c2, 1, 1, 1);
    var one := [ZERO] + Gets(1, 1, 1);
    SendsTail(c3.servers[1].node, 1, 1, one, 0);
    Takes(c3.servers[0].node, 0, 0, [ZERO], Args(1, 1, one, 1, 0));
    var c4 := Sends(b, c3, 1, 0, Args(1, 1, one, 1, 0));
    Adds(c4.servers[1], 1, 1, one, All(1)[1 := 2], Zeros()[1 := 1], GET);
    var c5 := Submits(b, c4, 1, GET);
    var two := c5.servers[1].node.log;
    Adds(c5.servers[1], 1, 1, two, All(1)[1 := 2][1 := 3], Zeros()[1 := 1][1 := 2], GET);
    c := Submits(b, c5, 1, GET);
    log := c.servers[1].node.log;
    assert [ZERO][..1] + one[1..] == one == log[..2];
  }

  /** The second time the hint is no longer below nextIndex. */
  lemma FallsOnce(a: R.Node, log: seq<Entry>, next: seq<nat>, matched: seq<nat>)
    requires |log| == 4 && |next| == 5 && next[0] == 2 && Leads(a, 1, 2, log, next, matched, 0)
    ensures var a' := R.OnAppendReply(a, 0, Args(1, 2, log, 4, 0), R.AppendReply(2, false, -1, 0, 2));
      |a'.nextIndex| == 5 && a'.nextIndex[0] == 1
  {
  }

  /** In term 2 peer 1 sends peer 0 everything above its log. */
  lemma Tries() returns (c: K.Cluster, log: seq<Entry>)
    ensures From(K.Init(5), c) && |c.servers| == 5 && |log| == 4 && K.AppReq(0, Args(1, 2, log, 4, 0)) in c.net
    ensures Leads(c.servers[1].node, 1, 2, log, All(4), Zeros()[1 := 3], 0)
    ensures Holds(c.servers[0].node, 0, 1, log[..2], 0)
  {
    hide From, R.StartElection, R.Replicate, K.Init;
    var b := K.Init(5);
    var c0: K.Cluster;
    c0, log := Leaves();
    Runs(c0.servers[1].node, 1, 1, log);
    var c1 := TimesOut(b, c0, 1);
    var c2 := Elects(b, c1, 1, 2, log);
    SendsTail(c2.servers[1].node, 1, 2, log, 0);
    Running(b, c2);
    Go(b, c2, K.Send(1, 0));
    c := K.Step(c2, K.Send(1, 0));
  }

  /** Peer 1 handles a rejection of peer 0's twice: the second time it skips an index that matches. */
  lemma RepeatSkipsMatch()
    returns (c: K.Cluster, args: R.AppendArgs, r: R.AppendReply, acts: seq<K.Action>, c': K.Cluster)
    ensures Handles(5, c, 0, args, r, acts, c', 1)
    ensures var a := c'.servers[1].node; var a' := K.Step(c', K.OnAppRep(1, K.AppRep(0, args, r))).servers[1].node;
      && |a'.nextIndex| == 5 && a'.nextIndex[0] <= 1 <= args.prevLogIndex && CouldMatch(a, c.servers[0].node, 1)
  {
    hide From, R.AppendEntries, R.OnAppendReply, K.Init, Reachable;
    var log: seq<Entry>;
    c, log := Tries();
    Running(K.Init(5), c);
    Arrived(c);
    args, r := Args(1, 2, log, 4, 0), R.AppendReply(2, false, -1, 0, 2);
    Rejects(c.servers[0].node, 0, 1, log[..2], args);
    var m, rep := K.AppReq(0, args), K.AppRep(0, args, r);
    var c1 := K.Step(c, K.OnAppReq(0, m));
    FallsBack(c1.servers[1].node, 1, 2, log, All(4), Zeros()[1 := 3], 0, 0, r, 2);
    c' := K.Step(c1, K.OnAppRep(1, rep));
    acts := [K.OnAppRep(1, rep)];
    assert K.Reaches(c', [], c') && acts[1..] == [];
    FallsOnce(c'.servers[1].node, log, All(4)[0 := 2], Zeros()[1 := 3]);
  }
}
