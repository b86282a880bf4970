/** For every id, every index from 2 on, every lifetime after the first and any two requests: a run of five peers in
    which a Submit of that lifetime, with that id at that index, is answered with an operation of the first lifetime.
    Peer 1 leads term 1 and gives peer 0 the entries below the index. Peer 0 leads term 2 and leaves the old operation
    at the index with peer 1 only. Peer 2 leads term 3 and cuts peer 0's log below the index. Peer 0 restarts, leads
    term 4 and submits the new operation. Peer 1 leads term 5 and commits the old one, which peer 0 takes for the new
    one. */
module IdReuse {
  import opened Options
  import opened RaftTypes
  import opened RaftNode
  import opened Cluster
  import opened Drive
  import opened OwnAnswer
  import Linearizability
  import Proposals
  import RaftSafety
  import Kv
  import Rsm
  import Sorting

  // ----- the run -----

  datatype Plan = Plan(id: nat, index: nat, life: nat, x: Kv.Request, y: Kv.Request)

  predicate Possible(d: Plan) {
    d.id > 0 && d.index > 1 && d.life > 0
  }

  /** The log below the index: as peer 1 first makes it, and as peer 2 cuts it. */
  function Low(d: Plan): seq<Entry>
    requires Possible(d)
  {
    [ZERO] + Gets(1, 1, d.index - 1)
  }

  function Short(d: Plan): seq<Entry>
    requires Possible(d)
  {
    [ZERO] + Gets(2, 3, d.index - 1)
  }

  /** The old operation, the new one, and peer 1's in term 5. */
  function X(d: Plan): Entry { Entry(2, Run(Op(0, d.id, 0, d.x))) }
  function Y(d: Plan): Entry { Entry(4, Run(Op(0, d.id, d.life, d.y))) }
  function V(d: Plan): Entry { Entry(5, Run(Op(1, d.index, 0, GET))) }

  function Old(d: Plan): seq<Entry>
    requires Possible(d)
  {
    Low(d) + [X(d)] + [V(d)]
  }

  /** Peer 1's replica after its first lifetime's gets. */
  ghost predicate Done(s: Server, d: Plan)
    requires Possible(d)
  {
    s.rsm.me == 1 && s.rsm.life == 0 && s.rsm.nextId == d.index - 1
  }

  ghost predicate Fresh(s: Server, p: nat) {
    Holds(s.node, p, 0, [ZERO], 0) && s.rsm.me == p && s.rsm.life == 0 && s.rsm.nextId == 0
  }

  /** Peer 1 leads term 1 and gives peer 0 what is below the index. */
  lemma First(d: Plan) returns (c: Cluster)
    requires Possible(d)
    ensures From(Init(5), c) && |c.servers| == 5
    ensures Holds(c.servers[0].node, 0, 1, Low(d), 0) && c.servers[0].node.role != Leader
    ensures c.servers[0].rsm.me == 0 && c.servers[0].rsm.life == 0 && c.servers[0].rsm.nextId == 0
    ensures Holds(c.servers[1].node, 1, 1, Low(d), 0) && Done(c.servers[1], d) && Fresh(c.servers[2], 2)
    ensures Willing(c.servers[3], 3, 2) && Willing(c.servers[4], 4, 2)
  {
    hide From, StartElection, AppendEntries, Replicate, Init;
    var b := Init(5);
    Starts();
    Runs(b.servers[1].node, 1, 0, [ZERO]);
    var c1 := TimesOut(b, b, 1);
    var c2 := Elects(b, c1, 1, 1, [ZERO]);
    assert Zeros()[1 := 0] == Zeros();
    var c3 := SubmitsGets(b, c2, 1, 1, d.index - 1);
    SendsTail(c3.servers[1].node, 1, 1, Low(d), 0);
    var aa := Args(1, 1, Low(d), 1, 0);
    Takes(c3.servers[0].node, 0, 0, [ZERO], aa);
    assert [ZERO][..1] + Low(d)[1..] == Low(d);
    c := Sends(b, c3, 1, 0, aa);
    Follows(c3.servers[0].node, aa);
  }

  lemma Follows(n: Node, a: AppendArgs)
    requires Ok(n) && a.term >= n.currentTerm
    ensures AppendEntries(n, a).0.role == Follower
  {
  }

  /** Peer 0 leads term 2 and leaves the old operation with peer 1. */
  lemma Second(d: Plan) returns (c: Cluster)
    requires Possible(d)
    ensures From(Init(5), c) && |c.servers| == 5
    ensures Holds(c.servers[0].node, 0, 2, Low(d) + [X(d)], 0) && c.servers[0].rsm.life == 0
    ensures Holds(c.servers[1].node, 1, 2, Low(d) + [X(d)], 0) && Done(c.servers[1], d) && Fresh(c.servers[2], 2)
    ensures Willing(c.servers[3], 3, 3) && Willing(c.servers[4], 4, 3)
  {
    hide From, StartElection, AppendEntries, Replicate, Rsm.Submit, Init;
    var b := Init(5);
    var c0 := First(d);
    var c1 := Refused(b, c0, 0, d.id - 1);
    Runs(c1.servers[0].node, 0, 1, Low(d));
    var c2 := TimesOut(b, c1, 0);
    var c3 := Elects(b, c2, 0, 2, Low(d));
    Adds(c3.servers[0], 0, 2, Low(d), All(|Low(d)|), Zeros()[0 := |Low(d)| - 1], d.x);
    var c4 := Submits(b, c3, 0, d.x);
    SendsTail(c4.servers[0].node, 0, 2, Low(d) + [X(d)], 1);
    var aa := Args(0, 2, Low(d) + [X(d)], |Low(d)|, 0);
    assert aa.entries == [X(d)];
    Takes(c4.servers[1].node, 1, 1, Low(d), aa);
    assert Low(d)[..|Low(d)|] == Low(d);
    c := Sends(b, c4, 0, 1, aa);
  }

  lemma RunsThrice(b: Cluster, c: Cluster, p: nat, term: nat, log: seq<Entry>) returns (c': Cluster)
    requires From(b, c) && p < |c.servers| && Holds(c.servers[p].node, p, term, log, 0)
    ensures From(b, c') && |c'.servers| == |c.servers| && c'.servers == With(c, p, c'.servers[p].node)
    ensures Campaigns(c'.servers[p].node, p, term + 3, log)
  {
    hide From, StartElection;
    Runs(c.servers[p].node, p, term, log);
    var c1 := TimesOut(b, c, p);
    Runs(c1.servers[p].node, p, term + 1, log);
    var c2 := TimesOut(b, c1, p);
    Runs(c2.servers[p].node, p, term + 2, log);
    c' := TimesOut(b, c2, p);
  }

  /** Peer 2 leads term 3 and cuts peer 0's log at index 1; peer 0 restarts. */
  lemma Third(d: Plan) returns (c: Cluster)
    requires Possible(d)
    ensures From(Init(5), c) && |c.servers| == 5
    ensures Holds(c.servers[0].node, 0, 3, Short(d), 0) && c.servers[0].applyCh == []
    ensures c.servers[0].rsm == Rsm.Boot(0, d.life, NoSnap).(nextId := d.id - 1)
    ensures Holds(c.servers[1].node, 1, 2, Low(d) + [X(d)], 0) && Done(c.servers[1], d)
    ensures Willing(c.servers[3], 3, 4) && Willing(c.servers[4], 4, 4)
  {
    hide From, StartElection, AppendEntries, Replicate, Init;
    var b := Init(5);
    var c0 := Second(d);
    var c1 := RunsThrice(b, c0, 2, 0, [ZERO]);
    var c2 := Elects(b, c1, 2, 3, [ZERO]);
    assert Zeros()[2 := 0] == Zeros();
    var c3 := SubmitsGets(b, c2, 2, 3, d.index - 1);
    SendsTail(c3.servers[2].node, 2, 3, Short(d), 0);
    var aa := Args(2, 3, Short(d), 1, 0);
    var log := Low(d) + [X(d)];
    Takes(c3.servers[0].node, 0, 2, log, aa);
    assert log[..1] + Short(d)[1..] == Short(d);
    var c4 := Sends(b, c3, 2, 0, aa);
    var c5 := Restarts(b, c4, 0, 3, Short(d), d.life);
    c := Refused(b, c5, 0, d.id - 1);
  }

  /** Peer 0 leads term 4 and is about to submit the new operation. */
  lemma Fourth(d: Plan) returns (c: Cluster)
    requires Possible(d)
    ensures From(Init(5), c) && |c.servers| == 5
    ensures Leads(c.servers[0].node, 0, 4, Short(d), All(d.index), Zeros()[0 := d.index - 1], 0)
    ensures c.servers[0].applyCh == []
    ensures c.servers[0].rsm == Rsm.Boot(0, d.life, NoSnap).(nextId := d.id - 1)
    ensures Holds(c.servers[1].node, 1, 2, Low(d) + [X(d)], 0) && Done(c.servers[1], d)
    ensures Willing(c.servers[3], 3, 5) && Willing(c.servers[4], 4, 5)
  {
    hide From, StartElection, Init, Rsm.Boot;
    var b := Init(5);
    var c0 := Third(d);
    Runs(c0.servers[0].node, 0, 3, Short(d));
    var c1 := TimesOut(b, c0, 0);
    c := Elects(b, c1, 0, 4, Short(d));
  }

  // ----- after the new operation -----

  /** The new operation's waiter, with the log applied up to an index and the store still empty. */
  function Waiting(d: Plan, applied: nat): Rsm.Replica {
    Rsm.Replica(0, d.life, d.id, applied, map[], map[d.id := Rsm.Waiter(d.index, 4, Y(d).cmd.op, None, None)],
                map[d.index := d.id])
  }

  /** Peer 0 with the new operation in its log, peer 1 with the old one, peers 3 and 4 with empty logs. */
  ghost predicate Set(c: Cluster, d: Plan)
    requires Possible(d)
  {
    && |c.servers| == 5
    && Holds(c.servers[0].node, 0, 4, Short(d) + [Y(d)], 0)
    && c.servers[0].rsm == Waiting(d, 0) && c.servers[0].applyCh == []
    && Holds(c.servers[1].node, 1, 2, Low(d) + [X(d)], 0) && Done(c.servers[1], d)
    && Willing(c.servers[3], 3, 5) && Willing(c.servers[4], 4, 5)
  }

  ghost predicate Mine(s: Server, d: Plan) {
    s.rsm == Waiting(d, 0) && s.applyCh == []
  }

  /** Peer 1 leads term 5. */
  lemma Fifth(b: Cluster, c: Cluster, d: Plan) returns (c': Cluster)
    requires Possible(d) && From(b, c) && Set(c, d)
    ensures From(b, c') && |c'.servers| == 5 && c'.servers[0] == c.servers[0]
    ensures Leads(c'.servers[1].node, 1, 5, Old(d), All(d.index + 1)[1 := d.index + 2], Zeros()[1 := d.index + 1], 0)
    ensures Holds(c'.servers[3].node, 3, 5, [ZERO], 0) && Holds(c'.servers[4].node, 4, 5, [ZERO], 0)
  {
    hide From, Rsm.Submit, Waiting;
    var log := Low(d) + [X(d)];
    var c1 := RunsThrice(b, c, 1, 2, log);
    var c2 := Elects(b, c1, 1, 5, log);
    Adds(c2.servers[1], 1, 5, log, All(|log|), Zeros()[1 := |log| - 1], GET);
    assert Zeros()[1 := d.index][1 := d.index + 1] == Zeros()[1 := d.index + 1];
    c' := Submits(b, c2, 1, GET);
  }

  /** Peer v, whose log is empty, takes the whole log after one rejection. */
  lemma Fills(b: Cluster, c: Cluster, d: Plan, v: nat, next: seq<nat>, matched: seq<nat>) returns (c': Cluster)
    requires Possible(d) && From(b, c) && |c.servers| == 5 && v in {3, 4} && |next| == |matched| == 5
    requires next[v] == d.index + 1 && matched[v] == 0 && Sorting.Sort(matched[v := d.index + 1])[2] in {0, d.index + 1}
    requires Leads(c.servers[1].node, 1, 5, Old(d), next, matched, 0) && Holds(c.servers[v].node, v, 5, [ZERO], 0)
    ensures From(b, c') && |c'.servers| == 5
    ensures forall q: nat :: q < 5 && q != v && q != 1 ==> c'.servers[q] == c.servers[q]
    ensures Leads(c'.servers[1].node, 1, 5, Old(d), next[v := d.index + 2], matched[v := d.index + 1],
                  Sorting.Sort(matched[v := d.index + 1])[2])
  {
    hide From, AppendEntries, Replicate, OnAppendReply, Sorting.Sort;
    SendsTail(c.servers[1].node, 1, 5, Old(d), v);
    Rejects(c.servers[v].node, v, 5, [ZERO], Args(1, 5, Old(d), next[v], 0));
    FallsBack(c.servers[1].node, 1, 5, Old(d), next, matched, 0, v, AppendReply(5, false, -1, 0, 1), 1);
    var c1 := Ships(b, c, 1, v, Args(1, 5, Old(d), next[v], 0));
    SendsTail(c1.servers[1].node, 1, 5, Old(d), v);
    Takes(c1.servers[v].node, v, 5, [ZERO], Args(1, 5, Old(d), 1, 0));
    Records(c1.servers[1].node, 1, 5, Old(d), next[v := 1], matched, 0, v);
    assert next[v := 1][v := d.index + 2] == next[v := d.index + 2];
    c' := Ships(b, c1, 1, v, Args(1, 5, Old(d), 1, 0));
  }

  /** Peer 1 commits its log with peers 3 and 4. */
  lemma CommitsOld(b: Cluster, c: Cluster, d: Plan) returns (c': Cluster)
    requires Possible(d) && From(b, c) && Set(c, d)
    ensures From(b, c') && |c'.servers| == 5 && c'.servers[0] == c.servers[0]
    ensures var k, m := d.index + 2, d.index + 1;
      Leads(c'.servers[1].node, 1, 5, Old(d), [m, k, m, k, k], [0, m, 0, m, m], m)
  {
    hide From, Waiting, Sorting.Sort;
    var k, m := d.index + 2, d.index + 1;
    SortsTwo(m);
    var c1 := Fifth(b, c, d);
    assert All(m)[1 := k] == [m, k, m, m, m] && Zeros()[1 := m] == [0, m, 0, 0, 0];
    assert [m, k, m, m, m][3 := k] == [m, k, m, k, m] && [0, m, 0, 0, 0][3 := m] == [0, m, 0, m, 0];
    var c2 := Fills(b, c1, d, 3, [m, k, m, m, m], [0, m, 0, 0, 0]);
    assert [m, k, m, k, m][4 := k] == [m, k, m, k, k] && [0, m, 0, m, 0][4 := m] == [0, m, 0, m, m];
    c' := Fills(b, c2, d, 4, [m, k, m, k, m], [0, m, 0, m, 0]);
  }

  /** The conflicts peer 0 reports: the new operation alone in term 4, and everything below it in term 3. */
  lemma Conflicts(d: Plan)
    requires Possible(d)
    ensures var log := Short(d) + [Y(d)];
      && |log| == d.index + 1 && log[d.index].term == 4 && log[d.index - 1].term == 3 && log[1].term == 3
      && FirstOfTerm(log, d.index) == d.index && FirstOfTerm(log, d.index - 1) == 1
    ensures |Old(d)| == d.index + 2 && Old(d)[d.index] == X(d) && Old(d)[d.index - 1].term == 1 && Old(d)[1].term == 1
    ensures forall i :: 0 <= i < |Old(d)| ==> Old(d)[i].term != 3 && Old(d)[i].term != 4
  {
    var log := Short(d) + [Y(d)];
    var j := FirstOfTerm(log, d.index - 1);
    assert j > 0 by { assert log[0].term == 0; }
    assert forall i :: 0 < i < d.index ==> log[i].term == 3;
  }

  /** Peer 1's log replaces peer 0's, after two rejections. */
  lemma Overwrites(b: Cluster, c: Cluster, d: Plan) returns (c': Cluster)
    requires Possible(d) && From(b, c) && Set(c, d)
    ensures From(b, c') && |c'.servers| == 5
    ensures Holds(c'.servers[0].node, 0, 5, Old(d), d.index + 1) && Mine(c'.servers[0], d)
  {
    hide From, AppendEntries, Replicate, OnAppendReply, Waiting, Old, Short;
    var k, m := d.index + 2, d.index + 1;
    var log := Short(d) + [Y(d)];
    Conflicts(d);
    var c1 := CommitsOld(b, c, d);
    var next, matched := [m, k, m, k, k], [0, m, 0, m, m];
    var c2 := Bounces(b, c1, d, 4, log, next, matched, d.index);
    var c3 := Bounces(b, c2, d, 5, log, next[0 := d.index], matched, 1);
    SendsTail(c3.servers[1].node, 1, 5, Old(d), 0);
    Takes(c3.servers[0].node, 0, 5, log, Args(1, 5, Old(d), 1, m));
    assert log[..1] + Old(d)[1..] == Old(d);
    c' := Sends(b, c3, 1, 0, Args(1, 5, Old(d), 1, m));
  }

  /** Peer 0 rejects what peer 1 sends, which goes back to index k. */
  lemma Bounces(b: Cluster, c: Cluster, d: Plan, term: nat, log: seq<Entry>, next: seq<nat>, matched: seq<nat>, k: nat)
    returns (c': Cluster)
    requires Possible(d) && From(b, c) && |c.servers| == 5 && |next| == 5 && term <= 5
    requires Leads(c.servers[1].node, 1, 5, Old(d), next, matched, d.index + 1)
    requires Holds(c.servers[0].node, 0, term, log, 0)
    requires 0 < k < next[0] <= |Old(d)| && next[0] <= |log| && log[next[0] - 1].term != Old(d)[next[0] - 1].term
    requires FirstOfTerm(log, next[0] - 1) == k
    requires forall i :: 0 <= i < |Old(d)| ==> Old(d)[i].term != log[next[0] - 1].term
    ensures From(b, c') && |c'.servers| == 5 && c'.servers[0] == c.servers[0].(node := c'.servers[0].node)
    ensures Leads(c'.servers[1].node, 1, 5, Old(d), next[0 := k], matched, d.index + 1)
    ensures Holds(c'.servers[0].node, 0, 5, log, 0)
  {
    hide From, AppendEntries, Replicate, OnAppendReply, Old, FirstOfTerm;
    var aa := Args(1, 5, Old(d), next[0], d.index + 1);
    SendsTail(c.servers[1].node, 1, 5, Old(d), 0);
    Rejects(c.servers[0].node, 0, term, log, aa);
    var r := AppendEntries(c.servers[0].node, aa).1;
    FallsBack(c.servers[1].node, 1, 5, Old(d), next, matched, d.index + 1, 0, r, k);
    c' := Ships(b, c, 1, 0, aa);
  }

  /** Peer 0 with the first k entries applied. */
  ghost predicate Applied(s: Server, d: Plan, k: nat)
    requires Possible(d)
  {
    && s.rsm == Waiting(d, k) && s.applyCh == []
    && Holds(s.node.(lastApplied := 0), 0, 5, Old(d), d.index + 1) && s.node.lastApplied == k
  }

  lemma {:induction false} AppliesGets(b: Cluster, c: Cluster, d: Plan, k: nat) returns (c': Cluster)
    requires Possible(d) && From(b, c) && |c.servers| == 5 && Applied(c.servers[0], d, 0) && k < d.index
    ensures From(b, c') && |c'.servers| == 5 && Applied(c'.servers[0], d, k)
    decreases k
  {
    hide From, Rsm.Read, Waiting;
    if k == 0 {
      c' := c;
    } else {
      var c1 := AppliesGets(b, c, d, k - 1);
      var op := Op(1, k, 0, GET);
      assert Old(d)[k].cmd == Run(op);
      ReadsGet(d, k - 1, op);
      c' := Applies(b, c1, 0);
    }
  }

  lemma ReadsGet(d: Plan, k: nat, op: Op)
    requires Possible(d) && k + 1 < d.index && op.req == GET
    ensures Rsm.Read(Waiting(d, k), CommandMsg(k + 1, Run(op))) == Waiting(d, k + 1)
  {
  }

  /** The reader takes the old operation for the new one. */
  lemma ReadsOld(d: Plan)
    requires Possible(d)
    ensures var r := Rsm.Read(Waiting(d, d.index - 1), CommandMsg(d.index, X(d).cmd));
      && r.life == d.life && r.me == 0 && d.id in r.waiters
      && r.waiters[d.id] == Rsm.Waiter(d.index, 4, Y(d).cmd.op, Some(Rsm.Answer(Kv.Apply(map[], d.x).1)), None)
  {
  }

  /** From the Submit on: it is answered with the old operation's reply. */
  lemma Answers(b: Cluster, d: Plan) returns (acts: seq<Action>, c: Cluster)
    requires Possible(d) && !b.panicked && Set(b, d)
    ensures Reaches(b, acts, c) && |c.servers| == 5
    ensures Answered(0, d.life, d.id, Y(d).cmd.op, d.index, Kv.Apply(map[], d.x).1) in c.trace
    ensures var n := c.servers[0].node; n.commitIndex == d.index + 1 && n.lastIncludedIndex == 0 && n.log == Old(d)
  {
    hide From, Rsm.Read, Waiting, Kv.Apply;
    FromSelf(b);
    var c1 := Overwrites(b, b, d);
    var c2 := AppliesGets(b, c1, d, d.index - 1);
    assert Old(d)[d.index] == X(d);
    ReadsOld(d);
    var c3 := Applies(b, c2, 0);
    Running(b, c3);
    Go(b, c3, SubmitReturns(0, d.id));
    c := Step(c3, SubmitReturns(0, d.id));
    assert c.trace[|c.trace| - 1] == Answered(0, d.life, d.id, Y(d).cmd.op, d.index, Kv.Apply(map[], d.x).1);
    acts := Acts(b, c);
  }

  lemma Acts(b: Cluster, c: Cluster) returns (acts: seq<Action>)
    requires From(b, c)
    ensures Reaches(b, acts, c)
  {
    acts :| Reaches(b, acts, c);
  }

  /** The new operation is not in any order of operations that explains the run; the old one is in its place. */
  lemma NoEffect(d: Plan, c: Cluster, G: seq<Entry>, f: Event)
    requires Possible(d) && RaftSafety.Reachable(5, c) && RaftSafety.Explains(G, c) && |c.servers| == 5
    requires f in c.trace && f.Proposed? && f.op == Y(d).cmd.op && f.index == d.index
    requires var n := c.servers[0].node; n.commitIndex == d.index + 1 && n.lastIncludedIndex == 0 && n.log == Old(d)
    ensures d.index < |G| && G[d.index].cmd == X(d).cmd && forall j :: 0 < j < |G| ==> G[j].cmd != Run(f.op)
  {
    hide RaftSafety.Reachable, RaftSafety.AllProposed, RaftSafety.DeliveredFrom;
    assert RaftSafety.HoldsPrefix(c.servers[0].node, G);
    assert EntryAt(c.servers[0].node, d.index) == X(d);
    forall j | 0 < j < |G| ensures G[j].cmd != Run(f.op) {
      if G[j].cmd == Run(f.op) { Linearizability.ProposedThere(5, c, G, f, j); }
    }
  }

  /** A Submit whose id and index an earlier lifetime of its peer has used can be answered with that operation's
      reply, and then its own operation is nowhere. */
  lemma ReusedIdAnswered(d: Plan) returns (c0: Cluster, acts: seq<Action>, c: Cluster, e: Event)
    requires Possible(d)
    ensures RaftSafety.Reachable(5, c0) && Proposes(c0, 0, d.y)
    ensures OpOf(c0, 0, d.y) == Op(0, d.id, d.life, d.y) && IndexOf(c0, 0) == d.index
    ensures Reaches(Step(c0, Submit(0, d.y)), acts, c) && e in c.trace
    ensures e == Answered(0, d.life, d.id, OpOf(c0, 0, d.y), d.index, Kv.Apply(map[], d.x).1)
    ensures forall G: seq<Entry> :: RaftSafety.Explains(G, c) ==>
      && d.index < |G| && G[d.index].cmd == Run(Op(0, d.id, 0, d.x))
      && forall j :: 0 < j < |G| ==> G[j].cmd != Run(e.op)
  {
    hide From, RaftSafety.Reachable, RaftSafety.Explains, Reaches, Low, Short, Old, Willing, Done, Rsm.Submit, Kv.Apply;
    c0 := Fourth(d);
    Arrived(c0);
    Running(Init(5), c0);
    var f, b := SubmitsNew(c0, d);
    acts, c := Answers(b, d);
    e := Answered(0, d.life, d.id, OpOf(c0, 0, d.y), d.index, Kv.Apply(map[], d.x).1);
    RaftSafety.StepReachable(5, c0, Submit(0, d.y));
    RaftSafety.RunReachable(5, b, acts, c);
    Proposals.TraceKept(b, acts, c);
    forall G: seq<Entry> | RaftSafety.Explains(G, c)
      ensures d.index < |G| && G[d.index].cmd == X(d).cmd && forall j :: 0 < j < |G| ==> G[j].cmd != Run(e.op)
    {
      NoEffect(d, c, G, f);
    }
  }

  lemma SubmitsNew(c: Cluster, d: Plan) returns (f: Event, b: Cluster)
    requires Possible(d) && From(Init(5), c) && |c.servers| == 5 && c.servers[0].applyCh == []
    requires Leads(c.servers[0].node, 0, 4, Short(d), All(d.index), Zeros()[0 := d.index - 1], 0)
    requires c.servers[0].rsm == Rsm.Boot(0, d.life, NoSnap).(nextId := d.id - 1)
    requires Holds(c.servers[1].node, 1, 2, Low(d) + [X(d)], 0) && Done(c.servers[1], d)
    requires Willing(c.servers[3], 3, 5) && Willing(c.servers[4], 4, 5)
    ensures Proposes(c, 0, d.y) && OpOf(c, 0, d.y) == Y(d).cmd.op && IndexOf(c, 0) == d.index
    ensures b == Step(c, Submit(0, d.y)) && !b.panicked && Set(b, d)
    ensures f in b.trace && f.Proposed? && f.op == Y(d).cmd.op && f.index == d.index
  {
    hide From, Low, Willing, Done, Rsm.Submit;
    Running(Init(5), c);
    Adds(c.servers[0], 0, 4, Short(d), All(d.index), Zeros()[0 := d.index - 1], d.y);
    b := Submits(Init(5), c, 0, d.y);
    Running(Init(5), b);
    f := Proposed(Y(d).cmd.op, d.index, 4);
    assert b.trace == c.trace + [f];
  }

  /** In some run a Submit with this id and index in this lifetime of its peer is answered with another operation. */
  ghost predicate Mistaken(id: nat, index: nat, life: nat, n: nat, c: Cluster, p: nat, req: Kv.Request,
                           acts: seq<Action>, c': Cluster, G: seq<Entry>, e: Event) {
    && RaftSafety.Reachable(n, c) && Proposes(c, p, req)
    && OpOf(c, p, req) == Op(p, id, life, req) && IndexOf(c, p) == index
    && Reaches(Step(c, Submit(p, req)), acts, c') && RaftSafety.Explains(G, c')
    && e in c'.trace && e.Answered? && e.peer == p && e.life == life && e.id == id
    && !(e.index < |G| && G[e.index].cmd == Run(Op(p, id, life, req)))
  }

  /** What a Submit knows of itself makes it sure of its answer exactly in the first lifetime, or at index 1. */
  lemma MistakenExactly(id: nat, index: nat, life: nat)
    requires id > 0 && index > 0
    ensures (exists n, c, p, req, acts, c', G, e :: Mistaken(id, index, life, n, c, p, req, acts, c', G, e))
            <==> life > 0 && index > 1
  {
    hide RaftSafety.Reachable, RaftSafety.Explains, Reaches, Kv.Apply;
    if life > 0 && index > 1 {
      var d := Plan(id, index, life, GET, GET);
      var c, acts, c', e := ReusedIdAnswered(d);
      RaftSafety.StepReachable(5, c, Submit(0, GET));
      RaftSafety.RunReachable(5, Step(c, Submit(0, GET)), acts, c');
      var G := RaftSafety.StateMachineSafety(5, c');
      assert Mistaken(id, index, life, 5, c, 0, GET, acts, c', G, e);
    } else {
      forall n, c, p, req, acts, c', G, e ensures !Mistaken(id, index, life, n, c, p, req, acts, c', G, e) {
        Unmistaken(id, index, life, n, c, p, req, acts, c', G, e);
      }
    }
  }

  lemma Unmistaken(id: nat, index: nat, life: nat, n: nat, c: Cluster, p: nat, req: Kv.Request,
                   acts: seq<Action>, c': Cluster, G: seq<Entry>, e: Event)
    requires life == 0 || index <= 1
    ensures !Mistaken(id, index, life, n, c, p, req, acts, c', G, e)
  {
    hide RaftSafety.Reachable, Reaches, Kv.Apply, RaftSafety.HoldsPrefix, RaftSafety.AllProposed;
    if Mistaken(id, index, life, n, c, p, req, acts, c', G, e) {
      assert RaftSafety.DeliveredFrom(G, e);
      if life == 0 { FirstLifeClear(n, c, p, req); } else { FirstIndexClear(n, c, p, req); }
      AnswerIsOwn(n, c, p, req, acts, c', G, e);
    }
  }
}
