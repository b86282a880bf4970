/** Within one process lifetime a Submit gets one result, and OK is answered for it at most once in a whole run. */
module RsmOnce {
  import opened Options
  import opened RaftTypes
  import R = RaftNode
  import opened Rsm
  import K = Cluster

  /** Every waiter keeps where it waits and, once it has one, its result and what it returned. */
  ghost predicate Keeps(r: Replica, r': Replica) {
    && r.life == r'.life && r.nextId <= r'.nextId
    && (forall id :: id in r.waiters ==> id in r'.waiters && KeepsWaiter(r.waiters[id], r'.waiters[id]))
    && (forall id :: id in r'.waiters ==> id in r.waiters || r.nextId < id)
  }

  ghost predicate KeepsWaiter(x: Waiter, y: Waiter) {
    && y.op == x.op && y.index == x.index && y.term == x.term
    && (x.ch.Some? ==> y.ch == x.ch) && (x.ret.Some? ==> y.ret == x.ret)
  }

  /** Ids are handed out in order, and an answer that was returned is the one that was sent. */
  ghost predicate Ids(r: Replica) {
    forall id :: id in r.waiters ==> id <= r.nextId && AsSent(r.waiters[id])
  }

  ghost predicate AsSent(x: Waiter) {
    x.ret.Some? && x.ret.value.Answer? ==> x.ret == x.ch
  }

  lemma ReadKeeps(r: Replica, msg: R.ApplyMsg)
    ensures Keeps(r, Rsm.Read(r, msg)) && (Ids(r) ==> Ids(Rsm.Read(r, msg)))
  {
  }

  lemma SubmitKeeps(r: Replica, n: R.Node, req: Kv.Request)
    requires R.Ok(n) && Ids(r)
    ensures Keeps(r, Rsm.Submit(r, n, req).0) && Ids(Rsm.Submit(r, n, req).0)
  {
  }

  lemma ResumeKeeps(r: Replica, id: nat)
    requires id in r.waiters && r.waiters[id].ret == None
    ensures Keeps(r, r) && Keeps(r, Rsm.Return(r, id)) && Keeps(r, Rsm.GiveUp(r, id))
    ensures Ids(r) ==> Ids(Rsm.Return(r, id)) && Ids(Rsm.GiveUp(r, id))
  {
  }

  lemma SameKeeps(r: Replica)
    ensures Keeps(r, r)
  {
  }

  /** One step leaves a server in the same lifetime with its waiters kept, or starts the next lifetime. */
  lemma StepKeeps(c: K.Cluster, a: K.Action, p: nat)
    requires K.Enabled(c, a) && p < |c.servers| && Ids(c.servers[p].rsm)
    ensures |K.Step(c, a).servers| == |c.servers|
    ensures var r, r' := c.servers[p].rsm, K.Step(c, a).servers[p].rsm; Ids(r') && (Keeps(r, r') || r.life < r'.life)
  {
    hide Keeps, Rsm.Read, Rsm.Submit, R.StartElection, R.RequestVote, R.OnVoteReply, R.AppendEntries, R.OnAppendReply;
    hide R.InstallSnapshot, R.OnSnapReply, R.Deliver, R.Snapshot, R.Replicate;
    var s := c.servers[p];
    SameKeeps(s.rsm);
    if a.p == p && K.Indexable(c, a) {
      match a
      case Read(_) => ReadKeeps(s.rsm, s.applyCh[0]);
      case Submit(_, req) => SubmitKeeps(s.rsm, s.node, req);
      case SubmitReturns(_, id) => ResumeKeeps(s.rsm, id);
      case SubmitGivesUp(_, id) => ResumeKeeps(s.rsm, id);
      case _ =>
    }
  }

  // ----- OK is answered once -----

  ghost predicate SameSubmit(e: K.Event, f: K.Event) {
    e.Answered? && f.Answered? && e.peer == f.peer && e.life == f.life && e.id == f.id
  }

  /** An answer in the trace is of an earlier lifetime, or its Submit has returned. */
  ghost predicate Told(c: K.Cluster, e: K.Event) {
    e.Answered? ==>
      && e.peer < |c.servers|
      && var r := c.servers[e.peer].rsm;
        e.life <= r.life && (e.life == r.life ==> e.id in r.waiters && r.waiters[e.id].ret.Some?)
  }

  ghost predicate Once(c: K.Cluster) {
    && (forall p: nat :: p < |c.servers| ==> Ids(c.servers[p].rsm))
    && (forall i :: 0 <= i < |c.trace| ==> Told(c, c.trace[i]))
    && (forall i, j :: 0 <= i < j < |c.trace| ==> !SameSubmit(c.trace[i], c.trace[j]))
  }

  lemma StepOnce(c: K.Cluster, a: K.Action)
    requires Once(c) && K.Enabled(c, a)
    ensures Once(K.Step(c, a))
  {
    hide Ids, K.Step, K.Enabled, Keeps;
    var c' := K.Step(c, a);
    SameServers(c, a);
    forall p: nat | p < |c'.servers| ensures Ids(c'.servers[p].rsm) { StepKeeps(c, a, p); }
    TraceGrows(c, a);
    forall i | 0 <= i < |c'.trace| ensures Told(c', c'.trace[i]) {
      if i < |c.trace| {
        assert Told(c, c.trace[i]);
        ToldStays(c, a, c.trace[i]);
      }
    }
    forall i, j | 0 <= i < j < |c'.trace| ensures !SameSubmit(c'.trace[i], c'.trace[j]) {
      assert c'.trace[i] == c.trace[i] && Told(c, c.trace[i]);
    }
  }

  lemma SameServers(c: K.Cluster, a: K.Action)
    requires K.Enabled(c, a)
    ensures a.p < |c.servers| && |K.Step(c, a).servers| == |c.servers|
  {
  }

  lemma ToldStays(c: K.Cluster, a: K.Action, e: K.Event)
    requires Once(c) && K.Enabled(c, a) && Told(c, e)
    ensures Told(K.Step(c, a), e)
  {
    if e.Answered? { StepKeeps(c, a, e.peer); }
  }

  /** A step adds at most one event; an answer is added when its Submit, which had not returned, returns. */
  lemma TraceGrows(c: K.Cluster, a: K.Action)
    requires K.Enabled(c, a)
    ensures var c' := K.Step(c, a);
      && |c.trace| <= |c'.trace| <= |c.trace| + 1 && c'.trace[..|c.trace|] == c.trace
      && (|c'.trace| > |c.trace| && c'.trace[|c.trace|].Answered? ==>
            var e := c'.trace[|c.trace|]; var r := c.servers[a.p].rsm;
            && e.peer == a.p && e.life == r.life && e.id in r.waiters && r.waiters[e.id].ret == None
            && Told(c', e))
  {
  }

  lemma {:induction false} RunOnce(c: K.Cluster, acts: seq<K.Action>, c': K.Cluster)
    requires Once(c) && K.Reaches(c, acts, c')
    ensures Once(c')
    decreases |acts|
  {
    hide Once, K.Step, K.Enabled;
    if acts == [] {
    } else {
      StepOnce(c, acts[0]);
      RunOnce(K.Step(c, acts[0]), acts[1..], c');
    }
  }

  /** In a whole run no Submit of any lifetime of any peer is answered OK twice. */
  lemma AnsweredOnce(n: nat, acts: seq<K.Action>, c: K.Cluster, i: nat, j: nat)
    requires K.Reaches(K.Init(n), acts, c) && i < j < |c.trace|
    ensures !SameSubmit(c.trace[i], c.trace[j])
  {
    RunOnce(K.Init(n), acts, c);
  }

  /** In every reachable cluster an answer that Submit returned is the one the reader sent it. */
  lemma ReturnsWhatWasSent(n: nat, acts: seq<K.Action>, c: K.Cluster, p: nat, id: nat)
    requires K.Reaches(K.Init(n), acts, c) && p < |c.servers| && id in c.servers[p].rsm.waiters
    ensures AsSent(c.servers[p].rsm.waiters[id])
  {
    RunOnce(K.Init(n), acts, c);
    assert Ids(c.servers[p].rsm);
  }
}
