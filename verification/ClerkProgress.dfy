/** A call of a retrying clerk can still return, with its own operation's answer, iff the service has a second peer. */
module ClerkProgress {
  import opened Options
  import opened RaftTypes
  import opened Simulation
  import opened RaftSafety
  import opened KvraftClerk
  import opened Electable
  import opened Progress
  import Kv
  import Lin = Linearizability
  import C = Clerk
  import K = Cluster

  // ----- runs -----

  /** The cluster's actions, taken while the clerks wait. */
  function Others(acts: seq<K.Action>): seq<Action> {
    seq(|acts|, i requires 0 <= i < |acts| => Other(acts[i]))
  }

  lemma {:induction false} Lifts(s: System, acts: seq<K.Action>, c': K.Cluster)
    requires K.Reaches(s.cl, acts, c')
    ensures Reaches(s, Others(acts), s.(cl := c'))
    decreases |acts|
  {
    hide K.Enabled, K.Step;
    if acts == [] {
      assert Others(acts) == [];
    } else {
      Lifts(s.(cl := K.Step(s.cl, acts[0])), acts[1..], c');
      assert Others(acts)[1..] == Others(acts[1..]);
    }
  }

  lemma {:induction false} Joined(s: System, acts: seq<Action>, s1: System, more: seq<Action>, s2: System)
    requires Reaches(s, acts, s1) && Reaches(s1, more, s2)
    ensures Reaches(s, acts + more, s2)
    decreases |acts|
  {
    hide Enabled, Step;
    if acts == [] {
      assert acts + more == more;
    } else {
      Joined(Step(s, acts[0]), acts[1..], s1, more, s2);
      assert (acts + more)[1..] == acts[1..] + more;
    }
  }

  // ----- the call -----

  /** The answer an operation gets of its own fits its request. */
  lemma OwnFits(n: nat, c: K.Cluster, e: K.Event)
    requires Reachable(n, c) && e in c.trace && e.Answered?
    requires forall G: seq<Entry> :: Explains(G, c) ==> Lin.Own(G, e)
    ensures Fits(e.op.req, e.reply)
  {
    hide Reachable, Explains, Lin.Distinct, Lin.RealTime, Lin.Reqs;
    var G := Lin.Linearizable(n, c);
    assert Lin.Own(G, e);
  }

  /** A new attempt of the call reaches the leader. */
  lemma Asks(s: System, c: nat, p: nat) returns (s': System)
    requires c < |s.calls| && s.calls[c].done == None && p < |s.cl.servers| && s.cl.servers[p].node.role == Leader
    requires K.Enabled(s.cl, K.Submit(p, s.calls[c].req)) && s.cl.servers[p].rsm.me == p
    ensures var x, r := s.calls[c], s.cl.servers[p].rsm; var t := C.Attempt(c, x.sent);
      && Reaches(s, [Resend(c), Serve(t, p)], s') && s'.cl == K.Step(s.cl, K.Submit(p, x.req))
      && s'.calls == s.calls[c := x.(sent := x.sent + 1)]
      && t in s'.served && s'.served[t] == Op(p, r.nextId + 1, r.life, x.req)
  {
    hide K.Step;
    var t := C.Attempt(c, s.calls[c].sent);
    var s1 := Step(s, Resend(c));
    s' := Step(s1, Serve(t, p));
    assert [Resend(c), Serve(t, p)][1..] == [Serve(t, p)] && [Serve(t, p)][1..] == [];
    assert Reaches(s', [], s');
  }

  /** The call has returned the answer of its own operation. */
  ghost predicate ReturnedOwn(s: System, c: nat, req: Kv.Request) {
    && c < |s.calls| && s.calls[c].req == req && s.calls[c].done.Some?
    && forall G: seq<Entry> :: Explains(G, s.cl) ==> Lin.Own(G, s.calls[c].done.value.answer)
  }

  lemma Returns(s: System, c: nat, e: K.Event) returns (s': System)
    requires c < |s.calls| && s.calls[c].done == None && s.calls[c].sent > 0
    requires var t := C.Attempt(c, s.calls[c].sent - 1); t in s.served && e.Answered? && e.op == s.served[t]
    requires e in s.cl.trace && Fits(s.calls[c].req, e.reply)
    requires forall G: seq<Entry> :: Explains(G, s.cl) ==> Lin.Own(G, e)
    ensures Reaches(s, [Finish(c, e)], s') && ReturnedOwn(s', c, s.calls[c].req)
  {
    hide Explains, Lin.Own;
    s' := Step(s, Finish(c, e));
    assert [Finish(c, e)][1..] == [] && Reaches(s', [], s');
  }

  /** From every state of every run over two or more peers, every call that has not returned can return with the answer
      of its own operation. */
  lemma CanReturn(n: nat, s: System, c: nat) returns (acts: seq<Action>, s': System)
    requires Reached(n, s) && n > 1 && c < |s.calls| && s.calls[c].done == None
    ensures Reaches(s, acts, s') && ReturnedOwn(s', c, s.calls[c].req)
  {
    hide Reached, Reachable, Reaches, Explains, K.Reaches, K.Step, K.Enabled, Live, Spreads, Awaits;
    ReachedInv(n, s);
    var acts1, c1, p, T := CanLead(n, s.cl);
    Lifts(s, acts1, c1);
    var s1 := s.(cl := c1);
    PeerOk(n, c1, c1, p);
    var c2, I, op := TakesRequest(n, c1, c1, p, T, s.calls[c].req);
    var s2 := Asks(s1, c, p);
    LiveReachable(n, c1, c2);
    var acts3, c3, e := Finishes(n, c2, p, I, op);
    Lifts(s2, acts3, c3);
    RunReachable(n, c2, acts3, c3);
    OwnFits(n, c3, e);
    s' := Returns(s2.(cl := c3), c, e);
    var asks := [Resend(c), Serve(C.Attempt(c, s.calls[c].sent), p)];
    Joined(s, Others(acts1), s1, asks, s2);
    Joined(s, Others(acts1) + asks, s2, Others(acts3), s2.(cl := c3));
    Joined(s, Others(acts1) + asks + Others(acts3), s2.(cl := c3), [Finish(c, e)], s');
    acts := Others(acts1) + asks + Others(acts3) + [Finish(c, e)];
  }

  /** Over one peer no call ever returns. */
  lemma NeverReturns(s: System, c: nat)
    requires Reached(1, s) && c < |s.calls|
    ensures s.calls[c].done == None
  {
    hide Reached, Reaches, K.Step, K.Enabled;
    ReachedInv(1, s);
    var before :| K.Reaches(K.Init(1), before, s.cl);
    RunAlone(K.Init(1), before, s.cl);
  }

  lemma {:induction false} RunReached(n: nat, s: System, acts: seq<Action>, s': System)
    requires Reached(n, s) && Reaches(s, acts, s')
    ensures Reached(n, s')
    decreases |acts|
  {
    hide Reached, Enabled, Step;
    if acts == [] {
    } else {
      StepReached(n, s, acts[0]);
      RunReached(n, Step(s, acts[0]), acts[1..], s');
    }
  }

  /** A call that has not returned can still return iff the service has a second peer. */
  lemma ReturnsExactly(n: nat, s: System, c: nat)
    requires Reached(n, s) && c < |s.calls| && s.calls[c].done == None
    ensures n > 1 <==> exists acts, s' :: Reaches(s, acts, s') && ReturnedOwn(s', c, s.calls[c].req)
  {
    hide Reached, Reaches, Explains;
    if n > 1 {
      var acts, s' := CanReturn(n, s, c);
    } else {
      OnePeer(n, s);
      forall acts, s' | Reaches(s, acts, s') ensures !ReturnedOwn(s', c, s.calls[c].req) {
        RunReached(n, s, acts, s');
        if c < |s'.calls| { NeverReturns(s', c); }
      }
    }
  }

  lemma OnePeer(n: nat, s: System)
    requires Reached(n, s) && n <= 1
    ensures n == 1
  {
  }
}
