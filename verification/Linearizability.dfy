/** Answered operations are linearizable: the agreed log orders them, each once, and that order respects real time. */
module Linearizability {
  import opened RaftTypes
  import opened Consensus
  import opened Simulation
  import opened RaftSafety
  import opened RsmOnce
  import opened Proposals
  import Kv
  import K = Cluster

  // ----- real time: nothing proposed after an answer is ordered before it -----

  /** The proposal f is not at or below the index of the answer e. */
  ghost predicate After(w: World, e: K.Event, f: K.Event) {
    e.Answered? && f.Proposed? && 0 < f.index <= e.index ==>
      forall H: seq<Entry> :: Agreed(w, H, e.index) ==> H[f.index].cmd != Run(f.op)
  }

  ghost predicate InOrder(c: K.Cluster, w: World) {
    forall a, k :: 0 <= a < k < |c.trace| ==> After(w, c.trace[a], c.trace[k])
  }

  /** What was at or below an answered index at one moment is what is there later. */
  lemma AfterGrows(w: World, w': World, e: K.Event, f: K.Event)
    requires Inv(w') && Grows(w, w') && EventSim(w, e) && After(w, e, f)
    ensures After(w', e, f)
  {
    hide Inv, Grows;
    if e.Answered? && f.Proposed? && 0 < f.index <= e.index {
      var H := AnsweredAt(w, e);
      AgreedGrows(w, w', H, e.index);
      forall H': seq<Entry> | Agreed(w', H', e.index) ensures H'[f.index].cmd != Run(f.op) {
        AgreedSame(w', H', H, e.index, e.index);
        assert H'[f.index] == H'[..e.index + 1][f.index] == H[..e.index + 1][f.index] == H[f.index];
      }
    }
  }

  lemma AnsweredAt(w: World, e: K.Event) returns (H: seq<Entry>)
    requires EventSim(w, e) && e.Answered?
    ensures Agreed(w, H, e.index)
  {
    var op :| AnswerAt(w, e.index, op, e.reply);
    H :| Agreed(w, H, e.index) && H[e.index].cmd == Run(op) && e.reply == Kv.Apply(Fold(H, e.index - 1), op.req).1;
  }

  /** A new proposal is not in the agreed log yet. */
  lemma NewAfter(c: K.Cluster, w: World, e: K.Event, f: K.Event)
    requires Sim(c, w) && (forall i :: 0 <= i < |c.trace| ==> InTurn(c.trace[i], f))
    ensures After(w, e, f)
  {
    hide Inv, ServerSim, MsgSim, EventSim;
    if e.Answered? && f.Proposed? && 0 < f.index <= e.index {
      forall H: seq<Entry> | Agreed(w, H, e.index) ensures H[f.index].cmd != Run(f.op) {
        var t: nat, x: nat :| (t, x) in w.chosen && e.index <= x && Has(w, H, t, e.index);
        assert H[f.index] == H[..e.index + 1][f.index] == w.tlog[t][..e.index + 1][f.index] == w.tlog[t][f.index];
        assert OpOk(c.servers, c.trace, f.index, w.tlog[t][f.index]);
        var g := K.Proposed(H[f.index].cmd.op, f.index, H[f.index].term);
        assert g in c.trace;
        var i :| 0 <= i < |c.trace| && c.trace[i] == g;
        assert InTurn(c.trace[i], f);
      }
    }
  }

  lemma StepInOrder(c: K.Cluster, w: World, a: K.Action, w': World)
    requires Sim(c, w) && Births(c) && InOrder(c, w) && K.Enabled(c, a)
    requires Sim(K.Step(c, a), w') && Grows(w, w')
    ensures InOrder(K.Step(c, a), w')
  {
    hide Inv, ServerSim, MsgSim, EventSim, OpsSim, After, Births, K.Step, K.Enabled, Grows;
    var c' := K.Step(c, a);
    StepEvent(c, a);
    forall i, k | 0 <= i < k < |c'.trace| ensures After(w', c'.trace[i], c'.trace[k]) {
      assert c'.trace[i] == c.trace[i];
      assert EventSim(w, c.trace[i]);
      if k < |c.trace| {
        assert c'.trace[k] == c.trace[k];
      } else {
        NewEvent(c, w, a);
        NewAfter(c, w, c.trace[i], c'.trace[k]);
      }
      AfterGrows(w, w', c.trace[i], c'.trace[k]);
    }
  }

  lemma {:induction false} RunInOrder(c: K.Cluster, w: World, acts: seq<K.Action>, c': K.Cluster) returns (w': World)
    requires Sim(c, w) && Births(c) && InOrder(c, w) && K.Reaches(c, acts, c')
    ensures Sim(c', w') && InOrder(c', w')
    decreases |acts|
  {
    hide Sim, Births, InOrder, K.Step, K.Enabled, Grows;
    if acts == [] {
      w' := w;
    } else {
      var w1 := StepSim(c, w, acts[0]);
      StepBirths(c, w, acts[0]);
      StepInOrder(c, w, acts[0], w1);
      w' := RunInOrder(K.Step(c, acts[0]), w1, acts[1..], c');
    }
  }

  lemma ReachInOrder(n: nat, c: K.Cluster) returns (w: World)
    requires Reachable(n, c)
    ensures Sim(c, w) && InOrder(c, w)
  {
    hide Sim, Births, K.Step, K.Enabled;
    var acts :| K.Reaches(K.Init(n), acts, c);
    InitSim(n);
    InitBirths(n);
    w := RunInOrder(K.Init(n), Start(n), acts, c);
  }

  // ----- the order of a run -----

  /** The answer e was given for its caller's own operation. */
  ghost predicate Own(G: seq<Entry>, e: K.Event) {
    e.Answered? && 0 < e.index < |G| && G[e.index].cmd == Run(e.op)
  }

  /** No operation is in G twice. */
  ghost predicate Distinct(G: seq<Entry>) {
    forall i, j :: 0 < i < j < |G| ==> G[i].cmd != G[j].cmd
  }

  /** The operation that was proposed is at index j of G. */
  ghost predicate ProposedAs(G: seq<Entry>, j: int, f: K.Event) {
    f.Proposed? && 0 < j < |G| && G[j].cmd == Run(f.op)
  }

  /** Every proposal in G that was made after an answer comes after it in G. */
  ghost predicate RealTime(G: seq<Entry>, trace: seq<K.Event>) {
    forall a, k, j :: 0 <= a < k < |trace| && trace[a].Answered? && ProposedAs(G, j, trace[k]) ==> trace[a].index < j
  }

  /** The requests at indexes 1..i of G. */
  ghost function Reqs(G: seq<Entry>, i: nat): seq<Kv.Request>
    requires i < |G|
  {
    if i == 0 then [] else Reqs(G, i - 1) + if G[i].cmd.Run? then [G[i].cmd.op.req] else []
  }

  /** Every answer ever given is the right one after the requests before its index. */
  ghost predicate AnswersRight(G: seq<Entry>, trace: seq<K.Event>) {
    forall e :: e in trace && e.Answered? ==>
      && 0 < e.index < |G| && G[e.index].cmd.Run?
      && Kv.RightAnswer(Reqs(G, e.index - 1), G[e.index].cmd.op.req, e.reply)
  }

  lemma {:induction false} FoldRan(G: seq<Entry>, i: nat)
    requires i < |G|
    ensures Fold(G, i) == Kv.Ran(Reqs(G, i))
  {
    if i == 0 {
    } else {
      FoldRan(G, i - 1);
      if G[i].cmd.Run? {
        Kv.RanNext(Reqs(G, i - 1), G[i].cmd.op.req);
      } else {
        assert Reqs(G, i - 1) + [] == Reqs(G, i - 1);
      }
    }
  }

  lemma OrderAnswers(c: K.Cluster, G: seq<Entry>)
    requires Explains(G, c)
    ensures AnswersRight(G, c.trace)
  {
    hide HoldsPrefix, AllProposed, Fold, Reqs, Kv.RightAnswer, Kv.Apply;
    forall e | e in c.trace && e.Answered?
      ensures 0 < e.index < |G| && G[e.index].cmd.Run?
      ensures Kv.RightAnswer(Reqs(G, e.index - 1), G[e.index].cmd.op.req, e.reply)
    {
      assert DeliveredFrom(G, e);
      FoldRan(G, e.index - 1);
      Kv.AnswersRight(Reqs(G, e.index - 1), G[e.index].cmd.op.req);
    }
  }

  lemma OrderDistinct(n: nat, c: K.Cluster, G: seq<Entry>)
    requires Reachable(n, c) && AllProposed(G, c.trace)
    ensures Distinct(G)
  {
    hide Reachable;
    forall i, j | 0 < i < j < |G| ensures G[i].cmd != G[j].cmd {
      if G[i].cmd == G[j].cmd {
        var e, f := K.Proposed(G[i].cmd.op, i, G[i].term), K.Proposed(G[j].cmd.op, j, G[j].term);
        assert e in c.trace && f in c.trace && SameProposal(e, f) && e != f;
        ProposedOnce(n, c, e, f);
      }
    }
  }

  /** An operation of G is at the index where it was proposed. */
  lemma ProposedThere(n: nat, c: K.Cluster, G: seq<Entry>, f: K.Event, j: nat)
    requires Reachable(n, c) && AllProposed(G, c.trace) && f in c.trace && f.Proposed?
    requires 0 < j < |G| && G[j].cmd == Run(f.op)
    ensures j == f.index
  {
    hide Reachable;
    var g := K.Proposed(G[j].cmd.op, j, G[j].term);
    assert g in c.trace && SameProposal(g, f);
    ProposedOnce(n, c, g, f);
  }

  lemma InsideAt(w: World, G: seq<Entry>, H: seq<Entry>, i: nat, j: nat)
    requires Inv(w) && Covers(w, G) && Agreed(w, H, i) && j <= i
    ensures i < |G| && H[j] == G[j]
  {
    hide Inv, Covers;
    AgreedInside(w, G, H, i);
    assert H[j] == H[..i + 1][j] == G[..i + 1][j] == G[j];
  }

  lemma OrderRealTime(n: nat, c: K.Cluster, w: World, G: seq<Entry>)
    requires Reachable(n, c) && Sim(c, w) && InOrder(c, w) && Covers(w, G) && Explains(G, c)
    ensures RealTime(G, c.trace)
  {
    hide Reachable, Inv, ServerSim, MsgSim, OpsSim, Covers, HoldsPrefix, AllProposed;
    forall a, k, j | 0 <= a < k < |c.trace| && c.trace[a].Answered? && ProposedAs(G, j, c.trace[k])
      ensures c.trace[a].index < j
    {
      var e, f := c.trace[a], c.trace[k];
      ProposedThere(n, c, G, f, j);
      assert After(w, e, f) && EventSim(w, e);
      var H := AnsweredAt(w, e);
      if j <= e.index { InsideAt(w, G, H, e.index, j); }
    }
  }

  /** Two answers, each its caller's own, have different indexes. */
  lemma OwnApart(n: nat, c: K.Cluster, G: seq<Entry>, a: nat, b: nat)
    requires Reachable(n, c) && a < b < |c.trace| && Own(G, c.trace[a]) && Own(G, c.trace[b])
    ensures c.trace[a].index != c.trace[b].index
  {
    hide K.Reaches, Registered, Named, InTurn, Waits;
    ReachBirths(n, c);
    assert AnswersProposal(c, c.trace[a]) && AnswersProposal(c, c.trace[b]);
    var acts :| K.Reaches(K.Init(n), acts, c);
    AnsweredOnce(n, acts, c, a, b);
  }

  /** Linearizability of every run. There is one order of operations, the agreed log, that holds no operation twice
      and in which every answer ever given is the right one for the operation at its index: a get finds the value of
      the last put that succeeded before it and their number, a put succeeds iff it names that number;
      answers that are their callers' own have an index each; and what was proposed after an answer comes after it. */
  lemma Linearizable(n: nat, c: K.Cluster) returns (G: seq<Entry>)
    requires Reachable(n, c)
    ensures Explains(G, c) && AnswersRight(G, c.trace) && Distinct(G) && RealTime(G, c.trace)
    ensures forall a, b :: 0 <= a < b < |c.trace| && Own(G, c.trace[a]) && Own(G, c.trace[b]) ==>
      c.trace[a].index != c.trace[b].index
  {
    hide Reachable, Sim, InOrder, Covers, Distinct, RealTime, AnswersRight, HoldsPrefix, AllProposed, DeliveredFrom;
    var w := ReachInOrder(n, c);
    G := ExplainRun(c, w);
    OrderAnswers(c, G);
    OrderDistinct(n, c, G);
    OrderRealTime(n, c, w, G);
    forall a, b | 0 <= a < b < |c.trace| && Own(G, c.trace[a]) && Own(G, c.trace[b])
      ensures c.trace[a].index != c.trace[b].index
    {
      OwnApart(n, c, G, a, b);
    }
  }
}
