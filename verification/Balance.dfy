/** The assignment Rebalance computes: shards s, groups gs in ascending order. */
module Balance {

  function Load(s: seq<int>, g: int): nat { multiset(s)[g] }

  predicate Ascending(gs: seq<int>) {
    forall i, j :: 0 <= i < j < |gs| ==> gs[i] < gs[j]
  }

  /** The first of gs with the greatest load. */
  function Most(s: seq<int>, gs: seq<int>): (g: int)
    requires |gs| > 0
    ensures g in gs && forall h :: h in gs ==> Load(s, h) <= Load(s, g)
    ensures Ascending(gs) ==> forall h :: h in gs && Load(s, h) == Load(s, g) ==> g <= h
  {
    var last := gs[|gs| - 1];
    if |gs| == 1 then last
    else
      var m := Most(s, gs[..|gs| - 1]);
      assert gs == gs[..|gs| - 1] + [last];
      if Load(s, last) > Load(s, m) then last else m
  }

  /** The first of gs with the smallest load. */
  function Least(s: seq<int>, gs: seq<int>): (g: int)
    requires |gs| > 0
    ensures g in gs && forall h :: h in gs ==> Load(s, h) >= Load(s, g)
    ensures Ascending(gs) ==> forall h :: h in gs && Load(s, h) == Load(s, g) ==> g <= h
  {
    var last := gs[|gs| - 1];
    if |gs| == 1 then last
    else
      var m := Least(s, gs[..|gs| - 1]);
      assert gs == gs[..|gs| - 1] + [last];
      if Load(s, last) < Load(s, m) then last else m
  }

  function First(s: seq<int>, g: int): (i: nat)
    requires g in s
    ensures i < |s| && s[i] == g && forall j :: 0 <= j < i ==> s[j] != g
  {
    if s[0] == g then 0 else 1 + First(s[1..], g)
  }

  /** Give every shard from i on that no group owns to the least loaded group. */
  function Assign(s: seq<int>, gs: seq<int>, i: nat): seq<int>
    requires |gs| > 0 && i <= |s|
    decreases |s| - i
  {
    if i == |s| then s
    else Assign(if s[i] in gs then s else s[i := Least(s, gs)], gs, i + 1)
  }

  /** Move one shard at a time from the most to the least loaded group while they are 2 or more apart. */
  function Level(s: seq<int>, gs: seq<int>): seq<int>
    requires |gs| > 0 && Ascending(gs)
    decreases Squares(s, gs)
  {
    var m, l := Most(s, gs), Least(s, gs);
    if Load(s, m) < Load(s, l) + 2 then s
    else
      SquaresDrop(s, First(s, m), l, gs);
      Level(s[First(s, m) := l], gs)
  }

  function Rebalanced(s: seq<int>, gs: seq<int>): seq<int>
    requires Ascending(gs)
  {
    if gs == [] then seq(|s|, _ => 0) else Level(Assign(s, gs, 0), gs)
  }

  // ----- each move, written out -----

  /** g is the one of gs with the greatest load, the smallest id first. */
  ghost predicate Fullest(s: seq<int>, gs: seq<int>, g: int) {
    && g in gs && (forall h :: h in gs ==> Load(s, h) <= Load(s, g))
    && (forall h :: h in gs && Load(s, h) == Load(s, g) ==> g <= h)
  }

  /** g is the one of gs with the smallest load, the smallest id first. */
  ghost predicate Emptiest(s: seq<int>, gs: seq<int>, g: int) {
    && g in gs && (forall h :: h in gs ==> Load(s, h) >= Load(s, g))
    && (forall h :: h in gs && Load(s, h) == Load(s, g) ==> g <= h)
  }

  /** t is s with shard i given to g. */
  ghost predicate Given(s: seq<int>, t: seq<int>, i: int, g: int) {
    0 <= i < |s| && |t| == |s| && t[i] == g && forall j :: 0 <= j < |s| && j != i ==> t[j] == s[j]
  }

  /** One step of levelling: the first shard of the fullest group goes to the emptiest, at least 2 below. */
  ghost predicate LevelStep(s: seq<int>, t: seq<int>, gs: seq<int>) {
    exists i, m, l ::
      && Fullest(s, gs, m) && Emptiest(s, gs, l) && Load(s, m) >= Load(s, l) + 2
      && Given(s, t, i, l) && s[i] == m && forall j :: 0 <= j < i ==> s[j] != m
  }

  ghost predicate Levelled(s: seq<int>, gs: seq<int>) {
    forall g, h :: g in gs && h in gs ==> Load(s, g) <= Load(s, h) + 1
  }

  /** One step of assigning: shard i stays with a member, else goes to the emptiest group. */
  ghost predicate AssignsAt(s: seq<int>, t: seq<int>, gs: seq<int>, i: int)
    requires 0 <= i < |s|
  {
    if s[i] in gs then t == s else exists g :: Emptiest(s, gs, g) && Given(s, t, i, g)
  }

  /** Rebalance is its steps, in order: every shard is assigned in turn, then shards move one at a time until no two
      groups are 2 apart. Without groups every shard is unassigned. */
  ghost predicate ByStep(states: seq<seq<int>>, s: seq<int>, gs: seq<int>) {
    && |states| > |s| && states[0] == s && (forall k :: 0 <= k < |states| ==> |states[k]| == |s|)
    && (forall k :: 0 <= k < |s| ==> AssignsAt(states[k], states[k + 1], gs, k))
    && (forall k :: |s| <= k < |states| - 1 ==> LevelStep(states[k], states[k + 1], gs))
    && Levelled(states[|states| - 1], gs)
  }

  lemma {:induction false} LevelByStep(s: seq<int>, gs: seq<int>) returns (states: seq<seq<int>>)
    requires |gs| > 0 && Ascending(gs)
    ensures |states| > 0 && states[0] == s && states[|states| - 1] == Level(s, gs)
    ensures forall k :: 0 <= k < |states| ==> |states[k]| == |s|
    ensures forall k :: 0 <= k < |states| - 1 ==> LevelStep(states[k], states[k + 1], gs)
    ensures Levelled(Level(s, gs), gs)
    decreases Squares(s, gs)
  {
    hide Squares, Ascending, Load, LevelStep;
    var m, l := Most(s, gs), Least(s, gs);
    if Load(s, m) < Load(s, l) + 2 {
      states := [s];
    } else {
      OneLevelStep(s, gs);
      SquaresDrop(s, First(s, m), l, gs);
      var t := s[First(s, m) := l];
      var rest := LevelByStep(t, gs);
      states := [s] + rest;
    }
  }

  lemma OneLevelStep(s: seq<int>, gs: seq<int>)
    requires |gs| > 0 && Ascending(gs) && Load(s, Most(s, gs)) >= Load(s, Least(s, gs)) + 2
    ensures Most(s, gs) in s && LevelStep(s, s[First(s, Most(s, gs)) := Least(s, gs)], gs)
  {
    var m, l := Most(s, gs), Least(s, gs);
    var i := First(s, m);
    assert Fullest(s, gs, m) && Emptiest(s, gs, l) && Given(s, s[i := l], i, l);
  }

  lemma {:induction false} AssignByStep(s: seq<int>, gs: seq<int>, i: nat) returns (states: seq<seq<int>>)
    requires |gs| > 0 && Ascending(gs) && i <= |s|
    ensures |states| == |s| - i + 1 && states[0] == s && states[|s| - i] == Assign(s, gs, i)
    ensures forall k :: 0 <= k < |states| ==> |states[k]| == |s|
    ensures forall k :: 0 <= k < |s| - i ==> AssignsAt(states[k], states[k + 1], gs, i + k)
    decreases |s| - i
  {
    hide Ascending, Load, AssignsAt;
    if i == |s| {
      states := [s];
    } else {
      var t := if s[i] in gs then s else s[i := Least(s, gs)];
      OneAssignStep(s, gs, i);
      var rest := AssignByStep(t, gs, i + 1);
      states := [s] + rest;
      forall k | 0 <= k < |s| - i ensures AssignsAt(states[k], states[k + 1], gs, i + k) {
        if k > 0 { assert AssignsAt(rest[k - 1], rest[k - 1 + 1], gs, i + 1 + (k - 1)); }
      }
    }
  }

  lemma OneAssignStep(s: seq<int>, gs: seq<int>, i: nat)
    requires |gs| > 0 && Ascending(gs) && i < |s|
    ensures AssignsAt(s, if s[i] in gs then s else s[i := Least(s, gs)], gs, i)
  {
    var g := Least(s, gs);
    assert Emptiest(s, gs, g) && Given(s, s[i := g], i, g);
  }

  lemma RebalanceByStep(s: seq<int>, gs: seq<int>) returns (states: seq<seq<int>>)
    requires Ascending(gs)
    ensures gs == [] ==> |Rebalanced(s, gs)| == |s| && forall i :: 0 <= i < |s| ==> Rebalanced(s, gs)[i] == 0
    ensures gs != [] ==> ByStep(states, s, gs) && states[|states| - 1] == Rebalanced(s, gs)
  {
    hide Ascending, Load, AssignsAt, LevelStep, Levelled, Assign, Level;
    if gs == [] {
      states := [];
    } else {
      var first := AssignByStep(s, gs, 0);
      var rest := LevelByStep(Assign(s, gs, 0), gs);
      states := first + rest[1..];
      forall k | 0 <= k < |s| ensures AssignsAt(states[k], states[k + 1], gs, k) {
        assert AssignsAt(first[k], first[k + 1], gs, 0 + k);
      }
      forall k | |s| <= k < |states| - 1 ensures LevelStep(states[k], states[k + 1], gs) {
        assert LevelStep(rest[k - |s|], rest[k - |s| + 1], gs);
      }
    }
  }

  /** The steps leave no choice: two runs of them end alike. */
  lemma StepsAreForced(s: seq<int>, t: seq<int>, u: seq<int>, gs: seq<int>)
    ensures LevelStep(s, t, gs) && LevelStep(s, u, gs) ==> t == u
    ensures Levelled(s, gs) ==> !LevelStep(s, t, gs)
    ensures forall i :: 0 <= i < |s| && AssignsAt(s, t, gs, i) && AssignsAt(s, u, gs, i) ==> t == u
  {
    hide Load;
  }

  // ----- termination -----

  function Square(n: nat): nat { n * n }

  lemma SquareNext(n: nat)
    ensures Square(n + 1) == Square(n) + 2 * n + 1
  {
  }

  /** Sum of the squared loads. */
  function Squares(s: seq<int>, gs: seq<int>): nat {
    if gs == [] then 0 else Square(Load(s, gs[0])) + Squares(s, gs[1..])
  }

  lemma {:induction false} SquaresMove(s: seq<int>, i: nat, l: int, gs: seq<int>)
    requires i < |s| && s[i] != l && Ascending(gs)
    ensures Squares(s[i := l], gs) == Squares(s, gs)
      + (if s[i] in gs then 1 - 2 * Load(s, s[i]) else 0) + (if l in gs then 2 * Load(s, l) + 1 else 0)
    decreases |gs|
  {
    hide Square;
    if gs == [] {
    } else {
      var g, rest := gs[0], gs[1..];
      SquaresMove(s, i, l, rest);
      assert gs == [g] + rest && g !in rest;
      var a, b := Load(s, g), Load(s[i := l], g);
      if g == s[i] {
        SquareNext(b);
      } else if g == l {
        SquareNext(a);
      }
    }
  }

  /** Each move takes at least 2 off the sum of squared loads. */
  lemma SquaresDrop(s: seq<int>, i: nat, l: int, gs: seq<int>)
    requires i < |s| && s[i] in gs && l in gs && Ascending(gs) && Load(s, s[i]) >= Load(s, l) + 2
    ensures Squares(s[i := l], gs) + 2 <= Squares(s, gs)
  {
    SquaresMove(s, i, l, gs);
  }

  // ----- loads add up -----

  ghost function Total(s: seq<int>, gs: seq<int>): nat {
    if gs == [] then 0 else Load(s, gs[0]) + Total(s, gs[1..])
  }

  lemma {:induction false} TotalPush(s: seq<int>, x: int, gs: seq<int>)
    requires Ascending(gs)
    ensures Total(s + [x], gs) == Total(s, gs) + if x in gs then 1 else 0
    decreases |gs|
  {
    if gs == [] {
    } else {
      TotalPush(s, x, gs[1..]);
      assert gs == [gs[0]] + gs[1..] && gs[0] !in gs[1..];
    }
  }

  ghost predicate Owned(s: seq<int>, gs: seq<int>) {
    forall i :: 0 <= i < |s| ==> s[i] in gs
  }

  lemma {:induction false} OwnedTotal(s: seq<int>, gs: seq<int>)
    requires Ascending(gs) && Owned(s, gs)
    ensures Total(s, gs) == |s|
  {
    if s == [] {
      NoShards(gs);
    } else {
      var t, x := s[..|s| - 1], s[|s| - 1];
      assert s == t + [x];
      OwnedTotal(t, gs);
      TotalPush(t, x, gs);
    }
  }

  lemma {:induction false} NoShards(gs: seq<int>)
    ensures Total([], gs) == 0
    decreases |gs|
  {
    if gs == [] {
    } else {
      NoShards(gs[1..]);
    }
  }

  ghost function Times(k: nat, a: nat): nat { k * a }

  lemma TimesNext(k: nat, a: nat)
    ensures Times(k + 1, a) == Times(k, a) + a && Times(0, a) == 0
  {
  }

  lemma TimesLess(k: nat, a: nat, b: nat)
    requires k > 0 && a < b
    ensures Times(k, a) < Times(k, b)
  {
    assert Times(k, b) == Times(k, a) + Times(k, b - a);
  }

  /** If every load but x's is at most b, so is the average of the others. */
  lemma {:induction false} TotalAtMost(s: seq<int>, gs: seq<int>, x: int, b: nat)
    requires Ascending(gs) && forall g :: g in gs && g != x ==> Load(s, g) <= b
    ensures x in gs ==> Total(s, gs) <= Load(s, x) + Times(|gs| - 1, b)
    ensures x !in gs ==> Total(s, gs) <= Times(|gs|, b)
    decreases |gs|
  {
    hide Times;
    if gs == [] {
      TimesNext(0, b);
    } else {
      TotalAtMost(s, gs[1..], x, b);
      assert gs == [gs[0]] + gs[1..] && gs[0] !in gs[1..];
      TimesNext(|gs| - 1, b);
      if |gs| > 1 { TimesNext(|gs| - 2, b); }
    }
  }

  lemma {:induction false} TotalAtLeast(s: seq<int>, gs: seq<int>, a: nat)
    requires forall g :: g in gs ==> a <= Load(s, g)
    ensures Times(|gs|, a) <= Total(s, gs)
    decreases |gs|
  {
    hide Times;
    if gs == [] {
      TimesNext(0, a);
    } else {
      TotalAtLeast(s, gs[1..], a);
      TimesNext(|gs| - 1, a);
    }
  }

  // ----- Rebalance terminates and balances -----

  /** The loads of gs differ by at most one. */
  ghost predicate Even(s: seq<int>, gs: seq<int>) {
    forall g, h :: g in gs && h in gs ==> Load(s, g) <= Load(s, h) + 1
  }

  lemma {:induction false} AssignOwns(s: seq<int>, gs: seq<int>, i: nat)
    requires |gs| > 0 && i <= |s| && Owned(s[..i], gs)
    ensures |Assign(s, gs, i)| == |s| && Owned(Assign(s, gs, i), gs)
    ensures forall j :: 0 <= j < |s| && (j < i || s[j] in gs) ==> Assign(s, gs, i)[j] == s[j]
    decreases |s| - i
  {
    if i == |s| {
      assert s[..i] == s;
    } else {
      var s' := if s[i] in gs then s else s[i := Least(s, gs)];
      assert s'[..i + 1] == s[..i] + [s'[i]];
      AssignOwns(s', gs, i + 1);
    }
  }

  lemma {:induction false} LevelEvens(s: seq<int>, gs: seq<int>)
    requires |gs| > 0 && Ascending(gs) && Owned(s, gs)
    ensures |Level(s, gs)| == |s| && Owned(Level(s, gs), gs) && Even(Level(s, gs), gs)
    decreases Squares(s, gs)
  {
    var m, l := Most(s, gs), Least(s, gs);
    if Load(s, m) < Load(s, l) + 2 {
    } else {
      SquaresDrop(s, First(s, m), l, gs);
      LevelEvens(s[First(s, m) := l], gs);
    }
  }

  /** From any assignment, every shard ends with a member and loads differ by at most one. */
  lemma RebalancedEven(s: seq<int>, gs: seq<int>)
    requires |gs| > 0 && Ascending(gs)
    ensures var r := Rebalanced(s, gs); |r| == |s| && Owned(r, gs) && Even(r, gs)
  {
    AssignOwns(s, gs, 0);
    LevelEvens(Assign(s, gs, 0), gs);
  }

  // ----- shares -----

  /** An even assignment gives each of k groups N/k shards, rounded down or one more. */
  lemma EvenShare(s: seq<int>, gs: seq<int>, x: int)
    requires Ascending(gs) && Owned(s, gs) && Even(s, gs) && x in gs
    ensures |s| / |gs| <= Load(s, x) <= |s| / |gs| + 1
  {
    hide Times, Load, Total;
    var c := Load(s, x);
    EvenTotal(s, gs, x);
    DivBelow(|s|, |gs|, c + 1);
    if c > 0 { DivAtLeast(|s|, |gs|, c - 1); }
  }

  lemma EvenTotal(s: seq<int>, gs: seq<int>, x: int)
    requires Ascending(gs) && Owned(s, gs) && Even(s, gs) && x in gs
    ensures |s| < Times(|gs|, Load(s, x) + 1)
    ensures Load(s, x) > 0 ==> Times(|gs|, Load(s, x) - 1) <= |s|
  {
    hide Times;
    var c, k := Load(s, x), |gs|;
    OwnedTotal(s, gs);
    TotalAtMost(s, gs, x, c + 1);
    TimesNext(k - 1, c + 1);
    if c > 0 { TotalAtLeast(s, gs, c - 1); }
  }

  lemma DivBelow(n: nat, k: nat, q: nat)
    requires k > 0 && n < Times(k, q)
    ensures n / k < q
  {
    DivTimes(n, k);
    hide Times;
    if q < n / k { TimesLess(k, q, n / k); }
  }

  lemma DivAtLeast(n: nat, k: nat, q: nat)
    requires k > 0 && Times(k, q) <= n
    ensures n / k >= q
  {
    DivTimes(n, k);
    hide Times;
    if n / k + 1 < q { TimesLess(k, n / k + 1, q); }
  }

  lemma DivTimes(n: nat, k: nat)
    requires k > 0
    ensures Times(k, n / k) <= n < Times(k, n / k + 1)
  {
  }

  // ----- Rebalance moves the minimum -----

  /** How many shards change hands. */
  ghost function Moved(s: seq<int>, r: seq<int>): nat
    requires |s| == |r|
  {
    if s == [] then 0
    else Moved(s[..|s| - 1], r[..|s| - 1]) + if s[|s| - 1] != r[|s| - 1] then 1 else 0
  }

  /** gs is the old groups and the new ones. */
  ghost predicate Joined(gs: seq<int>, prior: seq<int>, news: seq<int>) {
    && Ascending(gs) && Ascending(prior) && Ascending(news)
    && (forall g :: g in gs <==> g in prior || g in news)
    && (forall g :: g in news ==> g !in prior)
  }

  /** s is s0 with shards given by old groups to new ones, neither side uneven and no new group above an old one. */
  ghost predicate Filling(s: seq<int>, s0: seq<int>, prior: seq<int>, news: seq<int>) {
    && |s| == |s0| && (forall i :: 0 <= i < |s| ==> s[i] in prior || s[i] in news)
    && (forall i :: 0 <= i < |s| ==> s[i] == s0[i] || s[i] in news)
    && Even(s, prior) && Even(s, news)
    && (forall x, g :: x in news && g in prior ==> Load(s, x) <= Load(s, g))
  }

  /** While loads are 2 or more apart, the most loaded group is an old one and the least loaded a new one. */
  lemma FillingEnds(s: seq<int>, s0: seq<int>, gs: seq<int>, prior: seq<int>, news: seq<int>, m: int, l: int)
    requires Joined(gs, prior, news) && Filling(s, s0, prior, news)
    requires m in gs && l in gs && Load(s, m) >= Load(s, l) + 2
    ensures m in prior && l in news
  {
    hide Load;
  }

  lemma FillingMove(s: seq<int>, s0: seq<int>, gs: seq<int>, prior: seq<int>, news: seq<int>, i: nat, l: int)
    requires Joined(gs, prior, news) && Filling(s, s0, prior, news)
    requires i < |s| && s[i] in prior && l in news && Load(s, s[i]) >= Load(s, l) + 2
    requires forall g :: g in gs ==> Load(s, l) <= Load(s, g) <= Load(s, s[i])
    ensures Filling(s[i := l], s0, prior, news)
  {
    var m, s' := s[i], s[i := l];
    MoveLoads(s, i, l);
    hide Load;
    forall g, h | g in prior && h in prior ensures Load(s', g) <= Load(s', h) + 1 {
      assert g in gs && h in gs;
      assert Load(s, g) <= Load(s, h) + 1;
    }
    forall g, h | g in news && h in news ensures Load(s', g) <= Load(s', h) + 1 {
      assert g in gs && h in gs;
      assert Load(s, g) <= Load(s, h) + 1;
    }
    forall x, g | x in news && g in prior ensures Load(s', x) <= Load(s', g) {
      assert x in gs && g in gs;
      assert Load(s, m) <= Load(s, g) + 1 && Load(s, x) <= Load(s, l) + 1;
    }
  }

  lemma MoveLoads(s: seq<int>, i: nat, l: int)
    requires i < |s| && s[i] != l
    ensures forall g :: Load(s[i := l], g) == Load(s, g) + (if g == l then 1 else 0) - (if g == s[i] then 1 else 0)
  {
  }

  lemma {:induction false} FillingLevel(s: seq<int>, s0: seq<int>, gs: seq<int>, prior: seq<int>, news: seq<int>)
    requires Joined(gs, prior, news) && |gs| > 0 && Filling(s, s0, prior, news)
    ensures Filling(Level(s, gs), s0, prior, news)
    decreases Squares(s, gs)
  {
    hide Filling, Squares;
    var m, l := Most(s, gs), Least(s, gs);
    if Load(s, m) < Load(s, l) + 2 {
    } else {
      FillingEnds(s, s0, gs, prior, news, m, l);
      FillingMove(s, s0, gs, prior, news, First(s, m), l);
      SquaresDrop(s, First(s, m), l, gs);
      FillingLevel(s[First(s, m) := l], s0, gs, prior, news);
    }
  }

  lemma NewcomersStart(s: seq<int>, gs: seq<int>, prior: seq<int>, news: seq<int>)
    requires Joined(gs, prior, news) && Owned(s, prior) && Even(s, prior)
    ensures Owned(s, gs) && Filling(s, s, prior, news)
  {
    forall i | 0 <= i < |s| ensures s[i] in gs {
      var g := s[i];
      assert g in prior;
    }
    forall x | x in news ensures Load(s, x) == 0 {
      forall i | 0 <= i < |s| ensures s[i] != x { assert s[i] in prior; }
    }
  }

  lemma {:induction false} MovedAre(s: seq<int>, r: seq<int>, news: seq<int>)
    requires |s| == |r| && Ascending(news) && forall i :: 0 <= i < |s| ==> s[i] !in news
    ensures Moved(s, r) >= Total(r, news)
    ensures (forall i :: 0 <= i < |s| ==> r[i] == s[i] || r[i] in news) ==> Moved(s, r) == Total(r, news)
  {
    if s == [] {
      NoShards(news);
    } else {
      var n := |s| - 1;
      assert r == r[..n] + [r[n]] && s == s[..n] + [s[n]];
      MovedAre(s[..n], r[..n], news);
      TotalPush(r[..n], r[n], news);
    }
  }

  /** New groups join an even configuration: shards move only to them. */
  lemma JoinMoves(s: seq<int>, gs: seq<int>, prior: seq<int>, news: seq<int>)
    requires Joined(gs, prior, news) && |prior| > 0 && Owned(s, prior) && Even(s, prior)
    ensures var r := Rebalanced(s, gs);
      && |r| == |s| && Moved(s, r) == Total(r, news)
      && (forall i :: 0 <= i < |s| ==> r[i] == s[i] || r[i] in news)
      && Filling(r, s, prior, news)
  {
    hide Even, Level, Total, Moved;
    var g0 := prior[0];
    assert g0 in prior && g0 in gs;
    NewcomersStart(s, gs, prior, news);
    AssignNothing(s, gs, 0);
    FillingLevel(s, s, gs, prior, news);
    var r := Rebalanced(s, gs);
    OldOnly(s, prior, news, gs);
    MovedAre(s, r, news);
  }

  lemma OldOnly(s: seq<int>, prior: seq<int>, news: seq<int>, gs: seq<int>)
    requires Joined(gs, prior, news) && Owned(s, prior)
    ensures forall i :: 0 <= i < |s| ==> s[i] !in news
  {
    forall i | 0 <= i < |s| ensures s[i] !in news {
      var g := s[i];
      assert g in prior;
    }
  }

  /** When exactly one group joins k others, exactly floor(N/(k+1)) shards move. */
  lemma JoinOneMoves(s: seq<int>, gs: seq<int>, prior: seq<int>, x: int)
    requires Joined(gs, prior, [x]) && |prior| > 0 && Owned(s, prior) && Even(s, prior)
    ensures |Rebalanced(s, gs)| == |s| && |gs| > 0 && Moved(s, Rebalanced(s, gs)) == |s| / |gs|
  {
    hide Level, Assign, Moved;
    var g0 := prior[0];
    assert g0 in prior && g0 in gs;
    JoinMoves(s, gs, prior, [x]);
    var r := Rebalanced(s, gs);
    RebalancedEven(s, gs);
    assert x in [x];
    EvenShare(r, gs, x);
    OwnedTotal(r, gs);
    forall g | g in gs ensures Load(r, x) <= Load(r, g) {
      if g !in prior { assert g in [x]; }
    }
    TotalAtLeast(r, gs, Load(r, x));
    DivAtLeast(|s|, |gs|, Load(r, x));
    assert Total(r, [x]) == Load(r, x) + Total(r, []);
  }

  lemma {:induction false} SplitTotal(r: seq<int>, gs: seq<int>, prior: seq<int>, news: seq<int>)
    requires Joined(gs, prior, news) && Owned(r, gs)
    ensures Total(r, prior) + Total(r, news) == |r|
  {
    if r == [] {
      NoShards(prior);
      NoShards(news);
    } else {
      var n := |r| - 1;
      var x := r[n];
      assert r == r[..n] + [x];
      SplitTotal(r[..n], gs, prior, news);
      TotalPush(r[..n], x, prior);
      TotalPush(r[..n], x, news);
      assert x in gs;
    }
  }

  /** No even assignment over the old and new groups moves fewer shards than Rebalance does. */
  lemma JoinMovesLeast(s: seq<int>, gs: seq<int>, prior: seq<int>, news: seq<int>, other: seq<int>)
    requires Joined(gs, prior, news) && |prior| > 0 && Owned(s, prior) && Even(s, prior)
    requires |other| == |s| && Owned(other, gs) && Even(other, gs)
    ensures |Rebalanced(s, gs)| == |s| && Moved(s, Rebalanced(s, gs)) <= Moved(s, other)
  {
    var g0 := prior[0];
    assert g0 in prior && g0 in gs;
    hide Level, Assign, Moved, Total, Rebalanced;
    var r := Rebalanced(s, gs);
    JoinMoves(s, gs, prior, news);
    RebalancedEven(s, gs);
    OldOnly(s, prior, news, gs);
    MovedAre(s, other, news);
    NewsLeast(r, other, gs, prior, news);
  }

  /** Of all even assignments, one that puts no new group above an old one gives the new groups least. */
  lemma NewsLeast(r: seq<int>, other: seq<int>, gs: seq<int>, prior: seq<int>, news: seq<int>)
    requires Joined(gs, prior, news) && |gs| > 0 && |other| == |r|
    requires Owned(r, gs) && Even(r, gs) && Owned(other, gs) && Even(other, gs)
    requires forall x, g :: x in news && g in prior ==> Load(r, x) <= Load(r, g)
    ensures Total(r, news) <= Total(other, news)
  {
    hide Even, Load, Total;
    forall g | g in gs ensures |r| / |gs| <= Load(other, g) <= |r| / |gs| + 1 {
      EvenShare(other, gs, g);
    }
    NewsLeastAt(r, other, gs, prior, news, |r| / |gs|);
  }

  lemma NewsLeastAt(r: seq<int>, other: seq<int>, gs: seq<int>, prior: seq<int>, news: seq<int>, f: nat)
    requires Joined(gs, prior, news) && |other| == |r| && Owned(r, gs) && Owned(other, gs)
    requires forall g :: g in gs ==> f <= Load(other, g) <= f + 1
    requires forall x, g :: x in news && g in prior ==> Load(r, x) <= Load(r, g)
    ensures Total(r, news) <= Total(other, news)
  {
    hide Times, Load, Total;
    if x :| x in news && Load(r, x) > f {
      forall g | g in prior ensures Load(r, g) >= f + 1 >= Load(other, g) { assert g in gs; }
      TotalAtLeast(r, prior, f + 1);
      TotalUnder(other, prior, f + 1);
      SplitTotal(r, gs, prior, news);
      SplitTotal(other, gs, prior, news);
    } else {
      forall x | x in news ensures Load(r, x) <= f <= Load(other, x) { assert x in gs; }
      TotalUnder(r, news, f);
      TotalAtLeast(other, news, f);
    }
  }

  lemma {:induction false} TotalUnder(s: seq<int>, gs: seq<int>, b: nat)
    requires forall g :: g in gs ==> Load(s, g) <= b
    ensures Total(s, gs) <= Times(|gs|, b)
    decreases |gs|
  {
    hide Times;
    if gs == [] {
      TimesNext(0, b);
    } else {
      TotalUnder(s, gs[1..], b);
      TimesNext(|gs| - 1, b);
    }
  }

  lemma {:induction false} AssignNothing(s: seq<int>, gs: seq<int>, i: nat)
    requires |gs| > 0 && i <= |s| && Owned(s, gs)
    ensures Assign(s, gs, i) == s
    decreases |s| - i
  {
    if i == |s| {
    } else {
      AssignNothing(s, gs, i + 1);
    }
  }

  lemma {:induction false} AssignKeepsEven(s: seq<int>, gs: seq<int>, i: nat)
    requires |gs| > 0 && i <= |s| && Even(s, gs)
    ensures Even(Assign(s, gs, i), gs)
    decreases |s| - i
  {
    if i == |s| {
    } else {
      var s' := if s[i] in gs then s else s[i := Least(s, gs)];
      AssignKeepsEven(s', gs, i + 1);
    }
  }

  /** Groups leave an even configuration: exactly their shards are reassigned. */
  lemma LeaveMovesOnlyTheirs(s: seq<int>, prior: seq<int>, gs: seq<int>)
    requires Ascending(gs) && |gs| > 0 && Owned(s, prior) && Even(s, prior) && forall g :: g in gs ==> g in prior
    ensures var r := Rebalanced(s, gs);
      |r| == |s| && Owned(r, gs) && forall i :: 0 <= i < |s| ==> (r[i] == s[i] <==> s[i] in gs)
  {
    AssignOwns(s, gs, 0);
    AssignKeepsEven(s, gs, 0);
    var t := Assign(s, gs, 0);
    assert Load(t, Most(t, gs)) < Load(t, Least(t, gs)) + 2;
  }
}
