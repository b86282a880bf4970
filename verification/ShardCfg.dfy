/** A shard configuration, changed in place by Join, Leave and Rebalance. */
module ShardCfg {
  import opened Balance

  /** What Join and Leave do: log.Fatalf ends the process. */
  datatype Outcome = Changed | Refused | Fatal

  // ----- group ids in ascending order -----

  ghost predicate IsOrder(gs: seq<int>, groups: map<int, seq<string>>) {
    Ascending(gs) && forall g :: g in gs <==> g in groups
  }

  function Insert(gs: seq<int>, g: int): (r: seq<int>)
    requires Ascending(gs) && g !in gs
    ensures Ascending(r) && forall h :: h in r <==> h in gs || h == g
  {
    if gs == [] then [g]
    else if g < gs[0] then
      assert gs == [gs[0]] + gs[1..];
      [g] + gs
    else
      assert gs == [gs[0]] + gs[1..];
      var r := Insert(gs[1..], g);
      Prepend(gs[0], r);
      [gs[0]] + r
  }

  lemma Prepend(g: int, r: seq<int>)
    requires Ascending(r) && forall h :: h in r ==> g < h
    ensures Ascending([g] + r)
  {
    forall i | 0 <= i < |r| ensures g < r[i] {
      var h := r[i];
      assert h in r;
    }
  }

  lemma {:induction false} OrderExists(groups: map<int, seq<string>>)
    ensures exists gs :: IsOrder(gs, groups)
    decreases |groups|
  {
    if groups == map[] {
      assert IsOrder([], groups);
    } else {
      var item :| item in groups.Items;
      var rest := groups - {item.0};
      assert groups == rest[item.0 := item.1];
      OrderExists(rest);
      var gs :| IsOrder(gs, rest);
      assert IsOrder(Insert(gs, item.0), groups);
    }
  }

  ghost function Order(groups: map<int, seq<string>>): (gs: seq<int>)
    ensures IsOrder(gs, groups)
  {
    OrderExists(groups);
    var gs :| IsOrder(gs, groups);
    gs
  }

  lemma {:induction false} OrderUnique(gs: seq<int>, hs: seq<int>)
    requires Ascending(gs) && Ascending(hs) && forall g :: g in gs <==> g in hs
    ensures gs == hs
    decreases |gs|
  {
    assert |hs| > 0 ==> hs[0] in hs;
    if gs == [] {
    } else {
      assert gs[0] in gs;
      assert hs[0] in hs;
      assert gs == [gs[0]] + gs[1..] && hs == [hs[0]] + hs[1..];
      forall g ensures g in gs[1..] <==> g in hs[1..] {
        assert g in gs[1..] <==> g in gs && g != gs[0];
        assert g in hs[1..] <==> g in hs && g != hs[0];
      }
      OrderUnique(gs[1..], hs[1..]);
    }
  }

  method SortedKeys(groups: map<int, seq<string>>) returns (gs: seq<int>)
    ensures gs == Order(groups)
  {
    gs := [];
    var todo := groups;
    while todo != map[]
      invariant todo.Keys <= groups.Keys
      invariant Ascending(gs) && forall g :: g in gs <==> g in groups && g !in todo
      decreases |todo|
    {
      var item :| item in todo.Items;
      gs := Insert(gs, item.0);
      ghost var rest := todo - {item.0};
      assert todo == rest[item.0 := item.1];
      todo := todo - {item.0};
    }
    OrderUnique(gs, Order(groups));
  }

  // ----- what Join accepts -----

  ghost predicate Shares(a: seq<string>, b: seq<string>) {
    exists s :: s in a && s in b
  }

  method AnyShared(a: seq<string>, b: seq<string>) returns (shared: bool)
    ensures shared == Shares(a, b)
  {
    for i := 0 to |a|
      invariant forall s :: s in a[..i] ==> s !in b
    {
      for j := 0 to |b|
        invariant a[i] !in b[..j]
      {
        if a[i] == b[j] {
          assert a[i] in a && a[i] in b;
          return true;
        }
      }
      assert b[..|b|] == b;
      assert a[..i + 1] == a[..i] + [a[i]];
    }
    assert a[..|a|] == a;
    shared := false;
  }

  ghost predicate Taken(groups: map<int, seq<string>>, servers: seq<string>) {
    exists x :: x in groups && Shares(groups[x], servers)
  }

  ghost predicate AllNew(groups: map<int, seq<string>>, servers: map<int, seq<string>>) {
    forall g :: g in servers ==> g !in groups
  }

  /** No new group reuses a group id or a server, of the configuration or of another new group. */
  ghost predicate Joinable(groups: map<int, seq<string>>, servers: map<int, seq<string>>) {
    && AllNew(groups, servers)
    && (forall g, h :: g in servers && h in groups ==> !Shares(groups[h], servers[g]))
    && (forall g, h :: g in servers && h in servers && g != h ==> !Shares(servers[h], servers[g]))
  }

  class ShardConfig {
    var num: nat
    const shards: array<int>
    var groups: map<int, seq<string>>

    constructor (n: nat)
      ensures num == 0 && fresh(shards) && shards.Length == n && groups == map[]
      ensures forall i :: 0 <= i < n ==> shards[i] == 0
    {
      num := 0;
      shards := new int[n](_ => 0);
      groups := map[];
    }

    method Count() returns (counts: map<int, nat>)
      ensures forall g :: (if g in counts then counts[g] else 0) == Load(shards[..], g)
    {
      counts := map[];
      for i := 0 to shards.Length
        invariant forall g :: (if g in counts then counts[g] else 0) == Load(shards[..i], g)
      {
        var g := shards[i];
        assert shards[..i + 1] == shards[..i] + [g];
        counts := counts[g := (if g in counts then counts[g] else 0) + 1];
      }
      assert shards[..shards.Length] == shards[..];
    }

    /** The most and the least loaded group, the smallest id first; 257 stands for no least group. */
    method Analyze() returns (mg: int, mn: int, lg: int, ln: int)
      requires shards.Length <= 256
      ensures groups == map[] ==> (mg, mn, lg, ln) == (-1, -1, -1, 257)
      ensures var s, gs := shards[..], Order(groups);
        gs != [] ==> mg == Most(s, gs) && mn == Load(s, mg) && lg == Least(s, gs) && ln == Load(s, lg)
    {
      var counts := Count();
      var gs := SortedKeys(groups);
      ghost var s := shards[..];
      hide Most, Least, IsOrder, Load;
      mn, mg, ln, lg := -1, -1, 257, -1;
      for i := 0 to |gs|
        invariant i == 0 ==> (mg, mn, lg, ln) == (-1, -1, -1, 257)
        invariant i > 0 ==> mg == Most(s, gs[..i]) && mn == Load(s, mg) && lg == Least(s, gs[..i]) && ln == Load(s, lg)
      {
        var g := gs[i];
        var c := if g in counts then counts[g] else 0;
        ScanStep(s, gs, i);
        LoadFits(s, g);
        if c < ln {
          ln := c;
          lg := g;
        }
        if c > mn {
          mn := c;
          mg := g;
        }
      }
      assert gs[..|gs|] == gs;
      NoGroups(groups);
    }

    method Rebalance()
      requires shards.Length <= 256
      modifies shards
      ensures shards[..] == Rebalanced(old(shards[..]), Order(groups))
    {
      ghost var gs := Order(groups);
      NoGroups(groups);
      if |groups| < 1 {
        for i := 0 to shards.Length
          invariant forall j :: 0 <= j < i ==> shards[j] == 0
        {
          shards[i] := 0;
        }
        return;
      }
      AssignUnowned();
      LevelLoads();
    }

    /** Give every shard no group owns to the least loaded group. */
    method AssignUnowned()
      requires shards.Length <= 256 && groups != map[] && Order(groups) != []
      modifies shards
      ensures shards[..] == Assign(old(shards[..]), Order(groups), 0)
    {
      hide Least, Load, Assign, IsOrder;
      ghost var gs, was := Order(groups), shards[..];
      for i := 0 to shards.Length
        invariant Assign(shards[..], gs, i) == Assign(was, gs, 0)
      {
        ghost var s := shards[..];
        assert s[i] == shards[i];
        AssignStep(s, gs, i);
        Members(groups, s[i]);
        if shards[i] !in groups {
          var _, _, lg, _ := Analyze();
          shards[i] := lg;
          assert shards[..] == s[i := lg];
        }
      }
      AssignDone(shards[..], gs);
    }

    /** Move shards from the most to the least loaded group. */
    method LevelLoads()
      requires shards.Length <= 256 && Order(groups) != []
      modifies shards
      ensures shards[..] == Level(old(shards[..]), Order(groups))
    {
      hide Squares, Most, Least;
      ghost var gs, was := Order(groups), shards[..];
      var mg, mn, lg, ln := Analyze();
      while mn >= ln + 2
        invariant mg == Most(shards[..], gs) && mn == Load(shards[..], mg)
        invariant lg == Least(shards[..], gs) && ln == Load(shards[..], lg)
        invariant Level(shards[..], gs) == Level(was, gs)
        decreases Squares(shards[..], gs)
      {
        ghost var s := shards[..];
        SquaresDrop(s, First(s, mg), lg, gs);
        MoveOne(mg, lg);
        mg, mn, lg, ln := Analyze();
      }
    }

    /** Move the first shard of mg to lg. */
    method MoveOne(mg: int, lg: int)
      requires mg in shards[..]
      modifies shards
      ensures shards[..] == old(shards[..])[First(old(shards[..]), mg) := lg]
    {
      ghost var s := shards[..];
      var i := 0;
      while shards[i] != mg
        invariant i <= First(s, mg)
        decreases shards.Length - i
      {
        i := i + 1;
      }
      assert i == First(s, mg);
      shards[i] := lg;
    }

    /** Is some server of the new group already in a group? */
    method FindClash(servers: seq<string>) returns (clash: bool)
      ensures clash == Taken(groups, servers)
    {
      hide Shares;
      var todo := groups;
      while todo != map[]
        invariant todo.Keys <= groups.Keys
        invariant forall x :: x in groups && x !in todo ==> !Shares(groups[x], servers)
        decreases |todo|
      {
        var item :| item in todo.Items;
        var x := item.0;
        ghost var rest := todo - {x};
        assert todo == rest[x := item.1];
        var shared := AnyShared(groups[x], servers);
        if shared {
          return true;
        }
        todo := todo - {x};
      }
      clash := false;
    }

    /** One new group. */
    method Add(gid: int, servers: seq<string>) returns (out: Outcome)
      modifies `groups
      ensures out == Refused <==> gid in old(groups)
      ensures out == Fatal <==> gid !in old(groups) && Taken(old(groups), servers)
      ensures groups == if out == Changed then old(groups)[gid := servers] else old(groups)
    {
      if gid in groups {
        return Refused;
      }
      var clash := FindClash(servers);
      if clash {
        return Fatal;
      }
      groups := groups[gid := servers];
      out := Changed;
    }

    method Join(servers: map<int, seq<string>>) returns (out: Outcome)
      modifies `num, `groups
      ensures out == Changed <==> servers != map[] && Joinable(old(groups), servers)
      ensures out == Changed ==> groups == old(groups) + servers && num == old(num) + 1
      ensures out != Changed ==> num == old(num)
      ensures out == Refused ==> !AllNew(old(groups), servers)
      ensures out != Changed ==>
        if servers == map[] then out == Fatal && groups == old(groups)
        else exists todo, g :: JoinStopped(old(groups), servers, todo, groups, g, out)
    {
      hide Joinable, AllNew, Taken, JoinedSoFar;
      ghost var was := groups;
      var todo := servers;
      NothingJoined(was, servers);
      while todo != map[]
        invariant JoinedSoFar(was, servers, todo, groups) && num == old(num)
        decreases |todo|
      {
        var item :| item in todo.Items;
        JoinOne(was, servers, todo, groups, item);
        var res := Add(item.0, item.1);
        if res != Changed {
          assert JoinStopped(was, servers, todo, groups, item.0, res);
          return res;
        }
        todo := todo - {item.0};
      }
      AllJoined(was, servers, groups);
      if servers == map[] {
        return Fatal;
      }
      num := num + 1;
      out := Changed;
    }

    method Leave(gids: seq<int>) returns (out: Outcome)
      modifies `num, `groups
      ensures out == Changed <==> gids != [] && Leavable(old(groups), gids)
      ensures out == Changed ==> groups == old(groups) - (set g | g in gids) && num == old(num) + 1
      ensures out != Changed ==> num == old(num)
      ensures out == Fatal ==> gids == [] && groups == old(groups)
      ensures out == Refused ==> exists i :: LeaveStopped(old(groups), gids, i, groups)
    {
      for i := 0 to |gids|
        invariant Leavable(old(groups), gids[..i]) && num == old(num)
        invariant groups == old(groups) - (set g | g in gids[..i])
      {
        if gids[i] !in groups {
          assert gids[i] in gids;
          Gone(old(groups), gids, i);
          assert LeaveStopped(old(groups), gids, i, groups);
          return Refused;
        }
        assert gids[..i + 1] == gids[..i] + [gids[i]];
        groups := groups - {gids[i]};
      }
      assert gids[..|gids|] == gids;
      if |gids| == 0 {
        return Fatal;
      }
      num := num + 1;
      out := Changed;
    }

    method JoinBalance(servers: map<int, seq<string>>) returns (out: Outcome)
      requires shards.Length <= 256
      modifies this, shards
      ensures out == Changed <==> servers != map[] && Joinable(old(groups), servers)
      ensures out == Changed ==>
        && groups == old(groups) + servers && num == old(num) + 1
        && shards[..] == Rebalanced(old(shards[..]), Order(groups))
      ensures out != Changed ==> num == old(num) && shards[..] == old(shards[..])
      ensures out != Changed ==>
        if servers == map[] then out == Fatal && groups == old(groups)
        else exists todo, g :: JoinStopped(old(groups), servers, todo, groups, g, out)
    {
      out := Join(servers);
      if out == Changed {
        Rebalance();
      }
    }

    method LeaveBalance(gids: seq<int>) returns (out: Outcome)
      requires shards.Length <= 256
      modifies this, shards
      ensures out == Changed <==> gids != [] && Leavable(old(groups), gids)
      ensures out == Changed ==>
        && groups == old(groups) - (set g | g in gids) && num == old(num) + 1
        && shards[..] == Rebalanced(old(shards[..]), Order(groups))
      ensures out != Changed ==> num == old(num) && shards[..] == old(shards[..])
      ensures out == Fatal ==> gids == [] && groups == old(groups)
      ensures out == Refused ==> exists i :: LeaveStopped(old(groups), gids, i, groups)
    {
      out := Leave(gids);
      if out == Changed {
        Rebalance();
      }
    }
  }

  ghost predicate Leavable(groups: map<int, seq<string>>, gids: seq<int>) {
    && (forall g :: g in gids ==> g in groups)
    && (forall i, j :: 0 <= i < j < |gids| ==> gids[i] != gids[j])
  }

  /** Leave stopped at the first id that was missing or repeated; those before it are gone. */
  ghost predicate LeaveStopped(was: map<int, seq<string>>, gids: seq<int>, i: int, groups: map<int, seq<string>>) {
    && 0 <= i < |gids| && Leavable(was, gids[..i]) && gids[i] !in groups
    && groups == was - (set g | g in gids[..i])
  }

  /** An id that is missing, or that an earlier one repeated, cannot leave. */
  lemma Gone(groups: map<int, seq<string>>, gids: seq<int>, i: nat)
    requires i < |gids| && gids[i] !in groups - (set g | g in gids[..i])
    ensures !Leavable(groups, gids)
  {
    var g := gids[i];
    assert g in gids;
    if g in gids[..i] {
      var j :| 0 <= j < i && gids[..i][j] == g;
      assert gids[j] == gids[i];
    } else {
      assert g !in groups;
    }
  }

  /** Every group outside todo has joined. */
  ghost predicate JoinedSoFar(was: map<int, seq<string>>, servers: map<int, seq<string>>,
                              todo: map<int, seq<string>>, groups: map<int, seq<string>>) {
    && (forall g :: g in todo ==> g in servers && servers[g] == todo[g])
    && groups == was + (servers - todo.Keys) && Joinable(was, servers - todo.Keys)
  }

  /** Join stopped at g, refused for its id or fatal for one of its servers; every group outside todo has joined. */
  ghost predicate JoinStopped(was: map<int, seq<string>>, servers: map<int, seq<string>>, todo: map<int, seq<string>>,
                              groups: map<int, seq<string>>, g: int, out: Outcome) {
    && JoinedSoFar(was, servers, todo, groups) && g in todo
    && (out == Refused ==> g in groups) && (out == Fatal ==> g !in groups && Taken(groups, todo[g]))
  }

  lemma NothingJoined(was: map<int, seq<string>>, servers: map<int, seq<string>>)
    ensures JoinedSoFar(was, servers, servers, was)
  {
    assert servers - servers.Keys == map[];
    assert was + map[] == was;
  }

  lemma AllJoined(was: map<int, seq<string>>, servers: map<int, seq<string>>, groups: map<int, seq<string>>)
    requires JoinedSoFar(was, servers, map[], groups)
    ensures groups == was + servers && Joinable(was, servers)
  {
    var none: map<int, seq<string>> := map[];
    assert servers - none.Keys == servers;
  }

  /** Adding the next group succeeds exactly as long as the whole Join can. */
  lemma JoinOne(was: map<int, seq<string>>, servers: map<int, seq<string>>,
                todo: map<int, seq<string>>, groups: map<int, seq<string>>, item: (int, seq<string>))
    requires JoinedSoFar(was, servers, todo, groups) && item in todo.Items
    ensures |todo - {item.0}| < |todo|
    ensures item.0 in groups ==> !AllNew(was, servers) && !Joinable(was, servers)
    ensures Taken(groups, item.1) ==> !Joinable(was, servers)
    ensures item.0 !in groups && !Taken(groups, item.1) ==>
      JoinedSoFar(was, servers, todo - {item.0}, groups[item.0 := item.1])
  {
    hide JoinedSoFar, Joinable, AllNew, Taken;
    var gid := item.0;
    var rest := todo - {gid};
    assert todo == rest[gid := item.1];
    if gid in groups {
      JoinAgain(was, servers, todo, groups, gid);
    }
    if Taken(groups, todo[gid]) {
      JoinClash(was, servers, todo, groups, gid);
    } else if gid !in groups {
      JoinFree(was, servers, todo, groups, gid);
    }
  }

  lemma JoinAgain(was: map<int, seq<string>>, servers: map<int, seq<string>>,
                  todo: map<int, seq<string>>, groups: map<int, seq<string>>, gid: int)
    requires JoinedSoFar(was, servers, todo, groups) && gid in todo && gid in groups
    ensures !AllNew(was, servers) && !Joinable(was, servers)
  {
    assert gid !in servers - todo.Keys;
    assert gid in was;
  }

  lemma JoinClash(was: map<int, seq<string>>, servers: map<int, seq<string>>,
                  todo: map<int, seq<string>>, groups: map<int, seq<string>>, gid: int)
    requires JoinedSoFar(was, servers, todo, groups) && gid in todo && Taken(groups, todo[gid])
    ensures !Joinable(was, servers)
  {
    var x :| x in groups && Shares(groups[x], todo[gid]);
    hide Shares, Taken;
    assert x !in servers - todo.Keys ==> x in was && groups[x] == was[x];
    assert x in servers - todo.Keys ==> x in servers && x != gid && groups[x] == servers[x];
  }

  lemma JoinFree(was: map<int, seq<string>>, servers: map<int, seq<string>>,
                 todo: map<int, seq<string>>, groups: map<int, seq<string>>, gid: int)
    requires JoinedSoFar(was, servers, todo, groups) && gid in todo && gid !in groups && !Taken(groups, todo[gid])
    ensures JoinedSoFar(was, servers, todo - {gid}, groups[gid := todo[gid]])
  {
    hide Joinable, Taken;
    var rest := todo - {gid};
    assert servers - rest.Keys == (servers - todo.Keys)[gid := todo[gid]];
    AddFree(was, servers - todo.Keys, gid, todo[gid]);
  }

  lemma AddFree(was: map<int, seq<string>>, part: map<int, seq<string>>, gid: int, servers: seq<string>)
    requires Joinable(was, part) && gid !in was + part && !Taken(was + part, servers)
    ensures Joinable(was, part[gid := servers]) && was + part[gid := servers] == (was + part)[gid := servers]
  {
    var all, part' := was + part, part[gid := servers];
    forall g, h | g in part' && h in part' && g != h
      ensures !Shares(part'[h], part'[g])
    {
      if g == gid { assert h in all; } else if h == gid { assert g in all; SharesSwap(part'[h], part'[g]); }
    }
    forall g, h | g in part' && h in was
      ensures !Shares(was[h], part'[g])
    {
      assert h in all;
    }
  }

  lemma SharesSwap(a: seq<string>, b: seq<string>)
    ensures Shares(a, b) == Shares(b, a)
  {
  }

  lemma NoGroups(groups: map<int, seq<string>>)
    ensures Order(groups) == [] <==> |groups| == 0
    ensures |groups| == 0 <==> groups == map[]
  {
    var gs := Order(groups);
    assert |gs| > 0 ==> gs[0] in gs;
    if groups != map[] {
      var item :| item in groups.Items;
      var rest := groups - {item.0};
      assert groups == rest[item.0 := item.1];
      var g := item.0;
      assert g in groups && g in gs;
    }
  }

  lemma ScanStep(s: seq<int>, gs: seq<int>, i: nat)
    requires i < |gs|
    ensures i == 0 ==> Most(s, gs[..i + 1]) == gs[i] && Least(s, gs[..i + 1]) == gs[i]
    ensures i > 0 ==>
      && Most(s, gs[..i + 1]) == (if Load(s, gs[i]) > Load(s, Most(s, gs[..i])) then gs[i] else Most(s, gs[..i]))
      && Least(s, gs[..i + 1]) == (if Load(s, gs[i]) < Load(s, Least(s, gs[..i])) then gs[i] else Least(s, gs[..i]))
  {
    assert gs[..i + 1][..i] == gs[..i];
  }

  lemma AssignStep(s: seq<int>, gs: seq<int>, i: nat)
    requires |gs| > 0 && i < |s|
    ensures Assign(s, gs, i) == Assign(if s[i] in gs then s else s[i := Least(s, gs)], gs, i + 1)
  {
  }

  lemma AssignDone(s: seq<int>, gs: seq<int>)
    requires |gs| > 0
    ensures Assign(s, gs, |s|) == s
  {
  }

  lemma Members(groups: map<int, seq<string>>, g: int)
    ensures g in Order(groups) <==> g in groups
  {
  }

  lemma LoadFits(s: seq<int>, g: int)
    ensures Load(s, g) <= |s|
  {
    assert |multiset(s)| == |s|;
    MultiplicityFits(multiset(s), g);
  }

  lemma MultiplicityFits(m: multiset<int>, g: int)
    ensures m[g] <= |m|
  {
    assert m[g := 0] + multiset{}[g := m[g]] == m;
  }
}
