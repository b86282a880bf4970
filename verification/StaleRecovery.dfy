/** InitController's two reads need not belong together. When a recovery is safe, exactly, and what goes wrong
    otherwise; with a run that gets there. */
module StaleRecovery {
  import opened Options
  import opened Kv
  import opened ShardServer
  import opened Migration
  import opened MigrationProof

  // ----- orderly steps from any state -----

  lemma {:induction false} ReachesNext(s0: System, acts: seq<Action>, s: System, a: Action)
    requires Reaches(s0, acts, s) && Enabled(s, a) && Orderly(s, a)
    ensures Reaches(s0, acts + [a], Step(s, a))
    decreases |acts|
  {
    hide Enabled, Orderly, Step;
    if acts == [] {
      assert [a][1..] == [];
      assert Reaches(Step(s, a), [], Step(s, a));
    } else {
      ReachesNext(Step(s0, acts[0]), acts[1..], s, a);
      assert (acts + [a])[1..] == acts[1..] + [a];
    }
  }

  lemma {:induction false} ReachesOn(s0: System, acts0: seq<Action>, s: System, acts: seq<Action>, s': System)
    requires Reaches(s0, acts0, s) && Reaches(s, acts, s')
    ensures exists all :: Reaches(s0, all, s')
    decreases |acts|
  {
    hide Enabled, Orderly, Step;
    if acts == [] {
    } else {
      ReachesNext(s0, acts0, s, acts[0]);
      ReachesOn(s0, acts0 + [acts[0]], Step(s, acts[0]), acts[1..], s');
    }
  }

  /** Orderly steps lead from s0 to s. */
  ghost predicate Goes(s0: System, s: System) {
    exists acts :: Reaches(s0, acts, s)
  }

  lemma GoesSelf(s0: System)
    ensures Goes(s0, s0)
  {
    assert Reaches(s0, [], s0);
  }

  lemma Next(s0: System, s: System, a: Action)
    requires Goes(s0, s) && Enabled(s, a) && Orderly(s, a)
    ensures Goes(s0, Step(s, a))
  {
    hide Enabled, Orderly, Step, Reaches;
    var acts :| Reaches(s0, acts, s);
    ReachesNext(s0, acts, s, a);
  }

  /** Controller c claims cfg, the successor of the visible configuration. */
  lemma Claims(s0: System, s: System, c: nat, cfg: Config) returns (s': System)
    requires Goes(s0, s) && c < |s.ctls| && s.ctls[c] == Idle && WellFormed(s, cfg)
    requires cfg.num == s.visible.num + 1 && (s.pending.Some? ==> s.pending.value.num < cfg.num)
    ensures Goes(s0, s') && s' == s.(ctls := s.ctls[c := Moving(s.visible, cfg, 0, Freezing)], pending := Some(cfg),
      pver := s.pver + 1, claims := s.claims + {(cfg, s.pver)}, won := s.won + {(cfg, s.pver)}, cfgs := s.cfgs + [cfg])
  {
    hide Goes;
    Next(s0, s, Ask(c, cfg));
    var s1 := Step(s, Ask(c, cfg));
    Next(s0, s1, Query(c));
    var s2 := Step(s1, Query(c));
    Next(s0, s2, ReadPending(c));
    var s3 := Step(s2, ReadPending(c));
    Next(s0, s3, ExecClaim(cfg, s.pver));
    var s4 := Step(s3, ExecClaim(cfg, s.pver));
    Next(s0, s4, ClaimOk(c));
    s' := Step(s4, ClaimOk(c));
    assert s'.ctls == s.ctls[c := Moving(s.visible, cfg, 0, Freezing)];
  }

  /** Where completeChange stands after the answer to its current call. */
  ghost function After(pc: Pc, ack: Ack): Pc
    requires pc.Moving? && (pc.stage == Freezing ==> ack.FreezeAck?)
  {
    match pc.stage
    case Freezing => pc.(stage := Installing(ack.state))
    case Installing(_) => pc.(stage := Deleting)
    case Deleting => pc.(sh := pc.sh + 1, stage := Freezing)
  }

  /** Controller c makes its next migration call and gets the answer. */
  lemma Calls(s0: System, s: System, c: nat, req: Req, ack: Ack) returns (s': System)
    requires Goes(s0, s) && c < |s.ctls| && AtShard(s, s.ctls[c]) && Moves(s.ctls[c]) && req == MoveReq(s.ctls[c])
    requires (req.g, req.sh) in s.recs && Serve(s, req).acks == s.acks + {ack} && Answers(req, ack)
    ensures Goes(s0, s') && s' == Serve(s, req).(reqs := s.reqs + {req}, ctls := s.ctls[c := After(s.ctls[c], ack)])
  {
    hide Goes;
    Next(s0, s, SendMove(c));
    var s1 := Step(s, SendMove(c));
    Next(s0, s1, Exec(req));
    var s2 := Step(s1, Exec(req));
    Next(s0, s2, MoveReply(c, ack));
    s' := Step(s2, MoveReply(c, ack));
  }

  /** Controller c publishes what it moved. */
  lemma Publishes(s0: System, s: System, c: nat) returns (s': System)
    requires Goes(s0, s) && c < |s.ctls| && s.ctls[c].Moving? && s.ctls[c].sh == s.n
    requires s.visible.num < s.ctls[c].new_.num
    ensures Goes(s0, s') && var cfg := s.ctls[c].new_;
      s' == s.(visible := cfg, vver := s.vver + 1, shown := s.shown + [cfg], posts := s.posts + {(cfg, s.vver)},
               ctls := s.ctls[c := Idle])
  {
    hide Goes;
    var cfg := s.ctls[c].new_;
    Next(s0, s, MovesDone(c));
    var s1 := Step(s, MovesDone(c));
    Next(s0, s1, ReadVisible(c));
    var s2 := Step(s1, ReadVisible(c));
    Next(s0, s2, ExecPost(cfg, s.vver));
    var s3 := Step(s2, ExecPost(cfg, s.vver));
    Next(s0, s3, GiveUp(c));
    s' := Step(s3, GiveUp(c));
    assert s'.ctls == s.ctls[c := Idle];
  }

  // ----- completeChange, shard by shard, whatever owners it works from -----

  /** Controller c is about to see to shard x. */
  ghost predicate AtWork(s: System, c: nat, prev: Config, new_: Config, x: nat) {
    && c < |s.ctls| && s.ctls[c] == Moving(prev, new_, x, Freezing) && x <= s.n
    && WellFormed(s, prev) && WellFormed(s, new_)
    && (forall g: nat, sh: nat :: g in s.gids && sh < s.n ==> (g, sh) in s.recs)
  }

  /** Only messages, controller c and records have changed, and of those only the two groups' of shards x to k - 1. */
  ghost predicate Worked(s: System, s': System, c: nat, prev: Config, new_: Config, x: nat, k: nat)
    requires |prev.shards| == |new_.shards| == s.n
  {
    && s' == s.(recs := s'.recs, ctls := s'.ctls, reqs := s'.reqs, acks := s'.acks)
    && |s'.ctls| == |s.ctls| && s'.recs.Keys == s.recs.Keys
    && (forall g: nat, sh: nat :: (g, sh) in s.recs && Spared(s, prev, new_, x, k, g, sh) ==>
          s'.recs[(g, sh)] == s.recs[(g, sh)])
  }

  ghost predicate Spared(s: System, prev: Config, new_: Config, x: nat, k: nat, g: nat, sh: nat)
    requires |prev.shards| == |new_.shards| == s.n
  {
    || sh < x || sh >= k || sh >= s.n || prev.shards[sh] == new_.shards[sh]
    || (g != prev.shards[sh] && g != new_.shards[sh])
  }

  lemma Passes(s0: System, s: System, c: nat, prev: Config, new_: Config, x: nat) returns (s': System)
    requires Goes(s0, s) && AtWork(s, c, prev, new_, x) && x < s.n
    ensures Goes(s0, s') && AtWork(s', c, prev, new_, x + 1) && Worked(s, s', c, prev, new_, x, x + 1)
  {
    hide Goes, FreezeRec, InstallRec, DeleteRec;
    if prev.shards[x] == new_.shards[x] {
      Next(s0, s, SkipShard(c));
      s' := Step(s, SkipShard(c));
    } else {
      var a, b, num := prev.shards[x], new_.shards[x], new_.num;
      var state := FreezeRec(s.recs[(a, x)], num).1;
      var s1 := Calls(s0, s, c, Freeze(a, x, num), FreezeAck(a, x, num, state));
      var s2 := Calls(s0, s1, c, Install(b, x, num, state), InstallAck(b, x, num));
      s' := Calls(s0, s2, c, Delete(a, x, num), DeleteAck(a, x, num));
    }
  }

  lemma {:induction false} PassesTo(s0: System, s: System, c: nat, prev: Config, new_: Config, x: nat, k: nat)
    returns (s': System)
    requires Goes(s0, s) && AtWork(s, c, prev, new_, x) && x <= k <= s.n
    ensures Goes(s0, s') && AtWork(s', c, prev, new_, k) && Worked(s, s', c, prev, new_, x, k)
    decreases k - x
  {
    hide Goes;
    if x == k {
      s' := s;
    } else {
      var s1 := Passes(s0, s, c, prev, new_, x);
      s' := PassesTo(s0, s1, c, prev, new_, x + 1, k);
    }
  }

  /** The data of the shard is asked of a group that does not have it: the destination comes to serve nothing. */
  lemma Robs(s0: System, s: System, c: nat, prev: Config, new_: Config, sh: nat) returns (s': System)
    requires Goes(s0, s) && AtWork(s, c, prev, new_, sh) && sh < s.n && prev.shards[sh] != new_.shards[sh]
    requires var r := s.recs[(prev.shards[sh], sh)]; r.own == NotOwned && r.num <= new_.num
    requires s.recs[(new_.shards[sh], sh)].num < new_.num
    ensures Goes(s0, s') && s'.accepted == s.accepted && s'.n == s.n && (new_.shards[sh], sh) in s'.recs
    ensures s'.recs[(new_.shards[sh], sh)] == ShardRec(map[], Serving, new_.num)
    ensures forall g: nat :: (g, sh) in s.recs && g != prev.shards[sh] && g != new_.shards[sh] ==>
      (g, sh) in s'.recs && s'.recs[(g, sh)] == s.recs[(g, sh)]
  {
    hide Goes;
    var a, b, num := prev.shards[sh], new_.shards[sh], new_.num;
    var s1 := Calls(s0, s, c, Freeze(a, sh, num), FreezeAck(a, sh, num, None));
    s' := Calls(s0, s1, c, Install(b, sh, num, None), InstallAck(b, sh, num));
  }

  lemma ReplayNotEmpty(puts: seq<PutOp>)
    requires Succeeds(puts) && puts != []
    ensures Replay(puts) != map[]
  {
    assert puts[|puts| - 1].key in Replay(puts);
  }

  // ----- a recovery that has read a wrong owner -----

  /** The recovery goes on with the pending configuration. */
  function Recovered(s: System, c: nat): System
    requires Resumes(s, c)
  {
    Step(s, RecoverPending(c))
  }

  lemma Resumed(s: System, c: nat)
    requires Inv(s) && Resumes(s, c)
    ensures 0 < s.pver == |s.cfgs| - 1 && s.pending.value == s.cfgs[s.pver]
    ensures WellFormed(s, s.ctls[c].current) && WellFormed(s, s.cfgs[s.pver - 1])
    ensures AtWork(Recovered(s, c), c, s.ctls[c].current, s.pending.value, 0)
  {
    hide Kept;
    assert CtlOk(s, s.ctls[c]);
  }

  /** The old owner of a shard whose pending move is not finished has not given it up, and nothing is published yet. */
  lemma Unfinished(s: System, sh: nat)
    requires Inv(s) && sh < s.n && s.pver > 0 && Moved(s.cfgs, s.pver, sh) && !Finished(s.cfgs, s.recs, s.pver, sh)
    ensures At(s.recs, Owner(s.cfgs, s.pver - 1, sh), sh).own != NotOwned && s.visible.num < s.cfgs[s.pver].num
  {
    hide Replay, Talk;
    assert Where(s.cfgs, s.recs, Replay(s.accepted[sh]), sh);
    assert s.vver == |s.cfgs| ==> DoneAt(s.cfgs, s.recs, s.pver, sh);
  }

  /** If the shard moves: the recovery passes the old owner by and publishes while that group still has the shard. */
  lemma PublishesEarly(s: System, c: nat, sh: nat) returns (s': System)
    requires Inv(s) && Resumes(s, c) && sh < s.n && sh < |s.ctls[c].current.shards|
    requires s.ctls[c].current.shards[sh] != Owner(s.cfgs, s.pver - 1, sh)
    requires Moved(s.cfgs, s.pver, sh) && !Finished(s.cfgs, s.recs, s.pver, sh)
    ensures Goes(Recovered(s, c), s') && !Safe(s')
  {
    Resumed(s, c);
    Unfinished(s, sh);
    hide Goes, Inv, Replay, Finished;
    var s0, prev, new_ := Recovered(s, c), s.ctls[c].current, s.pending.value;
    var from := Owner(s.cfgs, s.pver - 1, sh);
    GoesSelf(s0);
    var s1 := PassesTo(s0, s0, c, prev, new_, 0, s.n);
    s' := Publishes(s0, s1, c);
    assert (from, sh) in s0.recs && Spared(s0, prev, new_, 0, s.n, from, sh);
    assert At(s'.recs, from, sh) == At(s.recs, from, sh);
    LeftBehind(s', from, sh);
  }

  lemma LeftBehind(s: System, g: nat, sh: nat)
    requires sh < s.n && s.pending == Some(s.visible) && sh < |s.visible.shards| && g != s.visible.shards[sh]
    requires At(s.recs, g, sh).own != NotOwned
    ensures !Safe(s)
  {
    if |s.accepted| == s.n { assert !SafeShard(s, sh); }
  }

  /** Other data aside, the records are as they were. */
  ghost predicate Alike(s: System, s': System) {
    && s' == s.(recs := s'.recs, accepted := s'.accepted) && s'.recs.Keys == s.recs.Keys
    && (forall at :: at in s.recs ==> s'.recs[at].own == s.recs[at].own && s'.recs[at].num == s.recs[at].num)
  }

  /** Some write to the shard has been accepted, or is now. */
  lemma Written(s0: System, s: System, sh: nat, g: nat) returns (s': System)
    requires Goes(s0, s) && sh < |s.accepted| && Succeeds(s.accepted[sh]) && (g, sh) in s.recs
    requires s.accepted[sh] != [] || (s.recs[(g, sh)].own == Serving && s.recs[(g, sh)].data == map[])
    ensures Goes(s0, s') && Alike(s, s') && sh < |s'.accepted| && Replay(s'.accepted[sh]) != map[]
  {
    hide Goes, Replay, Succeeds;
    if s.accepted[sh] != [] {
      ReplayNotEmpty(s.accepted[sh]);
      s' := s;
    } else {
      var put := PutOp("k", "", 0);
      Next(s0, s, ClientPut(g, sh, put));
      s' := Step(s, ClientPut(g, sh, put));
      assert s'.accepted[sh] == [put];
      OnePut(put);
    }
  }

  lemma OnePut(put: PutOp)
    requires put.version == 0
    ensures Replay([put]) != map[]
  {
    assert [put][..0] == [] && put.key in Replay([put]);
  }

  /** What the invariant says of a shard that has not arrived, with a third group taken for its owner. */
  lemma Missing(s: System, sh: nat, stale: nat)
    requires Inv(s) && sh < s.n && s.pver > 0 && stale != Owner(s.cfgs, s.pver - 1, sh)
    requires At(s.recs, Owner(s.cfgs, s.pver, sh), sh).num < NumOf(s.cfgs, s.pver)
    ensures At(s.recs, stale, sh).own == NotOwned
    ensures forall g: nat :: At(s.recs, g, sh).num <= NumOf(s.cfgs, s.pver)
    ensures var from := At(s.recs, Owner(s.cfgs, s.pver - 1, sh), sh);
      |s.accepted| == s.n && Succeeds(s.accepted[sh]) && from.data == Replay(s.accepted[sh])
  {
    hide Replay, Talk;
    assert Where(s.cfgs, s.recs, Replay(s.accepted[sh]), sh);
  }

  /** The shard's pending move has not arrived, the recovery takes another group than the old owner for it, and some
      write has been accepted or still can be. */
  ghost predicate Endangered(s: System, c: nat, sh: nat) {
    && Resumes(s, c) && sh < s.n && sh < |s.ctls[c].current.shards| && sh < |s.accepted|
    && s.ctls[c].current.shards[sh] != Owner(s.cfgs, s.pver - 1, sh)
    && At(s.recs, Owner(s.cfgs, s.pver, sh), sh).num < NumOf(s.cfgs, s.pver)
    && (At(s.recs, Owner(s.cfgs, s.pver - 1, sh), sh).own == Serving || s.accepted[sh] != [])
  }

  /** Some group serves the shard without the accepted writes. */
  ghost predicate Lossy(s: System, g: nat, sh: nat) {
    && sh < |s.accepted| && (g, sh) in s.recs && s.recs[(g, sh)].own == Serving
    && s.recs[(g, sh)].data != Replay(s.accepted[sh])
  }

  /** The group taken for the owner is not the destination. */
  lemma LosesNow(s: System, c: nat, sh: nat) returns (s': System)
    requires Inv(s) && Endangered(s, c, sh) && s.ctls[c].current.shards[sh] != Owner(s.cfgs, s.pver, sh)
    ensures Goes(Recovered(s, c), s') && Lossy(s', Owner(s.cfgs, s.pver, sh), sh)
    ensures var from := Owner(s.cfgs, s.pver - 1, sh);
      from != Owner(s.cfgs, s.pver, sh) ==> At(s'.recs, from, sh).own == At(s.recs, from, sh).own
  {
    Resumed(s, c);
    hide Goes, Inv, Replay;
    var s0, prev, new_ := Recovered(s, c), s.ctls[c].current, s.pending.value;
    var from := Owner(s.cfgs, s.pver - 1, sh);
    Missing(s, sh, prev.shards[sh]);
    EmptyReplay();
    GoesSelf(s0);
    var s1 := Written(s0, s0, sh, from);
    var s2 := PassesTo(s0, s1, c, prev, new_, 0, sh);
    assert forall g: nat :: (g, sh) in s1.recs ==> Spared(s1, prev, new_, 0, sh, g, sh);
    s' := Robs(s0, s2, c, prev, new_, sh);
  }

  lemma EmptyReplay()
    ensures Replay([]) == map[]
  {
  }

  /** The group taken for the owner is the destination: the recovery skips the shard and publishes, and the next
      change, back to the old owner, asks that group for data it never got. */
  lemma LosesNext(s: System, c: nat, sh: nat) returns (s': System)
    requires Inv(s) && Endangered(s, c, sh) && s.ctls[c].current.shards[sh] == Owner(s.cfgs, s.pver, sh)
    ensures Goes(Recovered(s, c), s') && Lossy(s', Owner(s.cfgs, s.pver - 1, sh), sh)
  {
    Resumed(s, c);
    Unfinished(s, sh);
    hide Goes, Inv, Replay;
    var s0, prev, new_ := Recovered(s, c), s.ctls[c].current, s.pending.value;
    var from := Owner(s.cfgs, s.pver - 1, sh);
    Missing(s, sh, prev.shards[sh]);
    EmptyReplay();
    GoesSelf(s0);
    var s1 := Written(s0, s0, sh, from);
    var s2 := PassesTo(s0, s1, c, prev, new_, 0, s.n);
    assert forall g: nat :: (g, sh) in s1.recs ==> Spared(s1, prev, new_, 0, s.n, g, sh);
    s' := NextChange(s0, s2, c, prev, new_, sh, from);
  }

  lemma NextChange(s0: System, s: System, c: nat, prev: Config, new_: Config, sh: nat, from: nat) returns (s': System)
    requires Goes(s0, s) && AtWork(s, c, prev, new_, s.n) && sh < s.n && s.visible.num < new_.num && from in s.gids
    requires s.pending == Some(new_) && from != new_.shards[sh] && sh < |s.accepted| && Replay(s.accepted[sh]) != map[]
    requires var r := s.recs[(new_.shards[sh], sh)]; r.own == NotOwned && r.num <= new_.num
    requires s.recs[(from, sh)].num <= new_.num
    ensures Goes(s0, s') && Lossy(s', from, sh)
  {
    hide Goes, Replay;
    var s1 := Publishes(s0, s, c);
    var back := Config(new_.num + 1, new_.shards[sh := from]);
    var s2 := Claims(s0, s1, c, back);
    var s3 := PassesTo(s0, s2, c, new_, back, 0, sh);
    assert forall g: nat :: (g, sh) in s2.recs ==> Spared(s2, new_, back, 0, sh, g, sh);
    s' := Robs(s0, s3, c, new_, back, sh);
  }

  /** From every reachable state with a recovery that has read a wrong owner of a shard whose pending move has not
      arrived: orderly steps after it lead to a group that serves the shard without the writes that were accepted. */
  lemma StaleRecoveryLoses(s: System, c: nat, sh: nat) returns (acts: seq<Action>, s': System, g: nat)
    requires Reachable(s) && Endangered(s, c, sh)
    ensures Reaches(Recovered(s, c), acts, s') && Lossy(s', g, sh)
    ensures var from, to := Owner(s.cfgs, s.pver - 1, sh), Owner(s.cfgs, s.pver, sh);
      from != to && s.ctls[c].current.shards[sh] != to ==>
        g == to && At(s'.recs, from, sh).own == At(s.recs, from, sh).own
  {
    hide Inv, Lossy, Reaches, Reachable, At, Step;
    ReachableInv(s);
    if s.ctls[c].current.shards[sh] == Owner(s.cfgs, s.pver, sh) {
      s' := LosesNext(s, c, sh);
      g := Owner(s.cfgs, s.pver - 1, sh);
    } else {
      s' := LosesNow(s, c, sh);
      g := Owner(s.cfgs, s.pver, sh);
    }
    acts :| Reaches(Recovered(s, c), acts, s');
  }

  // ----- exactly when a recovery is safe -----

  lemma LossyUnsafe(s: System, g: nat, sh: nat)
    requires Lossy(s, g, sh) && sh < s.n
    ensures !Safe(s)
  {
    hide Replay;
    assert At(s.recs, g, sh) == s.recs[(g, sh)];
    if |s.accepted| == s.n { assert !SafeShard(s, sh); }
  }

  /** A shard the pending configuration does not move is served by its owner, below that configuration's number. */
  lemma Unmoved(s: System, sh: nat)
    requires Inv(s) && sh < s.n && s.pver > 0 && !Moved(s.cfgs, s.pver, sh)
    ensures Owner(s.cfgs, s.pver - 1, sh) == Owner(s.cfgs, s.pver, sh) && |s.accepted| == s.n
    ensures var to := At(s.recs, Owner(s.cfgs, s.pver, sh), sh); to.own == Serving && to.num < NumOf(s.cfgs, s.pver)
  {
    hide Replay, Talk;
    assert Where(s.cfgs, s.recs, Replay(s.accepted[sh]), sh);
    assert Still(s.cfgs, sh);
  }

  /** A wrong owner of a shard whose move is not finished: something goes wrong. */
  lemma Fails(s: System, c: nat, sh: nat) returns (s': System)
    requires Inv(s) && Resumes(s, c) && sh < s.n && sh < |s.ctls[c].current.shards|
    requires s.ctls[c].current.shards[sh] != Owner(s.cfgs, s.pver - 1, sh) && !Finished(s.cfgs, s.recs, s.pver, sh)
    ensures Goes(Recovered(s, c), s') && !Safe(s')
  {
    Resumed(s, c);
    hide Goes, Inv, Lossy, Safe;
    if Moved(s.cfgs, s.pver, sh) {
      s' := PublishesEarly(s, c, sh);
    } else {
      Unmoved(s, sh);
      s' := LosesNow(s, c, sh);
      SameShards(Recovered(s, c), s');
      LossyUnsafe(s', Owner(s.cfgs, s.pver, sh), sh);
    }
  }

  lemma SameShards(s0: System, s: System)
    requires Goes(s0, s)
    ensures s.n == s0.n
  {
    hide Step, Enabled, Orderly;
    var acts :| Reaches(s0, acts, s);
    SameN(s0, acts, s);
  }

  lemma {:induction false} SameN(s0: System, acts: seq<Action>, s: System)
    requires Reaches(s0, acts, s)
    ensures s.n == s0.n
    decreases |acts|
  {
    if acts == [] {
    } else {
      SameN(Step(s0, acts[0]), acts[1..], s);
    }
  }

  lemma GoesReachable(s: System, a: Action, s': System)
    requires Reachable(s) && Enabled(s, a) && Orderly(s, a) && Goes(Step(s, a), s')
    ensures Reachable(s')
  {
    hide Enabled, Orderly, Step, Init;
    var n: nat, gids: set<nat>, num: nat, controllers: nat, acts: seq<Action> :|
      GID1 in gids && Reaches(Init(n, gids, num, controllers), acts, s);
    ReachesNext(Init(n, gids, num, controllers), acts, s, a);
    var more :| Reaches(Step(s, a), more, s');
    ReachesOn(Init(n, gids, num, controllers), acts + [a], Step(s, a), more, s');
    var all :| Reaches(Init(n, gids, num, controllers), all, s');
  }

  /** A recovery can be followed only by safe states exactly when, for every shard, it has read the owner before the
      pending configuration or that configuration's move of the shard is finished. */
  lemma RecoverySafeExactly(s: System, c: nat)
    requires Reachable(s) && Resumes(s, c)
    ensures (forall s' :: Goes(Recovered(s, c), s') ==> Safe(s')) <==> Recoverable(s, s.ctls[c].current)
  {
    hide Reachable, Goes, Safe, Finished, Owner, Inv;
    ReachableInv(s);
    Resumed(s, c);
    if Recoverable(s, s.ctls[c].current) {
      forall s' | Goes(Recovered(s, c), s') ensures Safe(s') {
        GoesReachable(s, RecoverPending(c), s');
        AlwaysSafe(s');
      }
    } else {
      var sh: nat :| sh < s.n && s.ctls[c].current.shards[sh] != Owner(s.cfgs, s.pver - 1, sh)
        && !Finished(s.cfgs, s.recs, s.pver, sh);
      var s' := Fails(s, c, sh);
    }
  }

  // ----- a run that gets there -----

  /** InitController reads the visible configuration 1, then, after configuration 2 has moved the shard and taken a
      write, the pending configuration 3. */
  const FIRST := Config(1, [1])
  const SECOND := Config(2, [2])
  const THIRD := Config(3, [3])

  /** One shard, three groups and two controllers. */
  function Start(): System {
    Init(1, {1, 2, 3}, 1, 2)
  }

  lemma Starts() returns (s: System)
    ensures Goes(Start(), s) && s.n == 1 && s.gids == {1, 2, 3} && s.accepted == [[]]
    ensures s.ctls == [Idle, Idle]
    ensures s.visible == FIRST && s.pending == None && s.pver == 0 && s.cfgs == [FIRST]
    ensures s.recs.Keys == {(1, 0), (2, 0), (3, 0)}
    ensures s.recs[(1, 0)] == ShardRec(map[], Serving, 0)
    ensures s.recs[(2, 0)] == s.recs[(3, 0)] == ShardRec(map[], NotOwned, 0)
  {
    s := Start();
    assert s.visible.shards == [1];
    assert Reaches(s, [], s);
  }

  /** Configuration 2 is claimed while controller 1 has only read configuration 1. */
  lemma ClaimSecond() returns (s: System)
    ensures Goes(Start(), s) && s.n == 1 && s.gids == {1, 2, 3} && s.accepted == [[]]
    ensures s.ctls == [Moving(FIRST, SECOND, 0, Freezing), Recovering(FIRST)]
    ensures s.visible == FIRST && s.pending == Some(SECOND) && s.pver == 1 && s.cfgs == [FIRST, SECOND]
    ensures s.recs.Keys == {(1, 0), (2, 0), (3, 0)}
    ensures s.recs[(1, 0)] == ShardRec(map[], Serving, 0)
    ensures s.recs[(2, 0)] == s.recs[(3, 0)] == ShardRec(map[], NotOwned, 0)
  {
    var s0 := Starts();
    hide Goes;
    Next(Start(), s0, Recover(1));
    s := Claims(Start(), Step(s0, Recover(1)), 0, SECOND);
  }

  /** Its shard is moved, it is published, and group 2 accepts a write. */
  lemma ServeSecond() returns (s: System)
    ensures Goes(Start(), s) && s.n == 1 && s.gids == {1, 2, 3} && |s.accepted| == 1
    ensures s.ctls == [Idle, Recovering(FIRST)]
    ensures s.visible == SECOND && s.pending == Some(SECOND) && s.pver == 1 && s.cfgs == [FIRST, SECOND]
    ensures s.recs.Keys == {(1, 0), (2, 0), (3, 0)}
    ensures s.recs[(1, 0)] == ShardRec(map[], NotOwned, 2) && s.recs[(3, 0)] == ShardRec(map[], NotOwned, 0)
    ensures s.recs[(2, 0)] == ShardRec(map["k" := KvEntry("v", 1)], Serving, 2)
  {
    var s0 := ClaimSecond();
    hide Goes;
    var s1 := Calls(Start(), s0, 0, Freeze(1, 0, 2), FreezeAck(1, 0, 2, Some(map[])));
    var s2 := Calls(Start(), s1, 0, Install(2, 0, 2, Some(map[])), InstallAck(2, 0, 2));
    var s3 := Calls(Start(), s2, 0, Delete(1, 0, 2), DeleteAck(1, 0, 2));
    var s4 := Publishes(Start(), s3, 0);
    Next(Start(), s4, ClientPut(2, 0, PutOp("k", "v", 0)));
    s := Step(s4, ClientPut(2, 0, PutOp("k", "v", 0)));
  }

  /** Controller 1 still holds configuration 1 when configuration 3 is claimed. */
  lemma StaleReadIsReachable() returns (s: System)
    ensures Reachable(s) && s.n == 1 && |s.ctls| == 2 && s.ctls[1] == Recovering(FIRST) && s.pending == Some(THIRD)
    ensures Endangered(s, 1, 0)
    ensures s.recs.Keys == {(1, 0), (2, 0), (3, 0)}
    ensures s.recs[(1, 0)] == ShardRec(map[], NotOwned, 2) && s.recs[(3, 0)] == ShardRec(map[], NotOwned, 0)
    ensures s.recs[(2, 0)] == ShardRec(map["k" := KvEntry("v", 1)], Serving, 2)
  {
    var s0 := ServeSecond();
    s := Claims(Start(), s0, 0, THIRD);
  }
}
