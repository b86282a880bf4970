/** Whatever the controllers have left behind, one of them can finish the pending change and carry out any other. */
module Reconfiguration {
  import opened Options
  import opened Kv
  import opened ShardServer
  import opened Migration
  import opened MigrationProof

  // ----- orderly runs from a state -----

  ghost predicate From(b: System, s: System) {
    exists acts :: Reaches(b, acts, s)
  }

  lemma Stays(b: System)
    ensures From(b, b)
  {
    assert Reaches(b, [], b);
  }

  lemma {:induction false} Joined(b: System, acts: seq<Action>, s: System, more: seq<Action>, s': System)
    requires Reaches(b, acts, s) && Reaches(s, more, s')
    ensures Reaches(b, acts + more, s')
    decreases |acts|
  {
    hide Enabled, Orderly, Step;
    if acts == [] {
      assert acts + more == more;
    } else {
      Joined(Step(b, acts[0]), acts[1..], s, more, s');
      assert (acts + more)[1..] == acts[1..] + more;
    }
  }

  lemma Then(b: System, s: System, a: Action)
    requires From(b, s) && Enabled(s, a) && Orderly(s, a)
    ensures From(b, Step(s, a))
  {
    hide Enabled, Orderly, Step;
    var acts :| Reaches(b, acts, s);
    assert Reaches(Step(s, a), [], Step(s, a));
    assert [a][1..] == [];
    Joined(b, acts, s, [a], Step(s, a));
  }

  lemma FromReachable(b: System, s: System)
    requires Reachable(b) && From(b, s)
    ensures Reachable(s)
  {
    hide Reaches;
    var n: nat, gids: set<nat>, num: nat, controllers: nat, acts: seq<Action> :|
      GID1 in gids && Reaches(Init(n, gids, num, controllers), acts, b);
    var more :| Reaches(b, more, s);
    Joined(Init(n, gids, num, controllers), acts, b, more, s);
  }

  // ----- one controller at work -----

  /** Controller c has worked on the groups and nothing else. */
  ghost predicate SameBut(s: System, s': System, c: nat) {
    && s'.n == s.n && s'.gids == s.gids && s'.visible == s.visible && s'.vver == s.vver
    && s'.pending == s.pending && s'.pver == s.pver && s'.cfgs == s.cfgs && s'.shown == s.shown
    && s'.accepted == s.accepted && s'.recs.Keys == s.recs.Keys
    && c < |s.ctls| == |s'.ctls| && s'.ctls == s.ctls[c := s'.ctls[c]]
  }

  /** The groups of cfg have a record of every shard. */
  ghost predicate Known(s: System, cfg: Config) {
    |cfg.shards| == s.n && forall sh: nat :: sh < s.n ==> (cfg.shards[sh], sh) in s.recs
  }

  /** What completeChange does after the answer to its next request. */
  predicate Onward(pc: Pc, pc': Pc)
    requires pc.Moving?
  {
    match pc.stage
    case Freezing => pc'.Moving? && pc'.stage.Installing? && pc' == pc.(stage := pc'.stage)
    case Installing(_) => pc' == pc.(stage := Deleting)
    case Deleting => pc' == pc.(sh := pc.sh + 1, stage := Freezing)
  }

  /** One request is sent, carried out and answered. */
  lemma Stage(b: System, s: System, c: nat) returns (s': System)
    requires From(b, s) && c < |s.ctls| && AtShard(s, s.ctls[c]) && Moves(s.ctls[c])
    requires (MoveReq(s.ctls[c]).g, s.ctls[c].sh) in s.recs
    ensures From(b, s') && SameBut(s, s', c) && Onward(s.ctls[c], s'.ctls[c])
  {
    hide Reaches, From;
    var req := MoveReq(s.ctls[c]);
    Then(b, s, SendMove(c));
    var s1 := Step(s, SendMove(c));
    Then(b, s1, Exec(req));
    var s2 := Step(s1, Exec(req));
    var ack := match req
      case Freeze(g, sh, num) => FreezeAck(g, sh, num, FreezeRec(s.recs[(g, sh)], num).1)
      case Install(g, sh, num, _) => InstallAck(g, sh, num)
      case Delete(g, sh, num) => DeleteAck(g, sh, num);
    Then(b, s2, MoveReply(c, ack));
    s' := Step(s2, MoveReply(c, ack));
  }

  /** One shard is moved. */
  lemma Shard(b: System, s: System, c: nat) returns (s': System)
    requires From(b, s) && c < |s.ctls| && AtShard(s, s.ctls[c]) && s.ctls[c].stage == Freezing
    requires Known(s, s.ctls[c].prev) && Known(s, s.ctls[c].new_)
    ensures From(b, s') && SameBut(s, s', c) && s'.ctls[c] == s.ctls[c].(sh := s.ctls[c].sh + 1)
  {
    hide From, Reaches, Step;
    if Moves(s.ctls[c]) {
      var s1 := Stage(b, s, c);
      var s2 := Stage(b, s1, c);
      s' := Stage(b, s2, c);
    } else {
      Then(b, s, SkipShard(c));
      s' := Skipped(s, c);
    }
  }

  lemma Skipped(s: System, c: nat) returns (s': System)
    requires Enabled(s, SkipShard(c)) && s.ctls[c].stage == Freezing
    ensures s' == Step(s, SkipShard(c)) && SameBut(s, s', c) && s'.ctls[c] == s.ctls[c].(sh := s.ctls[c].sh + 1)
  {
    s' := Step(s, SkipShard(c));
  }

  lemma {:induction false} Shards(b: System, s: System, c: nat) returns (s': System)
    requires From(b, s) && c < |s.ctls| && s.ctls[c].Moving? && s.ctls[c].stage == Freezing && s.ctls[c].sh <= s.n
    requires Known(s, s.ctls[c].prev) && Known(s, s.ctls[c].new_)
    ensures From(b, s') && SameBut(s, s', c) && s'.ctls[c] == s.ctls[c].(sh := s.n)
    decreases s.n - s.ctls[c].sh
  {
    hide From, Reaches, Step;
    if s.ctls[c].sh == s.n {
      s' := s;
    } else {
      var s1 := Shard(b, s, c);
      s' := Shards(b, s1, c);
    }
  }

  /** The configuration is published. */
  ghost predicate Published(s: System, s': System, c: nat, cfg: Config) {
    && s'.n == s.n && s'.gids == s.gids && s'.pending == s.pending && s'.pver == s.pver && s'.cfgs == s.cfgs
    && s'.accepted == s.accepted && |s'.ctls| == |s.ctls|
    && s'.visible == cfg && s'.recs.Keys == s.recs.Keys
    && forall d: nat :: d < |s.ctls| && d != c ==> s'.ctls[d] == s.ctls[d]
  }

  lemma Posts(b: System, s: System, c: nat) returns (s': System)
    requires From(b, s) && c < |s.ctls| && s.ctls[c].Moving? && s.ctls[c].sh == s.n
    requires s.ctls[c].new_.num > s.visible.num
    ensures From(b, s') && Published(s, s', c, s.ctls[c].new_)
  {
    hide From, Reaches;
    var cfg := s.ctls[c].new_;
    Then(b, s, MovesDone(c));
    var s1 := Step(s, MovesDone(c));
    Then(b, s1, ReadVisible(c));
    var s2 := Step(s1, ReadVisible(c));
    Then(b, s2, ExecPost(cfg, s.vver));
    s' := Step(s2, ExecPost(cfg, s.vver));
  }

  lemma Completes(b: System, s: System, c: nat) returns (s': System)
    requires From(b, s) && c < |s.ctls| && s.ctls[c].Moving? && s.ctls[c].sh == 0 && s.ctls[c].stage == Freezing
    requires Known(s, s.ctls[c].prev) && Known(s, s.ctls[c].new_) && s.ctls[c].new_.num > s.visible.num
    ensures From(b, s') && Published(s, s', c, s.ctls[c].new_)
  {
    hide From, Reaches, Step;
    var s1 := Shards(b, s, c);
    s' := Posts(b, s1, c);
  }

  // ----- recovery -----

  /** The configurations of a reachable state. */
  lemma Configs(s: System)
    requires Reachable(s)
    ensures |s.cfgs| > 0 && Known(s, s.visible)
    ensures s.pending.Some? ==> Known(s, s.pending.value) && s.pending.value == s.cfgs[|s.cfgs| - 1]
    ensures s.pending.Some? ==> s.visible.num <= s.pending.value.num <= s.visible.num + 1
    ensures s.pending.Some? && s.pending.value.num == s.visible.num ==> s.pending.value == s.visible
    ensures s.pending.None? ==> s.visible == s.cfgs[|s.cfgs| - 1]
    ensures forall cfg :: WellFormed(s, cfg) ==> Known(s, cfg)
  {
    ReachableInv(s);
    hide Kept;
  }

  /** A controller that crashes and restarts reads the visible configuration. */
  lemma Restarts(b: System, s: System, c: nat) returns (s': System)
    requires From(b, s) && c < |s.ctls|
    ensures From(b, s') && SameBut(s, s', c) && s'.ctls[c] == Recovering(s.visible)
  {
    hide From, Reaches;
    Then(b, s, GiveUp(c));
    var s1 := Step(s, GiveUp(c));
    Then(b, s1, Recover(c));
    s' := Step(s1, Recover(c));
  }

  /** It goes on exactly when the pending configuration is not published. */
  lemma RecoversExactly(s: System, c: nat)
    requires Reachable(s) && c < |s.ctls| && s.ctls[c] == Recovering(s.visible)
    ensures var pc := Step(s, RecoverPending(c)).ctls[c];
      && (pc.Moving? <==> s.pending.Some? && s.pending.value != s.visible)
      && (pc.Moving? ==> pc == Moving(s.visible, s.pending.value, 0, Freezing))
      && (!pc.Moving? ==> pc == Idle && |s.cfgs| > 0 && s.visible == s.cfgs[|s.cfgs| - 1])
    ensures Orderly(s, RecoverPending(c))
  {
    Configs(s);
    hide Reachable, Recoverable;
    if Resumes(s, c) { AdjacentIsOrderly(s, c); }
  }

  lemma Recovers(b: System, s: System, c: nat) returns (s': System)
    requires Reachable(b) && From(b, s) && c < |s.ctls| && s.ctls[c] == Recovering(s.visible)
    ensures From(b, s') && SameBut(s, s', c) && |s.cfgs| > 0
    ensures s'.ctls[c] == if s.cfgs[|s.cfgs| - 1] == s.visible then Idle
                          else Moving(s.visible, s.cfgs[|s.cfgs| - 1], 0, Freezing)
  {
    hide From, Reachable, Reaches, Orderly;
    FromReachable(b, s);
    Configs(s);
    RecoversExactly(s, c);
    Then(b, s, RecoverPending(c));
    s' := Step(s, RecoverPending(c));
  }

  /** From every reachable state, any controller can restart and finish what is pending. */
  lemma Finishes(b: System, s: System, c: nat) returns (s': System)
    requires Reachable(b) && From(b, s) && c < |s.ctls|
    ensures |s.cfgs| > 0 && From(b, s') && Published(s, s', c, s.cfgs[|s.cfgs| - 1])
  {
    hide From, Reachable, Reaches, Orderly, Step;
    var s1 := Restarts(b, s, c);
    var s2 := Recovers(b, s1, c);
    FromReachable(b, s2);
    Configs(s2);
    if s2.ctls[c].Moving? {
      s' := Completes(b, s2, c);
    } else {
      s' := s2;
    }
  }

  // ----- a further change -----

  /** A controller asked for cfg, the successor of all claimed configurations, claims it. */
  lemma Claims(b: System, s: System, c: nat, cfg: Config) returns (s': System)
    requires From(b, s) && c < |s.ctls| && WellFormed(s, cfg) && cfg.num == s.visible.num + 1
    requires s.pending.Some? ==> s.pending.value == s.visible
    ensures From(b, s') && s'.ctls == s.ctls[c := Moving(s.visible, cfg, 0, Freezing)]
    ensures s' == s.(ctls := s'.ctls, claims := s'.claims, won := s'.won, pending := Some(cfg), pver := s.pver + 1,
                     cfgs := s.cfgs + [cfg])
  {
    hide From, Reaches;
    Then(b, s, GiveUp(c));
    var s1 := Step(s, GiveUp(c));
    Then(b, s1, Ask(c, cfg));
    var s2 := Step(s1, Ask(c, cfg));
    Then(b, s2, Query(c));
    var s3 := Step(s2, Query(c));
    assert s3.ctls == s.ctls[c := Claiming(s.visible, cfg)];
    s' := ClaimsNext(b, s3, c);
  }

  lemma ClaimsNext(b: System, s: System, c: nat) returns (s': System)
    requires From(b, s) && c < |s.ctls| && s.ctls[c].Claiming?
    requires s.pending.Some? ==> s.pending.value.num <= s.ctls[c].prev.num < s.ctls[c].new_.num
    ensures From(b, s') && s'.ctls == s.ctls[c := Moving(s.ctls[c].prev, s.ctls[c].new_, 0, Freezing)]
    ensures s' == s.(ctls := s'.ctls, claims := s'.claims, won := s'.won, pending := Some(s.ctls[c].new_),
                     pver := s.pver + 1, cfgs := s.cfgs + [s.ctls[c].new_])
  {
    hide From, Reaches;
    Then(b, s, ReadPending(c));
    var s1 := Step(s, ReadPending(c));
    var claim := ExecClaim(s.ctls[c].new_, s.pver);
    Then(b, s1, claim);
    var s2 := Step(s1, claim);
    Then(b, s2, ClaimOk(c));
    s' := Step(s2, ClaimOk(c));
  }

  /** Once everything claimed is published, the owner of a shard serves it. */
  lemma OwnerServes(s: System, sh: nat)
    requires Reachable(s) && sh < s.n && |s.cfgs| > 0 && s.visible == s.cfgs[|s.cfgs| - 1]
    ensures |s.visible.shards| == s.n && (s.visible.shards[sh], sh) in s.recs
    ensures s.recs[(s.visible.shards[sh], sh)].own == Serving
  {
    hide Replay;
    ReachableInv(s);
    var p := |s.cfgs| - 1;
    assert Where(s.cfgs, s.recs, Replay(s.accepted[sh]), sh);
    assert p > 0 ==> DoneAt(s.cfgs, s.recs, p, sh);
    assert At(s.recs, s.visible.shards[sh], sh).own == Serving;
  }

  /** Group g serves the shard, and a get there finds what the puts have written. */
  ghost predicate Serves(s: System, g: nat, sh: nat, puts: seq<PutOp>) {
    && (g, sh) in s.recs && s.recs[(g, sh)].own == Serving
    && forall key: string :: ReadsFrom(puts, key, GetRec(s.recs[(g, sh)], key))
  }

  /** Every shard is served where shards says, with the writes puts. */
  ghost predicate ServedBy(s: System, shards: seq<nat>, puts: seq<seq<PutOp>>) {
    && s.visible.shards == shards && |shards| == |puts| == s.n
    && forall sh: nat :: sh < s.n ==> Serves(s, shards[sh], sh, puts[sh])
  }

  lemma OneServed(s: System, sh: nat)
    requires Reachable(s) && sh < s.n && |s.cfgs| > 0 && s.visible == s.cfgs[|s.cfgs| - 1]
    ensures |s.visible.shards| == |s.accepted| == s.n && Serves(s, s.visible.shards[sh], sh, s.accepted[sh])
  {
    hide Reachable, ReadsFrom, GetRec;
    OwnerServes(s, sh);
    var g := s.visible.shards[sh];
    ServingAnswers(s, g, sh, "", "", 0);
    forall key: string ensures ReadsFrom(s.accepted[sh], key, GetRec(s.recs[(g, sh)], key)) {
      ServingAnswers(s, g, sh, key, "", 0);
    }
  }

  lemma AllServed(s: System)
    requires Reachable(s) && |s.cfgs| > 0 && s.visible == s.cfgs[|s.cfgs| - 1]
    ensures ServedBy(s, s.visible.shards, s.accepted)
  {
    Configs(s);
    AlwaysSafe(s);
    hide Reachable, Serves, SafeShard;
    forall sh: nat | sh < s.n ensures Serves(s, s.visible.shards[sh], sh, s.accepted[sh]) { OneServed(s, sh); }
  }

  /** From every state of every orderly run, whatever the other controllers are doing or have crashed in, one controller
      can finish the pending change; then every shard is served by its owner with every write accepted so far. */
  lemma CanFinish(s: System, c: nat) returns (acts: seq<Action>, s': System)
    requires Reachable(s) && c < |s.ctls|
    ensures Reaches(s, acts, s') && s'.cfgs == s.cfgs && |s.cfgs| > 0
    ensures s'.visible == s.cfgs[|s.cfgs| - 1] && ServedBy(s', s'.visible.shards, s.accepted)
  {
    hide Reachable, Reaches, ServedBy, From;
    Stays(s);
    s' := Finishes(s, s, c);
    FromReachable(s, s');
    AllServed(s');
    acts := Run(s, s');
  }

  /** And it can then carry out a change to any assignment of shards to groups that exist, without losing a write. */
  lemma CanReconfigure(s: System, c: nat, shards: seq<nat>) returns (acts: seq<Action>, s': System)
    requires Reachable(s) && c < |s.ctls| && |shards| == s.n && forall sh :: 0 <= sh < s.n ==> shards[sh] in s.gids
    ensures Reaches(s, acts, s') && |s.cfgs| > 0
    ensures s'.visible == Config(s.cfgs[|s.cfgs| - 1].num + 1, shards) && s'.cfgs == s.cfgs + [s'.visible]
    ensures ServedBy(s', shards, s.accepted)
  {
    hide Reachable, Reaches, ServedBy, From;
    Stays(s);
    var s1 := Finishes(s, s, c);
    FromReachable(s, s1);
    Configs(s1);
    var cfg := Config(s1.visible.num + 1, shards);
    var s2 := Claims(s, s1, c, cfg);
    s' := Completes(s, s2, c);
    FromReachable(s, s');
    AllServed(s');
    acts := Run(s, s');
  }

  lemma Run(b: System, s: System) returns (acts: seq<Action>)
    requires From(b, s)
    ensures Reaches(b, acts, s)
  {
    acts :| Reaches(b, acts, s);
  }
}
