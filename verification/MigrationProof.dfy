/** Shard migration keeps every accepted write and a single writer; configuration numbers are agreed on. */
module MigrationProof {
  import opened Options
  import opened Kv
  import opened ShardServer
  import opened Migration

  // ----- where a shard is -----

  /** Position of configuration number num among the claimed ones. */
  ghost function Pos(cfgs: seq<Config>, num: nat): int {
    num - NumOf(cfgs, 0)
  }

  /** state may be installed: it is the frozen data, unless the destination is already past it. */
  ghost predicate Ready(cfgs: seq<Config>, recs: map<(nat, nat), ShardRec>, i: int, sh: nat, state: Option<Store>) {
    var from, to, num := At(recs, Owner(cfgs, i - 1, sh), sh), At(recs, Owner(cfgs, i, sh), sh), NumOf(cfgs, i);
    from.num >= num && (to.num < num ==> from.own == Frozen && from.num == num && state == Some(from.data))
  }


  /** Only the groups in `but` may have anything to do with the shard. */
  ghost predicate NobodyBut(recs: map<(nat, nat), ShardRec>, sh: nat, but: set<nat>) {
    forall g: nat :: g !in but ==> At(recs, g, sh).own == NotOwned
  }

  ghost predicate Where(cfgs: seq<Config>, recs: map<(nat, nat), ShardRec>, truth: Store, sh: nat) {
    var p := |cfgs| - 1;
    var f, t, num := Owner(cfgs, p - 1, sh), Owner(cfgs, p, sh), NumOf(cfgs, p);
    var from, to := At(recs, f, sh), At(recs, t, sh);
    if !Moved(cfgs, p, sh) then
      to.own == Serving && to.data == truth && NobodyBut(recs, sh, {t})
    else if to.num >= num then
      && to.own == Serving && to.data == truth && NobodyBut(recs, sh, {f, t})
      && (from.own == NotOwned || from.own == Frozen) && from.num == num
    else
      && from.own == (if from.num >= num then Frozen else Serving)
      && from.data == truth && NobodyBut(recs, sh, {f})
  }

  // ----- the invariant -----

  ghost predicate Numbered(s: System) {
    && |s.cfgs| > 0
    && (forall i :: 0 <= i < |s.cfgs| ==> s.cfgs[i].num == s.cfgs[0].num + i && WellFormed(s, s.cfgs[i]))
    && s.pver == |s.cfgs| - 1
    && s.pending == (if s.pver == 0 then None else Some(s.cfgs[s.pver]))
    && 0 < s.vver <= |s.cfgs| <= s.vver + 1
    && s.shown == s.cfgs[..s.vver] && s.visible == s.cfgs[s.vver - 1]
  }

  ghost predicate Fenced(s: System) {
    && (forall g: nat, sh: nat :: (g, sh) in s.recs <==> g in s.gids && sh < s.n)
    && (forall g: nat, sh: nat :: At(s.recs, g, sh).num <= NumOf(s.cfgs, |s.cfgs| - 1))
    && (forall i, sh: nat :: 0 < i < s.vver && sh < s.n ==> DoneAt(s.cfgs, s.recs, i, sh))
    && (forall g: nat, sh: nat :: Still(s.cfgs, sh) ==> At(s.recs, g, sh).num < NumOf(s.cfgs, |s.cfgs| - 1))
  }

  /** The last claimed configuration does not move the shard. */
  ghost predicate Still(cfgs: seq<Config>, sh: nat) {
    |cfgs| > 1 && !Moved(cfgs, |cfgs| - 1, sh)
  }

  /** Replayed in order, every one of the puts is answered OK. */
  ghost predicate Succeeds(puts: seq<PutOp>) {
    puts == [] ||
    var p, before := puts[|puts| - 1], puts[..|puts| - 1];
    Succeeds(before) && DoPut(Replay(before), p.key, p.value, p.version).1 == OK
  }

  ghost predicate Kept(s: System) {
    && |s.accepted| == s.n
    && (forall sh: nat :: sh < s.n ==> Succeeds(s.accepted[sh]))
    && (forall sh: nat :: sh < s.n ==> Where(s.cfgs, s.recs, Replay(s.accepted[sh]), sh))
  }

  ghost predicate ReqOk(s: System, req: Req) {
    var i := Pos(s.cfgs, req.num);
    && req.sh < s.n && Moved(s.cfgs, i, req.sh)
    && match req
      case Freeze(g, sh, _) => Source(s, i, sh, g)
      case Install(g, sh, _, state) => g == Owner(s.cfgs, i, sh) && Ready(s.cfgs, s.recs, i, sh, state)
      case Delete(g, sh, _) => Source(s, i, sh, g) && Arrived(s.cfgs, s.recs, i, sh)
  }

  /** g may be asked to give shard sh up for configuration i: it is the old owner, or the move is finished. */
  ghost predicate Source(s: System, i: int, sh: nat, g: nat) {
    g == Owner(s.cfgs, i - 1, sh) || (Finished(s.cfgs, s.recs, i, sh) && g != Owner(s.cfgs, i, sh))
  }

  ghost predicate AckOk(s: System, ack: Ack) {
    var i := Pos(s.cfgs, ack.num);
    && ack.sh < s.n && Moved(s.cfgs, i, ack.sh)
    && match ack
      case FreezeAck(g, sh, _, state) => Ready(s.cfgs, s.recs, i, sh, state)
      case InstallAck(g, sh, _) => Arrived(s.cfgs, s.recs, i, sh)
      case DeleteAck(g, sh, _) => DoneAt(s.cfgs, s.recs, i, sh)
  }

  /** cfg is the one content its number was claimed with. */
  ghost predicate Claimed(s: System, cfg: Config) {
    var i := Pos(s.cfgs, cfg.num);
    0 <= i < |s.cfgs| && s.cfgs[i] == cfg
  }

  /** A claim can only take effect as the number after the visible one. */
  ghost predicate ClaimFits(s: System, cfg: Config, ver: nat) {
    WellFormed(s, cfg) && ver + 1 <= Pos(s.cfgs, cfg.num) <= s.vver && ver <= s.pver
  }

  /** A configuration ready to be published has every shard moved. */
  ghost predicate Complete(s: System, cfg: Config) {
    && Claimed(s, cfg) && Pos(s.cfgs, cfg.num) > 0
    && (forall sh: nat :: sh < s.n ==> DoneAt(s.cfgs, s.recs, Pos(s.cfgs, cfg.num), sh))
  }

  ghost predicate PostFits(s: System, cfg: Config, ver: nat) {
    Complete(s, cfg) && 0 < ver <= Pos(s.cfgs, cfg.num)
  }

  ghost predicate CtlOk(s: System, pc: Pc) {
    match pc
    case Idle => true
    case Asked(new_) => WellFormed(s, new_) && Pos(s.cfgs, new_.num) <= s.vver
    case Claiming(prev, new_) => Request(s, prev, new_)
    case ClaimPut(prev, new_, ver) => Request(s, prev, new_)
    case Moving(prev, new_, sh, stage) =>
      var i := Pos(s.cfgs, new_.num);
      && Claimed(s, new_) && i > 0 && |prev.shards| == s.n && sh <= s.n
      && (forall x: nat :: x < s.n ==> prev.shards[x] == Owner(s.cfgs, i - 1, x) || Finished(s.cfgs, s.recs, i, x))
      && (forall x: nat :: x < sh ==> DoneAt(s.cfgs, s.recs, i, x))
      && (sh < s.n && stage != Freezing ==> Moved(s.cfgs, i, sh))
      && (sh < s.n && stage.Installing? ==> Ready(s.cfgs, s.recs, i, sh, stage.state))
      && (sh < s.n && stage.Deleting? ==> Arrived(s.cfgs, s.recs, i, sh))
    case Posting(new_) => Complete(s, new_)
    case PostPut(new_, ver) => Complete(s, new_)
    case Recovering(current) => Claimed(s, current) && Pos(s.cfgs, current.num) < s.vver
  }

  /** A request that passed ChangeConfigTo's test: it succeeds a configuration that was visible. */
  ghost predicate Request(s: System, prev: Config, new_: Config) {
    && WellFormed(s, new_) && Claimed(s, prev) && Pos(s.cfgs, prev.num) < s.vver
    && new_.num == prev.num + 1
  }

  ghost predicate Talk(s: System) {
    && (forall req :: req in s.reqs ==> ReqOk(s, req))
    && (forall ack :: ack in s.acks ==> AckOk(s, ack))
    && (forall c :: 0 <= c < |s.ctls| ==> CtlOk(s, s.ctls[c]))
    && (forall cfg, ver :: (cfg, ver) in s.claims ==> ClaimFits(s, cfg, ver))
    && (forall cfg, ver :: (cfg, ver) in s.won ==> Claimed(s, cfg))
    && (forall cfg, ver :: (cfg, ver) in s.posts ==> PostFits(s, cfg, ver))
  }

  ghost predicate Inv(s: System) {
    Numbered(s) && Fenced(s) && Kept(s) && Talk(s)
  }

  lemma InitHolds(n: nat, gids: set<nat>, num: nat, controllers: nat)
    requires GID1 in gids
    ensures Inv(Init(n, gids, num, controllers))
  {
  }

  // ----- controller steps: nothing they rely on changes -----

  /** A step that leaves the records and the two keys alone keeps what every other party relies on. */
  ghost predicate SameBase(s: System, s': System) {
    s' == s.(ctls := s'.ctls, reqs := s'.reqs, claims := s'.claims, posts := s'.posts)
  }

  lemma BaseKeeps(s: System, s': System)
    requires Inv(s) && SameBase(s, s')
    requires forall req :: req in s'.reqs ==> req in s.reqs || ReqOk(s', req)
    requires forall c :: 0 <= c < |s'.ctls| ==> (c < |s.ctls| && s'.ctls[c] == s.ctls[c]) || CtlOk(s', s'.ctls[c])
    requires forall cfg, ver :: (cfg, ver) in s'.claims ==> (cfg, ver) in s.claims || ClaimFits(s', cfg, ver)
    requires forall cfg, ver :: (cfg, ver) in s'.posts ==> (cfg, ver) in s.posts || PostFits(s', cfg, ver)
    ensures Inv(s')
  {
    hide Ready, Arrived, DoneAt, Moved, Where;
    forall c | 0 <= c < |s'.ctls| ensures CtlOk(s', s'.ctls[c]) {
      if c < |s.ctls| && s'.ctls[c] == s.ctls[c] { assert CtlOk(s, s.ctls[c]); }
    }
    forall req | req in s'.reqs ensures ReqOk(s', req) {
      if req in s.reqs { assert ReqOk(s, req); }
    }
    forall ack | ack in s'.acks ensures AckOk(s', ack) {
      assert AckOk(s, ack);
    }
    forall cfg, ver | (cfg, ver) in s'.claims ensures ClaimFits(s', cfg, ver) {
      if (cfg, ver) in s.claims { assert ClaimFits(s, cfg, ver); }
    }
    forall cfg, ver | (cfg, ver) in s'.posts ensures PostFits(s', cfg, ver) {
      if (cfg, ver) in s.posts { assert PostFits(s, cfg, ver); assert Complete(s, cfg); }
    }
  }

  lemma GotoKeeps(s: System, c: nat, pc: Pc)
    requires Inv(s) && c < |s.ctls| && CtlOk(Goto(s, c, pc), pc)
    ensures Inv(Goto(s, c, pc))
  {
    hide Inv, CtlOk, ReqOk, ClaimFits, PostFits;
    BaseKeeps(s, Goto(s, c, pc));
  }

  lemma AskKeeps(s: System, c: nat, new_: Config)
    requires Inv(s) && Enabled(s, Ask(c, new_)) && Orderly(s, Ask(c, new_))
    ensures Inv(Step(s, Ask(c, new_)))
  {
    GotoKeeps(s, c, Asked(new_));
  }

  lemma QueryKeeps(s: System, c: nat)
    requires Inv(s) && Enabled(s, Query(c))
    ensures Inv(Step(s, Query(c)))
  {
    hide Kept, Fenced;
    assert CtlOk(s, s.ctls[c]);
    GotoKeeps(s, c, Step(s, Query(c)).ctls[c]);
  }

  lemma ReadPendingKeeps(s: System, c: nat)
    requires Inv(s) && Enabled(s, ReadPending(c))
    ensures Inv(Step(s, ReadPending(c)))
  {
    hide Kept, Fenced, DoneAt, Ready;
    var s' := Claim(s, c);
    assert CtlOk(s, s.ctls[c]);
    if s'.ctls[c].ClaimPut? {
      BaseKeeps(s, s');
    } else {
      GotoKeeps(s, c, s'.ctls[c]);
    }
  }

  lemma ClaimedKeeps(s: System, c: nat, a: Action)
    requires Inv(s) && Enabled(s, a) && (a == ClaimOk(c) || a == ClaimAgain(c))
    ensures Inv(Step(s, a))
  {
    hide Kept, Fenced, DoneAt, Ready;
    assert CtlOk(s, s.ctls[c]);
    GotoKeeps(s, c, Step(s, a).ctls[c]);
  }

  lemma SkipKeeps(s: System, c: nat)
    requires Inv(s) && Enabled(s, SkipShard(c))
    ensures Inv(Step(s, SkipShard(c)))
  {
    hide Kept, Fenced, Ready, Arrived;
    assert CtlOk(s, s.ctls[c]);
    GotoKeeps(s, c, Step(s, SkipShard(c)).ctls[c]);
  }

  lemma SendMoveKeeps(s: System, c: nat)
    requires Inv(s) && Enabled(s, SendMove(c))
    ensures Inv(Step(s, SendMove(c)))
  {
    hide Kept, Fenced, Ready, Arrived, DoneAt;
    assert CtlOk(s, s.ctls[c]);
    var s' := Step(s, SendMove(c));
    assert ReqOk(s', MoveReq(s.ctls[c]));
    BaseKeeps(s, s');
  }

  lemma MoveReplyKeeps(s: System, c: nat, ack: Ack)
    requires Inv(s) && Enabled(s, MoveReply(c, ack))
    ensures Inv(Step(s, MoveReply(c, ack)))
  {
    hide Kept, Fenced, Ready, Arrived, DoneAt;
    assert CtlOk(s, s.ctls[c]);
    assert AckOk(s, ack);
    GotoKeeps(s, c, Step(s, MoveReply(c, ack)).ctls[c]);
  }

  lemma PublishKeeps(s: System, c: nat, a: Action)
    requires Inv(s) && Enabled(s, a) && (a == MovesDone(c) || a == ReadVisible(c) || a == PostAgain(c))
    ensures Inv(Step(s, a))
  {
    hide Kept, Fenced, DoneAt;
    assert CtlOk(s, s.ctls[c]);
    var s' := Step(s, a);
    if s'.posts == s.posts {
      assert s' == Goto(s, c, s'.ctls[c]);
      GotoKeeps(s, c, s'.ctls[c]);
    } else {
      BaseKeeps(s, s');
    }
  }

  lemma RecoverKeeps(s: System, c: nat, a: Action)
    requires Inv(s) && Enabled(s, a) && Orderly(s, a) && (a == Recover(c) || a == RecoverPending(c) || a == GiveUp(c))
    ensures Inv(Step(s, a))
  {
    hide Kept, Fenced, DoneAt;
    assert CtlOk(s, s.ctls[c]);
    GotoKeeps(s, c, Step(s, a).ctls[c]);
  }

  // ----- a claim takes effect -----

  lemma ExecClaimKeeps(s: System, cfg: Config, ver: nat)
    requires Inv(s) && Enabled(s, ExecClaim(cfg, ver))
    ensures Inv(Step(s, ExecClaim(cfg, ver)))
  {
    hide Numbered, Fenced, Kept, Talk, ClaimFits;
    if ver == s.pver {
      SentClaim(s, cfg, ver);
      ClaimTalk(s, cfg);
      ClaimBase(s, cfg);
    }
  }

  lemma SentClaim(s: System, cfg: Config, ver: nat)
    requires Talk(s) && (cfg, ver) in s.claims
    ensures ClaimFits(s, cfg, ver)
  {
  }

  /** The claim fits only when everything claimed so far is published. */
  lemma ClaimBase(s: System, cfg: Config)
    requires Numbered(s) && Fenced(s) && Kept(s) && ClaimFits(s, cfg, s.pver)
    ensures
      var s' := s.(pending := Some(cfg), pver := s.pver + 1, won := s.won + {(cfg, s.pver)}, cfgs := s.cfgs + [cfg]);
      Numbered(s') && Fenced(s') && Kept(s')
  {
    var s' := s.(pending := Some(cfg), pver := s.pver + 1, won := s.won + {(cfg, s.pver)}, cfgs := s.cfgs + [cfg]);
    assert s'.cfgs[..s.vver] == s.cfgs[..s.vver];
    forall sh: nat | sh < s.n ensures Where(s'.cfgs, s.recs, Replay(s.accepted[sh]), sh) {
      ClaimWhere(s, cfg, sh);
    }
    hide Where, Arrived, Left;
    forall i, sh: nat | 0 < i < s.vver && sh < s.n ensures DoneAt(s'.cfgs, s.recs, i, sh) {
      assert DoneAt(s.cfgs, s.recs, i, sh);
      SameBefore(s, cfg, i, sh);
    }
  }

  lemma ClaimWhere(s: System, cfg: Config, sh: nat)
    requires Numbered(s) && Fenced(s) && Kept(s) && ClaimFits(s, cfg, s.pver) && sh < s.n
    ensures Where(s.cfgs + [cfg], s.recs, Replay(s.accepted[sh]), sh)
  {
    hide Replay, Numbered;
    NextNumber(s, cfg);
    var p := |s.cfgs| - 1;
    assert Where(s.cfgs, s.recs, Replay(s.accepted[sh]), sh);
    assert Moved(s.cfgs, p, sh) ==> DoneAt(s.cfgs, s.recs, p, sh);
  }

  lemma NextNumber(s: System, cfg: Config)
    requires Numbered(s) && ClaimFits(s, cfg, s.pver)
    ensures s.vver == |s.cfgs| && cfg.num == NumOf(s.cfgs, |s.cfgs| - 1) + 1
  {
  }

  /** A longer list of configurations says the same about the earlier ones. */
  lemma SameBefore(s: System, cfg: Config, i: int, sh: nat)
    requires 0 <= i < |s.cfgs|
    ensures var cfgs' := s.cfgs + [cfg];
      && Pos(cfgs', NumOf(s.cfgs, i)) == Pos(s.cfgs, NumOf(s.cfgs, i))
      && NumOf(cfgs', i) == NumOf(s.cfgs, i) && NumOf(cfgs', 0) == NumOf(s.cfgs, 0)
      && Owner(cfgs', i, sh) == Owner(s.cfgs, i, sh) && Owner(cfgs', i - 1, sh) == Owner(s.cfgs, i - 1, sh)
      && Moved(cfgs', i, sh) == Moved(s.cfgs, i, sh)
      && DoneAt(cfgs', s.recs, i, sh) == DoneAt(s.cfgs, s.recs, i, sh)
      && Arrived(cfgs', s.recs, i, sh) == Arrived(s.cfgs, s.recs, i, sh)
      && (forall state :: Ready(cfgs', s.recs, i, sh, state) == Ready(s.cfgs, s.recs, i, sh, state))
  {
  }

  lemma ClaimTalk(s: System, cfg: Config)
    requires Inv(s) && ClaimFits(s, cfg, s.pver)
    ensures Talk(s.(pending := Some(cfg), pver := s.pver + 1, won := s.won + {(cfg, s.pver)}, cfgs := s.cfgs + [cfg]))
  {
    var s' := s.(pending := Some(cfg), pver := s.pver + 1, won := s.won + {(cfg, s.pver)}, cfgs := s.cfgs + [cfg]);
    NextNumber(s, cfg);
    hide Kept, Fenced, Ready, Arrived, DoneAt, Moved, Owner;
    forall req | req in s'.reqs ensures ReqOk(s', req) {
      assert ReqOk(s, req);
      MovedInside(s.cfgs, Pos(s.cfgs, req.num), req.sh);
      SameBefore(s, cfg, Pos(s.cfgs, req.num), req.sh);
    }
    forall ack | ack in s'.acks ensures AckOk(s', ack) {
      assert AckOk(s, ack);
      MovedInside(s.cfgs, Pos(s.cfgs, ack.num), ack.sh);
      SameBefore(s, cfg, Pos(s.cfgs, ack.num), ack.sh);
    }
    forall c | 0 <= c < |s'.ctls| ensures CtlOk(s', s'.ctls[c]) {
      ClaimCtl(s, cfg, s.ctls[c], s');
    }
    forall x, ver | (x, ver) in s'.posts ensures PostFits(s', x, ver) {
      assert PostFits(s, x, ver);
      ClaimComplete(s, cfg, x, s');
    }
    forall x, ver | (x, ver) in s'.claims ensures ClaimFits(s', x, ver) {
      assert ClaimFits(s, x, ver);
    }
    forall x, ver | (x, ver) in s'.won ensures Claimed(s', x) {
      if (x, ver) in s.won { assert Claimed(s, x); }
    }
  }

  lemma MovedInside(cfgs: seq<Config>, i: int, sh: nat)
    requires Moved(cfgs, i, sh)
    ensures 0 < i < |cfgs|
  {
  }

  lemma ClaimComplete(s: System, cfg: Config, x: Config, s': System)
    requires Complete(s, x) && s'.cfgs == s.cfgs + [cfg] && s'.recs == s.recs && s'.n == s.n
    ensures Complete(s', x)
  {
    hide DoneAt;
    forall sh: nat | sh < s.n ensures DoneAt(s'.cfgs, s.recs, Pos(s.cfgs, x.num), sh) {
      SameBefore(s, cfg, Pos(s.cfgs, x.num), sh);
    }
  }

  lemma ClaimCtl(s: System, cfg: Config, pc: Pc, s': System)
    requires |s.cfgs| > 0 && CtlOk(s, pc)
    requires s'.cfgs == s.cfgs + [cfg] && s'.recs == s.recs && s'.n == s.n && s'.gids == s.gids && s'.vver == s.vver
    ensures CtlOk(s', pc)
  {
    hide DoneAt, Ready, Arrived, Moved;
    match pc
    case Idle =>
    case Asked(_) =>
    case Claiming(_, _) =>
    case ClaimPut(_, _, _) =>
    case Recovering(_) =>
    case Posting(new_) => ClaimComplete(s, cfg, new_, s');
    case PostPut(new_, _) => ClaimComplete(s, cfg, new_, s');
    case Moving(prev, new_, sh, stage) =>
      var i := Pos(s.cfgs, new_.num);
      SameBefore(s, cfg, i, sh);
      forall x: nat | x < s.n
        ensures prev.shards[x] == Owner(s'.cfgs, i - 1, x) || Finished(s'.cfgs, s.recs, i, x)
      {
        SameBefore(s, cfg, i, x);
      }
      forall x: nat | x < sh ensures DoneAt(s'.cfgs, s.recs, i, x) {
        SameBefore(s, cfg, i, x);
      }
  }

  // ----- a configuration is published -----

  lemma ExecPostKeeps(s: System, cfg: Config, ver: nat)
    requires Inv(s) && Enabled(s, ExecPost(cfg, ver))
    ensures Inv(Step(s, ExecPost(cfg, ver)))
  {
    hide Kept, Ready, Arrived, DoneAt;
    if ver == s.vver {
      assert PostFits(s, cfg, ver);
      var s' := Step(s, ExecPost(cfg, ver));
      assert s.cfgs[..s.vver] + [s.cfgs[s.vver]] == s.cfgs[..s.vver + 1];
      PostKept(s, s');
      forall req | req in s'.reqs ensures ReqOk(s', req) { assert ReqOk(s, req); }
      forall ack | ack in s'.acks ensures AckOk(s', ack) { assert AckOk(s, ack); }
      forall c | 0 <= c < |s'.ctls| ensures CtlOk(s', s'.ctls[c]) { assert CtlOk(s, s.ctls[c]); }
      forall x, v | (x, v) in s'.posts ensures PostFits(s', x, v) { assert PostFits(s, x, v); assert Complete(s, x); }
      forall x, v | (x, v) in s'.claims ensures ClaimFits(s', x, v) { assert ClaimFits(s, x, v); }
      forall x, v | (x, v) in s'.won ensures Claimed(s', x) { assert Claimed(s, x); }
    }
  }

  lemma PostKept(s: System, s': System)
    requires Kept(s) && s'.cfgs == s.cfgs && s'.recs == s.recs && s'.accepted == s.accepted && s'.n == s.n
    ensures Kept(s')
  {
    hide Where;
  }

  // ----- a group carries a request out -----

  /** Records only move on: the number never falls, and a shard given up at a number is not taken back at it. */
  ghost predicate Later(r: ShardRec, r': ShardRec) {
    r.num <= r'.num && (r'.num == r.num && r.own == NotOwned ==> r'.own == NotOwned)
  }

  /** What a change of the record of group g for shard sh must respect, so that all that was relied on stays true. */
  ghost predicate Fair(s: System, g: nat, sh: nat, r': ShardRec) {
    && Later(At(s.recs, g, sh), r') && r'.num <= NumOf(s.cfgs, |s.cfgs| - 1)
    && (Still(s.cfgs, sh) ==> r'.num < NumOf(s.cfgs, |s.cfgs| - 1))
    && (forall i, state :: Moved(s.cfgs, i, sh) && Ready(s.cfgs, s.recs, i, sh, state)
          ==> Ready(s.cfgs, s.recs[(g, sh) := r'], i, sh, state))
  }

  lemma FactsStay(s: System, g: nat, sh: nat, r': ShardRec, i: int, x: nat)
    requires (g, sh) in s.recs && Fair(s, g, sh, r')
    ensures var recs' := s.recs[(g, sh) := r'];
      && (Arrived(s.cfgs, s.recs, i, x) ==> Arrived(s.cfgs, recs', i, x))
      && (DoneAt(s.cfgs, s.recs, i, x) ==> DoneAt(s.cfgs, recs', i, x))
      && (forall state :: Moved(s.cfgs, i, x) && Ready(s.cfgs, s.recs, i, x, state) ==>
            Ready(s.cfgs, recs', i, x, state))
  {
    if x == sh {
      hide Ready;
    }
  }

  /** s with one record replaced, and perhaps a reply sent. */
  ghost function Replaced(s: System, g: nat, sh: nat, r': ShardRec): System {
    s.(recs := s.recs[(g, sh) := r'])
  }

  lemma ReplacedTalk(s: System, g: nat, sh: nat, r': ShardRec)
    requires Talk(s) && (g, sh) in s.recs && Fair(s, g, sh, r')
    ensures Talk(Replaced(s, g, sh, r'))
  {
    var s' := Replaced(s, g, sh, r');
    hide Ready, Arrived, DoneAt, Moved, Fair;
    forall req | req in s'.reqs ensures ReqOk(s', req) {
      assert ReqOk(s, req);
      FactsStay(s, g, sh, r', Pos(s.cfgs, req.num), req.sh);
    }
    forall ack | ack in s'.acks ensures AckOk(s', ack) {
      assert AckOk(s, ack);
      FactsStay(s, g, sh, r', Pos(s.cfgs, ack.num), ack.sh);
    }
    forall c | 0 <= c < |s'.ctls| ensures CtlOk(s', s'.ctls[c]) {
      assert CtlOk(s, s.ctls[c]);
      ReplacedCtl(s, g, sh, r', s.ctls[c]);
    }
    forall x, ver | (x, ver) in s'.posts ensures PostFits(s', x, ver) {
      assert PostFits(s, x, ver);
      ReplacedComplete(s, g, sh, r', x);
    }
    forall x, ver | (x, ver) in s'.claims ensures ClaimFits(s', x, ver) { assert ClaimFits(s, x, ver); }
    forall x, ver | (x, ver) in s'.won ensures Claimed(s', x) { assert Claimed(s, x); }
  }

  lemma ReplacedComplete(s: System, g: nat, sh: nat, r': ShardRec, cfg: Config)
    requires (g, sh) in s.recs && Fair(s, g, sh, r') && Complete(s, cfg)
    ensures Complete(Replaced(s, g, sh, r'), cfg)
  {
    hide Fair, DoneAt;
    var recs' := s.recs[(g, sh) := r'];
    forall x: nat | x < s.n ensures DoneAt(s.cfgs, recs', Pos(s.cfgs, cfg.num), x) {
      FactsStay(s, g, sh, r', Pos(s.cfgs, cfg.num), x);
    }
  }

  lemma ReplacedCtl(s: System, g: nat, sh: nat, r': ShardRec, pc: Pc)
    requires (g, sh) in s.recs && Fair(s, g, sh, r') && CtlOk(s, pc)
    ensures CtlOk(Replaced(s, g, sh, r'), pc)
  {
    hide Fair, DoneAt, Ready, Arrived, Moved;
    match pc
    case Idle =>
    case Asked(_) =>
    case Claiming(_, _) =>
    case ClaimPut(_, _, _) =>
    case Recovering(_) =>
    case Posting(new_) => ReplacedComplete(s, g, sh, r', new_);
    case PostPut(new_, _) => ReplacedComplete(s, g, sh, r', new_);
    case Moving(prev, new_, x, stage) =>
      var i, recs' := Pos(s.cfgs, new_.num), s.recs[(g, sh) := r'];
      FactsStay(s, g, sh, r', i, x);
      forall y: nat | y < s.n
        ensures prev.shards[y] == Owner(s.cfgs, i - 1, y) || Finished(s.cfgs, recs', i, y)
      {
        FactsStay(s, g, sh, r', i, y);
      }
      forall y: nat | y < x ensures DoneAt(s.cfgs, recs', i, y) {
        FactsStay(s, g, sh, r', i, y);
      }
  }

  /** Shard sh of group g may get the record r': nothing relied on breaks, and the data is where it should be. */
  ghost predicate Sound(s: System, g: nat, sh: nat, r': ShardRec) {
    && sh < s.n && |s.accepted| == s.n && (g, sh) in s.recs && Fair(s, g, sh, r')
    && Where(s.cfgs, s.recs[(g, sh) := r'], Replay(s.accepted[sh]), sh)
  }

  /** Keeping the same record, or clearing the data of a shard the group does not own, changes nothing. */
  lemma SoundSame(s: System, g: nat, sh: nat, r': ShardRec)
    requires Numbered(s) && Fenced(s) && Kept(s) && sh < s.n && (g, sh) in s.recs
    requires var r := s.recs[(g, sh)]; r' == r || (r.own == r'.own == NotOwned && r'.num == r.num)
    ensures Sound(s, g, sh, r')
  {
    hide Replay;
    var r, recs' := s.recs[(g, sh)], s.recs[(g, sh) := r'];
    assert Where(s.cfgs, s.recs, Replay(s.accepted[sh]), sh);
    assert forall h: nat :: At(recs', h, sh) == if h == g then r' else At(s.recs, h, sh);
  }

  /** A request of a published number finds its shard moved and given up. */
  lemma OldRequest(s: System, req: Req)
    requires Inv(s) && ReqOk(s, req) && Pos(s.cfgs, req.num) < s.vver
    ensures var i := Pos(s.cfgs, req.num);
      && NumOf(s.cfgs, i) == req.num && Arrived(s.cfgs, s.recs, i, req.sh)
      && Left(At(s.recs, Owner(s.cfgs, i - 1, req.sh), req.sh), req.num)
  {
    assert DoneAt(s.cfgs, s.recs, Pos(s.cfgs, req.num), req.sh);
  }

  /** If g is not the owner of configuration i but later is, some later configuration moves the shard to it. */
  lemma {:induction false} MovedInto(cfgs: seq<Config>, i: int, q: int, sh: nat, g: nat) returns (j: int)
    requires 0 <= i < q < |cfgs| && Owner(cfgs, i, sh) != g && Owner(cfgs, q, sh) == g
    ensures i < j <= q && Moved(cfgs, j, sh) && Owner(cfgs, j, sh) == g
    decreases q
  {
    if Owner(cfgs, q - 1, sh) != g {
      j := q;
    } else {
      j := MovedInto(cfgs, i, q - 1, sh, g);
    }
  }

  /** A group that has anything to do with a shard has a number past every configuration that gave it to others. */
  lemma HolderPast(s: System, i: int, sh: nat, g: nat)
    requires Numbered(s) && Fenced(s) && Kept(s) && sh < s.n && 0 <= i < |s.cfgs| - 1 && Owner(s.cfgs, i, sh) != g
    requires At(s.recs, g, sh).own != NotOwned
    ensures At(s.recs, g, sh).num > NumOf(s.cfgs, i)
  {
    hide Replay;
    var p := |s.cfgs| - 1;
    assert Where(s.cfgs, s.recs, Replay(s.accepted[sh]), sh);
    if g == Owner(s.cfgs, p - 1, sh) {
      var j := MovedInto(s.cfgs, i, p - 1, sh, g);
      assert DoneAt(s.cfgs, s.recs, j, sh);
    }
  }

  /** A request to a group that is not the source of a finished move touches nothing but that group's number. */
  lemma StrayStep(s: System, req: Req, r': ShardRec)
    requires Inv(s) && ReqOk(s, req) && (req.g, req.sh) in s.recs && !req.Install?
    requires req.g != Owner(s.cfgs, Pos(s.cfgs, req.num) - 1, req.sh)
    requires var r := s.recs[(req.g, req.sh)];
      r' == if req.Freeze? then FreezeRec(r, req.num).0 else DeleteRec(r, req.num)
    ensures Sound(s, req.g, req.sh, r')
    ensures var r := s.recs[(req.g, req.sh)]; if r.own == NotOwned then r'.own == NotOwned else r' == r
  {
    hide Replay, Talk;
    var i, p, r := Pos(s.cfgs, req.num), |s.cfgs| - 1, s.recs[(req.g, req.sh)];
    assert Where(s.cfgs, s.recs, Replay(s.accepted[req.sh]), req.sh);
    if r.own != NotOwned {
      if i < p { HolderPast(s, i, req.sh, req.g); }
      SoundSame(s, req.g, req.sh, r);
    } else {
      Raised(s, req.g, req.sh, r', i);
    }
  }

  /** The number of a group without the shard may rise to that of a configuration that gives the shard to another. */
  lemma Raised(s: System, g: nat, sh: nat, r': ShardRec, i: int)
    requires Numbered(s) && Fenced(s) && Kept(s) && sh < s.n && (g, sh) in s.recs && Moved(s.cfgs, i, sh)
    requires Owner(s.cfgs, i, sh) != g && s.recs[(g, sh)].own == NotOwned && r'.own == NotOwned
    requires r'.num == s.recs[(g, sh)].num || s.recs[(g, sh)].num <= r'.num == NumOf(s.cfgs, i)
    ensures Sound(s, g, sh, r')
  {
    hide Replay;
    var r, recs' := s.recs[(g, sh)], s.recs[(g, sh) := r'];
    assert Where(s.cfgs, s.recs, Replay(s.accepted[sh]), sh);
    assert forall h: nat :: At(recs', h, sh) == if h == g then r' else At(s.recs, h, sh);
  }

  lemma FreezeStep(s: System, req: Req)
    requires Inv(s) && req in s.reqs && req.Freeze? && (req.g, req.sh) in s.recs
    ensures var (r', state) := FreezeRec(s.recs[(req.g, req.sh)], req.num);
      && Sound(s, req.g, req.sh, r')
      && Ready(s.cfgs, s.recs[(req.g, req.sh) := r'], Pos(s.cfgs, req.num), req.sh, state)
  {
    hide Replay, Talk;
    InTalk(s, req);
    var i, at, r := Pos(s.cfgs, req.num), (req.g, req.sh), s.recs[(req.g, req.sh)];
    var (r', _) := FreezeRec(r, req.num);
    assert Where(s.cfgs, s.recs, Replay(s.accepted[req.sh]), req.sh);
    if req.g != Owner(s.cfgs, i - 1, req.sh) {
      StrayStep(s, req, r');
    } else if i < s.vver {
      OldRequest(s, req);
      SoundSame(s, req.g, req.sh, r');
    } else if r.own == Serving {
      FreezeServing(s, req);
    } else {
      SoundSame(s, req.g, req.sh, r');
    }
  }

  lemma InTalk(s: System, req: Req)
    requires Talk(s) && req in s.reqs
    ensures ReqOk(s, req)
  {
  }

  /** Freezing stops the writer with its data in place. */
  lemma FreezeServing(s: System, req: Req)
    requires Numbered(s) && Fenced(s) && Kept(s) && ReqOk(s, req) && req.Freeze? && (req.g, req.sh) in s.recs
    requires Pos(s.cfgs, req.num) == |s.cfgs| - 1 && s.recs[(req.g, req.sh)].own == Serving
    requires req.g == Owner(s.cfgs, |s.cfgs| - 2, req.sh)
    ensures s.recs[(req.g, req.sh)].num < req.num
    ensures Sound(s, req.g, req.sh, ShardRec(s.recs[(req.g, req.sh)].data, Frozen, req.num))
  {
    hide Replay;
    var r := s.recs[(req.g, req.sh)];
    var r' := ShardRec(r.data, Frozen, req.num);
    var recs' := s.recs[(req.g, req.sh) := r'];
    assert Where(s.cfgs, s.recs, Replay(s.accepted[req.sh]), req.sh);
    assert forall h: nat :: At(recs', h, req.sh) == if h == req.g then r' else At(s.recs, h, req.sh);
  }

  lemma InstallStep(s: System, req: Req)
    requires Inv(s) && req in s.reqs && req.Install? && (req.g, req.sh) in s.recs
    ensures var r' := InstallRec(s.recs[(req.g, req.sh)], req.num, req.state);
      Sound(s, req.g, req.sh, r') && r'.num >= req.num
  {
    hide Replay, Talk;
    InTalk(s, req);
    var i, r := Pos(s.cfgs, req.num), s.recs[(req.g, req.sh)];
    if i < s.vver {
      OldRequest(s, req);
    }
    if req.num <= r.num {
      SoundSame(s, req.g, req.sh, r);
    } else {
      InstallFirst(s, req);
    }
  }

  /** The first install of a number hands the frozen data to the new writer. */
  lemma InstallFirst(s: System, req: Req)
    requires Numbered(s) && Fenced(s) && Kept(s) && ReqOk(s, req) && req.Install? && (req.g, req.sh) in s.recs
    requires Pos(s.cfgs, req.num) == |s.cfgs| - 1 && s.recs[(req.g, req.sh)].num < req.num
    ensures Sound(s, req.g, req.sh, ShardRec(Decode(req.state), Serving, req.num))
  {
    hide Replay;
    var r' := ShardRec(Decode(req.state), Serving, req.num);
    var recs' := s.recs[(req.g, req.sh) := r'];
    assert Where(s.cfgs, s.recs, Replay(s.accepted[req.sh]), req.sh);
    assert forall h: nat :: At(recs', h, req.sh) == if h == req.g then r' else At(s.recs, h, req.sh);
  }

  lemma DeleteStep(s: System, req: Req)
    requires Inv(s) && req in s.reqs && req.Delete? && (req.g, req.sh) in s.recs
    ensures var r' := DeleteRec(s.recs[(req.g, req.sh)], req.num);
      Sound(s, req.g, req.sh, r') && Left(r', req.num)
  {
    hide Replay, Talk;
    InTalk(s, req);
    var i, r := Pos(s.cfgs, req.num), s.recs[(req.g, req.sh)];
    assert Where(s.cfgs, s.recs, Replay(s.accepted[req.sh]), req.sh);
    if req.g != Owner(s.cfgs, i - 1, req.sh) {
      StrayStep(s, req, DeleteRec(r, req.num));
    } else if i < s.vver {
      OldRequest(s, req);
      SoundSame(s, req.g, req.sh, DeleteRec(r, req.num));
    } else if r.own == NotOwned {
      SoundSame(s, req.g, req.sh, DeleteRec(r, req.num));
    } else {
      DeleteFrozen(s, req);
    }
  }

  /** Deleting drops the frozen copy of a shard that has arrived. */
  lemma DeleteFrozen(s: System, req: Req)
    requires Numbered(s) && Fenced(s) && Kept(s) && ReqOk(s, req) && req.Delete? && (req.g, req.sh) in s.recs
    requires Pos(s.cfgs, req.num) == |s.cfgs| - 1 && s.recs[(req.g, req.sh)].own != NotOwned
    requires req.g == Owner(s.cfgs, |s.cfgs| - 2, req.sh)
    ensures s.recs[(req.g, req.sh)].num == req.num
    ensures Sound(s, req.g, req.sh, ShardRec(map[], NotOwned, req.num))
  {
    hide Replay;
    var r' := ShardRec(map[], NotOwned, req.num);
    var recs' := s.recs[(req.g, req.sh) := r'];
    assert Where(s.cfgs, s.recs, Replay(s.accepted[req.sh]), req.sh);
    assert forall h: nat :: At(recs', h, req.sh) == if h == req.g then r' else At(s.recs, h, req.sh);
  }

  // ----- one record changes -----

  lemma OtherShards(cfgs: seq<Config>, recs: map<(nat, nat), ShardRec>, g: nat, sh: nat, r': ShardRec, truth: Store,
                    x: nat)
    requires x != sh && Where(cfgs, recs, truth, x)
    ensures Where(cfgs, recs[(g, sh) := r'], truth, x)
  {
    assert forall h: nat :: At(recs[(g, sh) := r'], h, x) == At(recs, h, x);
  }

  lemma ReplacedBase(s: System, g: nat, sh: nat, r': ShardRec)
    requires Numbered(s) && Fenced(s) && Kept(s) && Sound(s, g, sh, r')
    ensures var s' := Replaced(s, g, sh, r'); Numbered(s') && Fenced(s') && Kept(s')
  {
    var s' := Replaced(s, g, sh, r');
    forall x: nat | x < s.n ensures Where(s'.cfgs, s'.recs, Replay(s.accepted[x]), x) {
      if x != sh { OtherShards(s.cfgs, s.recs, g, sh, r', Replay(s.accepted[x]), x); }
    }
    ReplacedFenced(s, g, sh, r');
  }

  lemma ReplacedFenced(s: System, g: nat, sh: nat, r': ShardRec)
    requires Numbered(s) && Fenced(s) && (g, sh) in s.recs && Fair(s, g, sh, r')
    ensures Fenced(Replaced(s, g, sh, r'))
  {
    var recs' := s.recs[(g, sh) := r'];
    assert forall h: nat, x: nat :: At(recs', h, x) == if (h, x) == (g, sh) then r' else At(s.recs, h, x);
    hide Ready, Arrived, Left, Moved, DoneAt;
    forall i, x: nat | 0 < i < s.vver && x < s.n ensures DoneAt(s.cfgs, recs', i, x) {
      assert DoneAt(s.cfgs, s.recs, i, x);
      FactsStay(s, g, sh, r', i, x);
    }
  }

  lemma ReplacedKeeps(s: System, g: nat, sh: nat, r': ShardRec)
    requires Inv(s) && Sound(s, g, sh, r')
    ensures Inv(Replaced(s, g, sh, r'))
  {
    hide Numbered, Fenced, Kept, Talk, Fair, Where;
    ReplacedBase(s, g, sh, r');
    ReplacedTalk(s, g, sh, r');
  }

  lemma AckKeeps(s: System, ack: Ack)
    requires Inv(s) && AckOk(s, ack)
    ensures Inv(s.(acks := s.acks + {ack}))
  {
    var s' := s.(acks := s.acks + {ack});
    hide Where, Ready, Arrived, DoneAt, Moved;
    forall req | req in s'.reqs ensures ReqOk(s', req) { assert ReqOk(s, req); }
    forall a | a in s'.acks ensures AckOk(s', a) { if a in s.acks { assert AckOk(s, a); } }
    forall c | 0 <= c < |s'.ctls| ensures CtlOk(s', s'.ctls[c]) { assert CtlOk(s, s.ctls[c]); }
    forall x, v | (x, v) in s'.posts ensures PostFits(s', x, v) { assert PostFits(s, x, v); assert Complete(s, x); }
    forall x, v | (x, v) in s'.claims ensures ClaimFits(s', x, v) { assert ClaimFits(s, x, v); }
  }

  lemma ExecKeeps(s: System, req: Req)
    requires Inv(s) && Enabled(s, Exec(req))
    ensures Inv(Step(s, Exec(req)))
  {
    hide Inv, Sound, Ready;
    var at := (req.g, req.sh);
    var r' := Serve(s, req).recs[at];
    var s1 := Replaced(s, req.g, req.sh, r');
    ReqMoves(s, req);
    match req
    case Freeze(g, sh, num) =>
      FreezeStep(s, req);
      ReplacedKeeps(s, g, sh, r');
      AckKeeps(s1, FreezeAck(g, sh, num, FreezeRec(s.recs[at], num).1));
    case Install(g, sh, num, state) =>
      InstallStep(s, req);
      ReplacedKeeps(s, g, sh, r');
      AckKeeps(s1, InstallAck(g, sh, num));
    case Delete(g, sh, num) =>
      DeleteStep(s, req);
      ReplacedKeeps(s, g, sh, r');
      ReqMoves(s1, req);
      AckKeeps(s1, DeleteAck(g, sh, num));
  }

  /** What every request in the network satisfies. */
  lemma ReqMoves(s: System, req: Req)
    requires Inv(s) && req in s.reqs
    ensures ReqOk(s, req) && NumOf(s.cfgs, Pos(s.cfgs, req.num)) == req.num
  {
    assert ReqOk(s, req);
  }

  // ----- a client writes -----

  lemma ClientPutKeeps(s: System, g: nat, sh: nat, put: PutOp)
    requires Inv(s) && Enabled(s, ClientPut(g, sh, put))
    ensures Inv(Step(s, ClientPut(g, sh, put)))
  {
    var (r', err) := PutRec(s.recs[(g, sh)], put.key, put.value, put.version);
    if err == OK {
      Written(s, g, sh, put);
      AcceptedKeeps(s, g, sh, r', put);
    } else {
      SoundSame(s, g, sh, r');
      ReplacedKeeps(s, g, sh, r');
    }
  }

  /** Only the group holding the shard's data accepts a write. */
  lemma Written(s: System, g: nat, sh: nat, put: PutOp)
    requires Numbered(s) && Fenced(s) && Kept(s) && (g, sh) in s.recs && sh < s.n
    requires PutRec(s.recs[(g, sh)], put.key, put.value, put.version).1 == OK
    ensures var r' := PutRec(s.recs[(g, sh)], put.key, put.value, put.version).0;
      && Fair(s, g, sh, r') && Where(s.cfgs, s.recs[(g, sh) := r'], Replay(s.accepted[sh] + [put]), sh)
      && Succeeds(s.accepted[sh] + [put])
  {
    var r := s.recs[(g, sh)];
    var r' := PutRec(r, put.key, put.value, put.version).0;
    var recs' := s.recs[(g, sh) := r'];
    assert (s.accepted[sh] + [put])[..|s.accepted[sh]|] == s.accepted[sh];
    ghost var truth, truth' := Replay(s.accepted[sh]), Replay(s.accepted[sh] + [put]);
    assert truth' == DoPut(truth, put.key, put.value, put.version).0;
    assert Succeeds(s.accepted[sh] + [put]) <==>
           Succeeds(s.accepted[sh]) && DoPut(truth, put.key, put.value, put.version).1 == OK;
    hide Replay, DoPut, Succeeds;
    assert Where(s.cfgs, s.recs, truth, sh);
    assert forall h: nat :: At(recs', h, sh) == if h == g then r' else At(s.recs, h, sh);
  }

  lemma AcceptedKeeps(s: System, g: nat, sh: nat, r': ShardRec, put: PutOp)
    requires Inv(s) && |s.accepted| == s.n && (g, sh) in s.recs && sh < s.n && Fair(s, g, sh, r')
    requires Where(s.cfgs, s.recs[(g, sh) := r'], Replay(s.accepted[sh] + [put]), sh)
    requires Succeeds(s.accepted[sh] + [put])
    ensures Inv(Replaced(s, g, sh, r').(accepted := s.accepted[sh := s.accepted[sh] + [put]]))
  {
    hide Kept, Fenced, Talk, Fair, Where, Replay, Succeeds;
    var s' := Replaced(s, g, sh, r').(accepted := s.accepted[sh := s.accepted[sh] + [put]]);
    AcceptedKept(s, g, sh, r', put);
    ReplacedFenced(s, g, sh, r');
    ReplacedTalk(s, g, sh, r');
    SameFence(Replaced(s, g, sh, r'), s');
    SameTalk(Replaced(s, g, sh, r'), s');
  }

  lemma AcceptedKept(s: System, g: nat, sh: nat, r': ShardRec, put: PutOp)
    requires Kept(s) && sh < s.n
    requires Where(s.cfgs, s.recs[(g, sh) := r'], Replay(s.accepted[sh] + [put]), sh)
    requires Succeeds(s.accepted[sh] + [put])
    ensures Kept(Replaced(s, g, sh, r').(accepted := s.accepted[sh := s.accepted[sh] + [put]]))
  {
    hide Where, Replay, Succeeds;
    var s' := Replaced(s, g, sh, r').(accepted := s.accepted[sh := s.accepted[sh] + [put]]);
    forall x: nat | x < s.n ensures Where(s'.cfgs, s'.recs, Replay(s'.accepted[x]), x) {
      if x != sh { OtherShards(s.cfgs, s.recs, g, sh, r', Replay(s.accepted[x]), x); }
    }
  }

  lemma SameFence(s: System, s': System)
    requires Fenced(s) && s' == s.(accepted := s'.accepted)
    ensures Fenced(s')
  {
    hide DoneAt;
  }

  lemma SameTalk(s: System, s': System)
    requires Talk(s) && s' == s.(accepted := s'.accepted)
    ensures Talk(s')
  {
    hide Ready, Arrived, DoneAt, Moved;
    forall req | req in s'.reqs ensures ReqOk(s', req) { assert ReqOk(s, req); }
    forall a | a in s'.acks ensures AckOk(s', a) { assert AckOk(s, a); }
    forall c | 0 <= c < |s'.ctls| ensures CtlOk(s', s'.ctls[c]) { assert CtlOk(s, s.ctls[c]); }
    forall x, v | (x, v) in s'.posts ensures PostFits(s', x, v) { assert PostFits(s, x, v); assert Complete(s, x); }
    forall x, v | (x, v) in s'.claims ensures ClaimFits(s', x, v) { assert ClaimFits(s, x, v); }
  }

  // ----- every run -----

  lemma StepKeeps(s: System, a: Action)
    requires Inv(s) && Enabled(s, a) && Orderly(s, a)
    ensures Inv(Step(s, a))
  {
    hide Inv, Orderly, Step;
    match a
    case Ask(c, new_) => AskKeeps(s, c, new_);
    case Query(c) => QueryKeeps(s, c);
    case ReadPending(c) => ReadPendingKeeps(s, c);
    case ExecClaim(cfg, ver) => ExecClaimKeeps(s, cfg, ver);
    case ClaimOk(c) => ClaimedKeeps(s, c, a);
    case ClaimAgain(c) => ClaimedKeeps(s, c, a);
    case SkipShard(c) => SkipKeeps(s, c);
    case SendMove(c) => SendMoveKeeps(s, c);
    case MoveReply(c, ack) => MoveReplyKeeps(s, c, ack);
    case MovesDone(c) => PublishKeeps(s, c, a);
    case ReadVisible(c) => PublishKeeps(s, c, a);
    case PostAgain(c) => PublishKeeps(s, c, a);
    case ExecPost(cfg, ver) => ExecPostKeeps(s, cfg, ver);
    case Recover(c) => RecoverKeeps(s, c, a);
    case RecoverPending(c) => RecoverKeeps(s, c, a);
    case GiveUp(c) => RecoverKeeps(s, c, a);
    case Exec(req) => ExecKeeps(s, req);
    case ClientPut(g, sh, put) => ClientPutKeeps(s, g, sh, put);
  }

  lemma {:induction false} RunsKeep(s: System, acts: seq<Action>, s': System)
    requires Inv(s) && Reaches(s, acts, s')
    ensures Inv(s')
    decreases |acts|
  {
    hide Inv, Orderly, Step;
    if acts == [] {
    } else {
      StepKeeps(s, acts[0]);
      RunsKeep(Step(s, acts[0]), acts[1..], s');
    }
  }

  // ----- what holds in every state of every orderly run -----

  ghost predicate Reachable(s: System) {
    exists n: nat, gids: set<nat>, num: nat, controllers: nat, acts: seq<Action> ::
      GID1 in gids && Reaches(Init(n, gids, num, controllers), acts, s)
  }

  lemma ReachableInv(s: System)
    requires Reachable(s)
    ensures Inv(s)
  {
    hide Inv, Reaches;
    var n: nat, gids: set<nat>, num: nat, controllers: nat, acts: seq<Action> :|
      GID1 in gids && Reaches(Init(n, gids, num, controllers), acts, s);
    InitHolds(n, gids, num, controllers);
    RunsKeep(Init(n, gids, num, controllers), acts, s);
  }

  /** Two groups never serve the same shard, and the one that does has every write ever accepted. */
  lemma SingleWriter(s: System, g: nat, h: nat, sh: nat)
    requires Reachable(s) && sh < s.n && (g, sh) in s.recs && (h, sh) in s.recs
    ensures s.recs[(g, sh)].own == Serving && s.recs[(h, sh)].own == Serving ==> g == h
    ensures |s.accepted| == s.n && Succeeds(s.accepted[sh])
    ensures s.recs[(g, sh)].own == Serving ==> s.recs[(g, sh)].data == Replay(s.accepted[sh])
  {
    hide Replay;
    ReachableInv(s);
    assert Where(s.cfgs, s.recs, Replay(s.accepted[sh]), sh);
    assert At(s.recs, g, sh) == s.recs[(g, sh)] && At(s.recs, h, sh) == s.recs[(h, sh)];
  }

  /** No accepted write is lost: at every moment some group that serves or has frozen the shard holds the
      replay of all of them. */
  lemma NothingLost(s: System, sh: nat) returns (g: nat)
    requires Reachable(s) && sh < s.n
    ensures |s.accepted| == s.n && (g, sh) in s.recs
    ensures s.recs[(g, sh)].own != NotOwned && s.recs[(g, sh)].data == Replay(s.accepted[sh])
  {
    hide Replay;
    ReachableInv(s);
    var p := |s.cfgs| - 1;
    assert Where(s.cfgs, s.recs, Replay(s.accepted[sh]), sh);
    var away := Moved(s.cfgs, p, sh) && !Arrived(s.cfgs, s.recs, p, sh);
    g := if away then Owner(s.cfgs, p - 1, sh) else Owner(s.cfgs, p, sh);
    assert At(s.recs, g, sh).own != NotOwned;
  }

  // ----- what clients are answered -----

  /** The puts on key among puts. */
  ghost function On(puts: seq<PutOp>, key: string): seq<PutOp> {
    if puts == [] then []
    else On(puts[..|puts| - 1], key) + if puts[|puts| - 1].key == key then [puts[|puts| - 1]] else []
  }

  /** When every one of the puts succeeds, the store holds each key's last put at the number of its puts. */
  lemma {:induction false} ReplayHolds(puts: seq<PutOp>, key: string)
    requires Succeeds(puts)
    ensures var on, kv := On(puts, key), Replay(puts);
      && (key in kv <==> on != [])
      && (key in kv ==> kv[key] == KvEntry(on[|on| - 1].value, |on|))
  {
    if puts == [] {
    } else {
      ReplayHolds(puts[..|puts| - 1], key);
    }
  }

  /** What a group that has the shard answers a get, when the writes accepted so far are puts. */
  ghost predicate ReadsFrom(puts: seq<PutOp>, key: string, reply: Reply) {
    var on := On(puts, key);
    reply == if on == [] then GetReply("", 0, ErrNoKey) else GetReply(on[|on| - 1].value, |on|, OK)
  }

  /** In every orderly run a get at the group serving a shard finds the value of the last accepted put on the key and
      their number, ErrNoKey iff there is none; a put there succeeds iff it names that number. */
  lemma ServingAnswers(s: System, g: nat, sh: nat, key: string, value: string, version: nat)
    requires Reachable(s) && sh < s.n && (g, sh) in s.recs && s.recs[(g, sh)].own == Serving
    ensures |s.accepted| == s.n && ReadsFrom(s.accepted[sh], key, GetRec(s.recs[(g, sh)], key))
    ensures var on, err := On(s.accepted[sh], key), PutRec(s.recs[(g, sh)], key, value, version).1;
      err == if version == |on| then OK else if on == [] then ErrNoKey else ErrVersion
  {
    SingleWriter(s, g, g, sh);
    hide Reachable, Succeeds, Replay;
    ReplayHolds(s.accepted[sh], key);
  }

  /** A group answers ErrWrongGroup to a get iff it does not have the shard, to a put iff it does not serve it; then the
      put changes nothing. */
  lemma WrongGroupExactly(r: ShardRec, key: string, value: string, version: nat)
    ensures GetRec(r, key).GetReply? && (GetRec(r, key).err == ErrWrongGroup <==> r.own == NotOwned)
    ensures PutRec(r, key, value, version).1 == ErrWrongGroup <==> r.own != Serving
    ensures r.own != Serving ==> PutRec(r, key, value, version).0 == r
  {
  }

  /** The record is the frozen one, or the group has moved on from it for good. */
  ghost predicate FrozenOrPast(r: ShardRec, frozen: ShardRec) {
    r == frozen || r.num > frozen.num || (r.num == frozen.num && r.own == NotOwned)
  }

  lemma StepFrozenOrPast(s: System, a: Action, g: nat, sh: nat, frozen: ShardRec)
    requires Enabled(s, a) && (g, sh) in s.recs && frozen.own == Frozen && FrozenOrPast(s.recs[(g, sh)], frozen)
    ensures (g, sh) in Step(s, a).recs && FrozenOrPast(Step(s, a).recs[(g, sh)], frozen)
  {
  }

  lemma {:induction false} RunFrozenOrPast(s: System, acts: seq<Action>, s': System, g: nat, sh: nat, frozen: ShardRec)
    requires Reaches(s, acts, s') && (g, sh) in s.recs && frozen.own == Frozen && FrozenOrPast(s.recs[(g, sh)], frozen)
    ensures (g, sh) in s'.recs && FrozenOrPast(s'.recs[(g, sh)], frozen)
    decreases |acts|
  {
    hide FrozenOrPast, Enabled, Orderly, Step;
    if acts == [] {
    } else {
      StepFrozenOrPast(s, acts[0], g, sh, frozen);
      RunFrozenOrPast(Step(s, acts[0]), acts[1..], s', g, sh, frozen);
    }
  }

  /** In state s the request froze group req.g, which served; in s' the group is still frozen under that number. */
  ghost predicate FrozenBy(s: System, req: Req, s1: System, s': System) {
    && Enabled(s, Exec(req)) && s1 == Step(s, Exec(req))
    && s.recs[(req.g, req.sh)].own == Serving && At(s1.recs, req.g, req.sh).own == Frozen
    && At(s'.recs, req.g, req.sh).own == Frozen && At(s'.recs, req.g, req.sh).num == At(s1.recs, req.g, req.sh).num
  }

  /** A group that a request froze answers gets from the writes accepted up to that moment, for as long as it stays
      frozen under that number, whatever has been accepted elsewhere since. */
  lemma FrozenAnswers(s: System, req: Req, s1: System, acts: seq<Action>, s': System, key: string)
    requires Reachable(s) && req.sh < s.n && FrozenBy(s, req, s1, s') && Reaches(s1, acts, s')
    ensures |s.accepted| == s.n && ReadsFrom(s.accepted[req.sh], key, GetRec(At(s'.recs, req.g, req.sh), key))
  {
    FrozenData(s, req, s1, s');
    hide Reachable, Reaches, Step, Enabled, On, FrozenBy;
    RunFrozenOrPast(s1, acts, s', req.g, req.sh, s1.recs[(req.g, req.sh)]);
    ServingAnswers(s, req.g, req.sh, key, "", 0);
  }

  lemma FrozenData(s: System, req: Req, s1: System, s': System)
    requires FrozenBy(s, req, s1, s')
    ensures (req.g, req.sh) in s.recs && (req.g, req.sh) in s1.recs && (req.g, req.sh) in s'.recs
    ensures var r, r1, r' := s.recs[(req.g, req.sh)], s1.recs[(req.g, req.sh)], s'.recs[(req.g, req.sh)];
      && r.own == Serving && r1.own == Frozen && r1.data == r.data && r'.own == Frozen && r'.num == r1.num
  {
  }

  /** What a freeze does: it stops the puts unless its number is old, changes no data, and hands the data out unless its
      number is old or the group does not have the shard. */
  lemma FreezeDoes(s: System, g: nat, sh: nat, num: nat)
    requires Enabled(s, Exec(Freeze(g, sh, num)))
    ensures var r, s' := s.recs[(g, sh)], Step(s, Exec(Freeze(g, sh, num))); var r' := s'.recs[(g, sh)];
      && r'.data == r.data && r'.num >= r.num && r'.num >= num && (r'.num == r.num || r'.num == num)
      && (r'.own == Serving <==> r.own == Serving && num < r.num) && (r'.own == NotOwned <==> r.own == NotOwned)
      && s'.acks == s.acks + {FreezeAck(g, sh, num, if num < r.num || r.own == NotOwned then None else Some(r.data))}
  {
  }

  /** What an install does: nothing unless its number is new; then the group serves exactly the keys it was given. */
  lemma InstallDoes(s: System, g: nat, sh: nat, num: nat, state: Option<Store>)
    requires Enabled(s, Exec(Install(g, sh, num, state)))
    ensures var r, s' := s.recs[(g, sh)], Step(s, Exec(Install(g, sh, num, state))); var r' := s'.recs[(g, sh)];
      && (r' == r <==> num <= r.num)
      && (num > r.num ==> r'.own == Serving && r'.num == num)
      && (num > r.num ==> forall key :: key in r'.data <==> state.Some? && key in state.value)
      && (num > r.num && state.Some? ==> forall key :: key in r'.data ==> r'.data[key] == state.value[key])
      && s'.acks == s.acks + {InstallAck(g, sh, num)}
  {
  }

  /** What a delete does: nothing if its number is old; else the group no longer has the shard nor any of its keys. */
  lemma DeleteDoes(s: System, g: nat, sh: nat, num: nat, key: string)
    requires Enabled(s, Exec(Delete(g, sh, num)))
    ensures var r, s' := s.recs[(g, sh)], Step(s, Exec(Delete(g, sh, num))); var r' := s'.recs[(g, sh)];
      && (num < r.num ==> r' == r)
      && (num >= r.num ==> r'.own == NotOwned && r'.num == num && key !in r'.data)
      && s'.acks == s.acks + {DeleteAck(g, sh, num)}
  {
  }

  /** In every orderly run what a freeze takes from the serving group is, key by key, what the accepted puts make. */
  lemma FreezeHandsOut(s: System, g: nat, sh: nat, num: nat, key: string)
    requires Reachable(s) && sh < s.n && Enabled(s, Exec(Freeze(g, sh, num)))
    requires s.recs[(g, sh)].own == Serving && num >= s.recs[(g, sh)].num
    ensures FreezeAck(g, sh, num, Some(s.recs[(g, sh)].data)) in Step(s, Exec(Freeze(g, sh, num))).acks
    ensures |s.accepted| == s.n && ReadsFrom(s.accepted[sh], key, DoGet(s.recs[(g, sh)].data, key))
  {
    hide Reachable, Replay, ReadsFrom;
    FreezeDoes(s, g, sh, num);
    ServingAnswers(s, g, sh, key, "", 0);
  }

  /** Once every claimed configuration is published, no group but a shard's owner has anything to do with it. */
  lemma PublishedMoved(s: System, g: nat, sh: nat)
    requires Reachable(s) && sh < s.n && (g, sh) in s.recs && (s.pending.Some? ==> s.pending.value == s.visible)
    ensures |s.visible.shards| == s.n && (s.recs[(g, sh)].own != NotOwned ==> g == s.visible.shards[sh])
  {
    hide Replay;
    ReachableInv(s);
    var p := |s.cfgs| - 1;
    assert Where(s.cfgs, s.recs, Replay(s.accepted[sh]), sh);
    assert p > 0 ==> DoneAt(s.cfgs, s.recs, p, sh);
    assert At(s.recs, g, sh) == s.recs[(g, sh)];
  }

  /** Configuration numbers are agreed on: claimed configurations are numbered consecutively, so each number
      has one content; the published ones are the claimed ones, in order, all but at most the last;
      and the two keys hold the last published and the last claimed one. */
  lemma NumbersAgreed(s: System)
    requires Reachable(s)
    ensures |s.cfgs| > 0 && forall i :: 0 <= i < |s.cfgs| ==> s.cfgs[i].num == s.cfgs[0].num + i
    ensures 0 < |s.shown| <= |s.cfgs| <= |s.shown| + 1 && s.shown == s.cfgs[..|s.shown|]
    ensures s.visible == s.shown[|s.shown| - 1]
    ensures s.pending == if |s.cfgs| == 1 then None else Some(s.cfgs[|s.cfgs| - 1])
    ensures s.pending.Some? ==> s.visible.num <= s.pending.value.num <= s.visible.num + 1
    ensures forall cfg, ver :: (cfg, ver) in s.won ==> cfg in s.cfgs
  {
    ReachableInv(s);
    hide Fenced, Kept;
    forall cfg, ver | (cfg, ver) in s.won ensures cfg in s.cfgs { assert Claimed(s, cfg); }
  }

  /** claimPendingConfig's read settles it exactly when the pending configuration is its own, or another newer than the
      one it started from; otherwise it puts its own over the version it read. */
  lemma ClaimSettles(s: System, c: nat)
    requires Enabled(s, ReadPending(c))
    ensures var prev, new_, s' := s.ctls[c].prev, s.ctls[c].new_, Step(s, ReadPending(c));
      && s' == s.(ctls := s'.ctls, claims := s'.claims) && s'.ctls == s.ctls[c := s'.ctls[c]]
      && (s'.ctls[c].Moving? <==> s.pending == Some(new_))
      && (s'.ctls[c].Moving? ==> s'.ctls[c] == Moving(prev, new_, 0, Freezing))
      && (s'.ctls[c] == Idle <==> s.pending.Some? && s.pending.value != new_ && s.pending.value.num > prev.num)
      && (if s'.ctls[c].Moving? || s'.ctls[c].Idle? then s'.claims == s.claims
          else s'.ctls[c] == ClaimPut(prev, new_, s.pver) && s'.claims == s.claims + {(new_, s.pver)})
  {
  }

  /** A controller whose claim took effect goes on to move the shards as long as its configuration is the pending one,
      whether it gets the answer to its put or has to read the key again. */
  lemma ClaimGoesOn(s: System, c: nat)
    requires c < |s.ctls| && s.ctls[c].ClaimPut? && (s.ctls[c].new_, s.ctls[c].version) in s.won
    requires s.pending == Some(s.ctls[c].new_)
    ensures var on := s.(ctls := s.ctls[c := Moving(s.ctls[c].prev, s.ctls[c].new_, 0, Freezing)]);
      && Enabled(s, ClaimOk(c)) && Step(s, ClaimOk(c)) == on
      && Enabled(s, ClaimAgain(c)) && Enabled(Step(s, ClaimAgain(c)), ReadPending(c))
      && Step(Step(s, ClaimAgain(c)), ReadPending(c)) == on
  {
    ClaimSettles(Step(s, ClaimAgain(c)), c);
    var s' := Step(Step(s, ClaimAgain(c)), ReadPending(c));
    assert s'.ctls == s.ctls[c := Moving(s.ctls[c].prev, s.ctls[c].new_, 0, Freezing)];
  }

  /** A controller that cannot tell whether its publication took effect reads the key again: it is done exactly when a
      configuration that new is visible, and otherwise publishes over the version it read. */
  lemma PostSettles(s: System, c: nat)
    requires c < |s.ctls| && s.ctls[c].PostPut?
    ensures Enabled(s, PostAgain(c)) && Enabled(Step(s, PostAgain(c)), ReadVisible(c))
    ensures var new_, s' := s.ctls[c].new_, Step(Step(s, PostAgain(c)), ReadVisible(c));
      && s' == s.(ctls := s.ctls[c := s'.ctls[c]], posts := s'.posts)
      && (s'.ctls[c] == Idle <==> s.visible.num >= new_.num)
      && (s.visible.num < new_.num ==> s'.ctls[c] == PostPut(new_, s.vver) && (new_, s.vver) in s'.posts)
      && s'.posts <= s.posts + {(new_, s.vver)} && s.posts <= s'.posts
  {
  }

  /** A recovery that read adjacent numbers can work from the owners it read. */
  lemma AdjacentIsOrderly(s: System, c: nat)
    requires Reachable(s) && c < |s.ctls| && s.ctls[c].Recovering?
    requires s.pending.Some? && s.pending.value.num == s.ctls[c].current.num + 1
    ensures Recoverable(s, s.ctls[c].current)
  {
    ReachableInv(s);
    hide Fenced, Kept;
    assert CtlOk(s, s.ctls[c]);
  }

  /** The three together, as a property of a state. */
  ghost predicate SafeShard(s: System, sh: nat)
    requires |s.accepted| == s.n && sh < s.n
  {
    && (forall g: nat, h: nat :: At(s.recs, g, sh).own == Serving && At(s.recs, h, sh).own == Serving ==> g == h)
    && (forall g: nat :: At(s.recs, g, sh).own == Serving ==> At(s.recs, g, sh).data == Replay(s.accepted[sh]))
    && (exists g: nat :: At(s.recs, g, sh).own != NotOwned && At(s.recs, g, sh).data == Replay(s.accepted[sh]))
    && ((s.pending.Some? ==> s.pending.value == s.visible) ==>
          forall g: nat :: At(s.recs, g, sh).own != NotOwned ==> sh < |s.visible.shards| && g == s.visible.shards[sh])
  }

  ghost predicate Safe(s: System) {
    |s.accepted| == s.n && forall sh: nat :: sh < s.n ==> SafeShard(s, sh)
  }

  lemma AlwaysSafe(s: System)
    requires Reachable(s)
    ensures Safe(s)
  {
    ReachableInv(s);
    hide Reachable, Inv, Replay, Succeeds;
    KeptLength(s);
    forall sh: nat | sh < s.n ensures SafeShard(s, sh) { ShardSafe(s, sh); }
  }

  lemma KeptLength(s: System)
    requires Inv(s)
    ensures |s.accepted| == s.n
  {
  }

  lemma ShardSafe(s: System, sh: nat)
    requires Reachable(s) && |s.accepted| == s.n && sh < s.n
    ensures SafeShard(s, sh)
  {
    hide Reachable, Replay, Succeeds;
    forall g: nat, h: nat | At(s.recs, g, sh).own == Serving && At(s.recs, h, sh).own == Serving ensures g == h {
      SingleWriter(s, g, h, sh);
    }
    forall g: nat | At(s.recs, g, sh).own == Serving ensures At(s.recs, g, sh).data == Replay(s.accepted[sh]) {
      SingleWriter(s, g, g, sh);
    }
    var g := NothingLost(s, sh);
    assert At(s.recs, g, sh).own != NotOwned && At(s.recs, g, sh).data == Replay(s.accepted[sh]);
    if s.pending.Some? ==> s.pending.value == s.visible {
      forall g: nat | At(s.recs, g, sh).own != NotOwned ensures sh < |s.visible.shards| && g == s.visible.shards[sh] {
        PublishedMoved(s, g, sh);
      }
    }
  }
}
