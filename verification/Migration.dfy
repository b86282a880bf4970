/** Shard controllers over replica groups: claiming a configuration, moving its shards, publishing it.
    Any number of controllers run, give up, crash and recover; requests and replies may be delayed,
    reordered and repeated. cfgs, shown and accepted record the run. */
module Migration {
  import opened Options
  import opened Kv
  import opened ShardServer

  datatype Config = Config(num: nat, shards: seq<nat>)

  datatype PutOp = PutOp(key: string, value: string, version: nat)

  datatype Req =
    | Freeze(g: nat, sh: nat, num: nat)
    | Install(g: nat, sh: nat, num: nat, state: Option<Store>)
    | Delete(g: nat, sh: nat, num: nat)

  datatype Ack =
    | FreezeAck(g: nat, sh: nat, num: nat, state: Option<Store>)
    | InstallAck(g: nat, sh: nat, num: nat)
    | DeleteAck(g: nat, sh: nat, num: nat)

  /** The three calls completeChange makes for a shard. */
  datatype Stage = Freezing | Installing(state: Option<Store>) | Deleting

  datatype Pc =
    | Idle
    | Asked(new_: Config)                                     // ChangeConfigTo, before Query
    | Claiming(prev: Config, new_: Config)                    // claimPendingConfig, before its Get
    | ClaimPut(prev: Config, new_: Config, version: nat)      // claimPendingConfig, awaiting its Put
    | Moving(prev: Config, new_: Config, sh: nat, stage: Stage) // completeChange
    | Posting(new_: Config)                                   // postConfig, before its Get
    | PostPut(new_: Config, version: nat)                     // postConfig, awaiting its Put
    | Recovering(current: Config)                             // InitController, between its two reads

  datatype System = System(
    n: nat,                                // number of shards
    gids: set<nat>,
    recs: map<(nat, nat), ShardRec>,       // (group, shard)
    visible: Config, vver: nat,            // the published configuration and its key's version
    pending: Option<Config>, pver: nat,    // the claimed configuration and its key's version
    ctls: seq<Pc>,
    reqs: set<Req>, acks: set<Ack>,        // everything ever sent
    claims: set<(Config, nat)>,            // puts on the pending key ever sent
    won: set<(Config, nat)>,               // those that took effect
    posts: set<(Config, nat)>,             // puts on the visible key ever sent
    cfgs: seq<Config>,                     // the initial configuration, then every claimed one
    shown: seq<Config>,                    // every published one
    accepted: seq<seq<PutOp>>)             // per shard, every client Put answered OK

  datatype Action =
    | Ask(c: nat, new_: Config)
    | Query(c: nat)
    | ReadPending(c: nat)
    | ExecClaim(cfg: Config, version: nat)
    | ClaimOk(c: nat)
    | ClaimAgain(c: nat)
    | SkipShard(c: nat)
    | SendMove(c: nat)
    | MoveReply(c: nat, ack: Ack)
    | MovesDone(c: nat)
    | ReadVisible(c: nat)
    | ExecPost(cfg: Config, version: nat)
    | PostAgain(c: nat)
    | Recover(c: nat)
    | RecoverPending(c: nat)
    | GiveUp(c: nat)                       // returns, gives up or crashes
    | Exec(req: Req)
    | ClientPut(g: nat, sh: nat, put: PutOp)

  function Init(n: nat, gids: set<nat>, num: nat, controllers: nat): System {
    var first := Config(num, seq(n, _ => GID1));
    System(n, gids, map g: nat, sh: nat | g in gids && sh < n :: (g, sh) := InitRec(g),
           first, 1, None, 0, seq(controllers, _ => Idle), {}, {}, {}, {}, {}, [first], [first], seq(n, _ => []))
  }

  // ----- the steps -----

  function Goto(s: System, c: nat, pc: Pc): System
    requires c < |s.ctls|
  {
    s.(ctls := s.ctls[c := pc])
  }

  /** The request a controller in completeChange makes next. */
  function MoveReq(pc: Pc): Req
    requires pc.Moving? && pc.sh < |pc.prev.shards| && pc.sh < |pc.new_.shards|
  {
    match pc.stage
    case Freezing => Freeze(pc.prev.shards[pc.sh], pc.sh, pc.new_.num)
    case Installing(state) => Install(pc.new_.shards[pc.sh], pc.sh, pc.new_.num, state)
    case Deleting => Delete(pc.prev.shards[pc.sh], pc.sh, pc.new_.num)
  }

  /** ack answers req. */
  predicate Answers(req: Req, ack: Ack) {
    && req.g == ack.g && req.sh == ack.sh && req.num == ack.num
    && match req
      case Freeze(_, _, _) => ack.FreezeAck?
      case Install(_, _, _, _) => ack.InstallAck?
      case Delete(_, _, _) => ack.DeleteAck?
  }

  /** completeChange has something to do for the shard it is at. */
  predicate Moves(pc: Pc)
    requires pc.Moving? && pc.sh < |pc.prev.shards| && pc.sh < |pc.new_.shards|
  {
    pc.prev.shards[pc.sh] != pc.new_.shards[pc.sh]
  }

  predicate AtShard(s: System, pc: Pc) {
    pc.Moving? && pc.sh < s.n && |pc.prev.shards| == s.n && |pc.new_.shards| == s.n
  }

  predicate Enabled(s: System, a: Action) {
    match a
    case ExecClaim(cfg, ver) => (cfg, ver) in s.claims
    case ExecPost(cfg, ver) => (cfg, ver) in s.posts
    case Exec(req) => req in s.reqs && (req.g, req.sh) in s.recs
    case ClientPut(g, sh, _) => (g, sh) in s.recs && sh < |s.accepted|
    case Ask(c, _) => c < |s.ctls| && s.ctls[c] == Idle
    case Query(c) => c < |s.ctls| && s.ctls[c].Asked?
    case ReadPending(c) => c < |s.ctls| && s.ctls[c].Claiming?
    case ClaimOk(c) => c < |s.ctls| && s.ctls[c].ClaimPut? && (s.ctls[c].new_, s.ctls[c].version) in s.won
    case ClaimAgain(c) => c < |s.ctls| && s.ctls[c].ClaimPut?
    case SkipShard(c) => c < |s.ctls| && AtShard(s, s.ctls[c]) && !Moves(s.ctls[c])
    case SendMove(c) => c < |s.ctls| && AtShard(s, s.ctls[c]) && Moves(s.ctls[c])
    case MoveReply(c, ack) =>
      && c < |s.ctls| && AtShard(s, s.ctls[c]) && Moves(s.ctls[c])
      && ack in s.acks && MoveReq(s.ctls[c]) in s.reqs && Answers(MoveReq(s.ctls[c]), ack)
    case MovesDone(c) => c < |s.ctls| && s.ctls[c].Moving? && s.ctls[c].sh == s.n
    case ReadVisible(c) => c < |s.ctls| && s.ctls[c].Posting?
    case PostAgain(c) => c < |s.ctls| && s.ctls[c].PostPut?
    case Recover(c) => c < |s.ctls| && s.ctls[c] == Idle
    case RecoverPending(c) => c < |s.ctls| && s.ctls[c].Recovering?
    case GiveUp(c) => c < |s.ctls|
  }

  function Step(s: System, a: Action): System
    requires Enabled(s, a)
  {
    match a
    case Ask(c, new_) => Goto(s, c, Asked(new_))
    case Query(c) =>
      var new_ := s.ctls[c].new_;
      Goto(s, c, if new_.num <= s.visible.num then Idle else Claiming(s.visible, new_))
    case ReadPending(c) => Claim(s, c)
    case ExecClaim(cfg, ver) =>
      if ver != s.pver then s
      else s.(pending := Some(cfg), pver := s.pver + 1, won := s.won + {(cfg, ver)}, cfgs := s.cfgs + [cfg])
    case ClaimOk(c) => Goto(s, c, Moving(s.ctls[c].prev, s.ctls[c].new_, 0, Freezing))
    case ClaimAgain(c) => Goto(s, c, Claiming(s.ctls[c].prev, s.ctls[c].new_))
    case SkipShard(c) => Goto(s, c, s.ctls[c].(sh := s.ctls[c].sh + 1, stage := Freezing))
    case SendMove(c) => s.(reqs := s.reqs + {MoveReq(s.ctls[c])})
    case MoveReply(c, ack) =>
      var pc := s.ctls[c];
      Goto(s, c, match pc.stage
                 case Freezing => pc.(stage := Installing(ack.state))
                 case Installing(_) => pc.(stage := Deleting)
                 case Deleting => pc.(sh := pc.sh + 1, stage := Freezing))
    case MovesDone(c) => Goto(s, c, Posting(s.ctls[c].new_))
    case ReadVisible(c) =>
      var new_ := s.ctls[c].new_;
      if s.visible.num >= new_.num then Goto(s, c, Idle)
      else Goto(s, c, PostPut(new_, s.vver)).(posts := s.posts + {(new_, s.vver)})
    case ExecPost(cfg, ver) =>
      if ver != s.vver then s
      else s.(visible := cfg, vver := s.vver + 1, shown := s.shown + [cfg])
    case PostAgain(c) => Goto(s, c, Posting(s.ctls[c].new_))
    case Recover(c) => Goto(s, c, Recovering(s.visible))
    case RecoverPending(c) =>
      var current := s.ctls[c].current;
      Goto(s, c, if s.pending.Some? && s.pending.value.num > current.num
                 then Moving(current, s.pending.value, 0, Freezing) else Idle)
    case GiveUp(c) => Goto(s, c, Idle)
    case Exec(req) => Serve(s, req)
    case ClientPut(g, sh, put) =>
      var (r, err) := PutRec(s.recs[(g, sh)], put.key, put.value, put.version);
      s.(recs := s.recs[(g, sh) := r],
         accepted := if err == OK then s.accepted[sh := s.accepted[sh] + [put]] else s.accepted)
  }

  /** claimPendingConfig: one read of the pending key and what follows from it. */
  function Claim(s: System, c: nat): System
    requires c < |s.ctls| && s.ctls[c].Claiming?
  {
    var prev, new_ := s.ctls[c].prev, s.ctls[c].new_;
    if s.pending.Some? && s.pending.value == new_ then Goto(s, c, Moving(prev, new_, 0, Freezing))
    else if s.pending.Some? && s.pending.value.num > prev.num then Goto(s, c, Idle)
    else Goto(s, c, ClaimPut(prev, new_, s.pver)).(claims := s.claims + {(new_, s.pver)})
  }

  /** A group carries a migration request out. */
  function Serve(s: System, req: Req): System
    requires (req.g, req.sh) in s.recs
  {
    var at := (req.g, req.sh);
    match req
    case Freeze(g, sh, num) =>
      var (r, state) := FreezeRec(s.recs[at], num);
      s.(recs := s.recs[at := r], acks := s.acks + {FreezeAck(g, sh, num, state)})
    case Install(g, sh, num, state) =>
      s.(recs := s.recs[at := InstallRec(s.recs[at], num, state)], acks := s.acks + {InstallAck(g, sh, num)})
    case Delete(g, sh, num) =>
      s.(recs := s.recs[at := DeleteRec(s.recs[at], num)], acks := s.acks + {DeleteAck(g, sh, num)})
  }

  /** Every shard is assigned to a group that exists. */
  predicate WellFormed(s: System, cfg: Config) {
    |cfg.shards| == s.n && forall sh :: 0 <= sh < s.n ==> cfg.shards[sh] in s.gids
  }

  // ----- looking things up -----

  ghost function At(recs: map<(nat, nat), ShardRec>, g: nat, sh: nat): ShardRec {
    if (g, sh) in recs then recs[(g, sh)] else ShardRec(map[], NotOwned, 0)
  }

  ghost function Owner(cfgs: seq<Config>, i: int, sh: nat): nat {
    if 0 <= i < |cfgs| && sh < |cfgs[i].shards| then cfgs[i].shards[sh] else 0
  }

  ghost function NumOf(cfgs: seq<Config>, i: int): nat {
    if 0 <= i < |cfgs| then cfgs[i].num else 0
  }

  // ----- how far the move of shard sh for cfgs[i] has got -----

  ghost predicate Moved(cfgs: seq<Config>, i: int, sh: nat) {
    0 < i < |cfgs| && Owner(cfgs, i - 1, sh) != Owner(cfgs, i, sh)
  }

  ghost predicate Arrived(cfgs: seq<Config>, recs: map<(nat, nat), ShardRec>, i: int, sh: nat) {
    At(recs, Owner(cfgs, i, sh), sh).num >= NumOf(cfgs, i)
  }

  ghost predicate Left(r: ShardRec, num: nat) {
    r.num > num || (r.num == num && r.own == NotOwned)
  }

  ghost predicate DoneAt(cfgs: seq<Config>, recs: map<(nat, nat), ShardRec>, i: int, sh: nat) {
    Moved(cfgs, i, sh) ==> Arrived(cfgs, recs, i, sh) && Left(At(recs, Owner(cfgs, i - 1, sh), sh), NumOf(cfgs, i))
  }

  /** The shard had to move, has arrived, and its old owner has given it up. */
  ghost predicate Finished(cfgs: seq<Config>, recs: map<(nat, nat), ShardRec>, i: int, sh: nat) {
    Moved(cfgs, i, sh) && DoneAt(cfgs, recs, i, sh)
  }

  // ----- orderly runs -----

  /** What a recovering controller needs of the owners it has read: for every shard, the owner before the pending
      configuration, unless that configuration's move of the shard is finished. */
  ghost predicate Recoverable(s: System, current: Config) {
    && |current.shards| == s.n
    && forall sh: nat :: sh < s.n ==>
      current.shards[sh] == Owner(s.cfgs, s.pver - 1, sh) || Finished(s.cfgs, s.recs, s.pver, sh)
  }

  /** RecoverPending(c) will go on with the pending configuration. */
  predicate Resumes(s: System, c: nat) {
    && c < |s.ctls| && s.ctls[c].Recovering?
    && s.pending.Some? && s.pending.value.num > s.ctls[c].current.num
  }

  /** What is asked of whoever drives the controllers: requests number the successor of a configuration
      that was visible, and a recovery has read owners it can work from. */
  ghost predicate Orderly(s: System, a: Action) {
    match a
    case Ask(_, new_) => new_.num <= s.visible.num + 1 && WellFormed(s, new_)
    case RecoverPending(c) => Resumes(s, c) ==> Recoverable(s, s.ctls[c].current)
    case _ => true
  }

  ghost predicate Reaches(s: System, acts: seq<Action>, s': System)
    decreases |acts|
  {
    if acts == [] then s' == s
    else Enabled(s, acts[0]) && Orderly(s, acts[0]) && Reaches(Step(s, acts[0]), acts[1..], s')
  }

  // ----- replay of accepted puts -----

  ghost function Replay(puts: seq<PutOp>): Store {
    if puts == [] then map[]
    else
      var p := puts[|puts| - 1];
      DoPut(Replay(puts[..|puts| - 1]), p.key, p.value, p.version).0
  }
}
