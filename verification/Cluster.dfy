/** A cluster of replicas over a network that may lose, delay, reorder and repeat messages.
    The network is the set of everything ever sent. */
module Cluster {
  import opened Options
  import opened RaftTypes
  import opened RaftNode
  import Kv
  import Rsm

  datatype Msg =
    | VoteReq(to: nat, va: VoteArgs)
    | VoteRep(from: nat, va: VoteArgs, vr: VoteReply)
    | AppReq(to: nat, aa: AppendArgs)
    | AppRep(from: nat, aa: AppendArgs, ar: AppendReply)
    | SnapReq(to: nat, sa: SnapArgs)
    | SnapRep(from: nat, sa: SnapArgs, replyTerm: nat)

  /** What an observer of the whole run sees. */
  datatype Event =
    | Crowned(term: nat, peer: nat)            // peer became leader of term
    | Delivered(peer: nat, msg: ApplyMsg)      // peer put msg on its apply channel
    | Proposed(op: Op, index: nat, term: nat)  // a leader put op at index of its log
    | Answered(peer: nat, life: nat, id: nat, op: Op, index: nat, reply: Kv.Reply) // Submit of op returned OK

  /** One server: its Raft peer, its RSM, and the apply channel between them. */
  datatype Server = Server(node: Node, rsm: Rsm.Replica, applyCh: seq<ApplyMsg>)

  datatype Cluster = Cluster(servers: seq<Server>, net: set<Msg>, trace: seq<Event>, panicked: bool)

  datatype Action =
    | Timeout(p: nat)
    | AskVote(p: nat, i: nat)
    | OnVoteReq(p: nat, m: Msg)
    | OnVoteRep(p: nat, m: Msg)
    | Send(p: nat, i: nat)
    | OnAppReq(p: nat, m: Msg)
    | OnAppRep(p: nat, m: Msg)
    | OnSnapReq(p: nat, m: Msg)
    | OnSnapRep(p: nat, m: Msg)
    | Apply(p: nat)
    | Read(p: nat)
    | Compact(p: nat)
    | Submit(p: nat, req: Kv.Request)
    | SubmitReturns(p: nat, id: nat)
    | SubmitGivesUp(p: nat, id: nat)
    | Crash(p: nat)
    | CrashInside(p: nat, m: Msg)              // between the two saves of a handler

  function Boot(me: nat, n: nat, life: nat, disk: Disk): Server {
    Server(Make(me, n, disk), Rsm.Boot(me, life, disk.snapshot), [])
  }

  function Init(n: nat): Cluster {
    Cluster(seq(n, (p: nat) => Boot(p, n, 0, Disk(Blank, NoSnap))), {}, [], false)
  }

  /** The term a request carries to peer p. A handler that meets a later term saves it, and saves again if it
      then grants a vote, takes entries or installs a snapshot. */
  function TermFor(m: Msg, p: nat): nat {
    match m
    case VoteReq(to, a) => if to == p then a.term else 0
    case AppReq(to, a) => if to == p then a.term else 0
    case SnapReq(to, a) => if to == p then a.term else 0
    case _ => 0
  }

  predicate Enabled(c: Cluster, a: Action) {
    && !c.panicked
    && a.p < |c.servers|
    && var s := c.servers[a.p]; var n := s.node;
      match a
      case Timeout(_) => true
      case AskVote(_, i) => i < n.n && i != n.me && i !in n.asked && n.role == Candidate
      case OnVoteReq(p, m) => m in c.net && m.VoteReq? && m.to == p
      case OnVoteRep(p, m) =>
        && m in c.net && m.VoteRep? && m.va.candidate == p
        && (m.va.term == n.currentTerm ==> m.from in n.asked && m.from !in n.heard)
      case Send(_, i) => i < n.n && i != n.me && n.role == Leader
      case OnAppReq(p, m) => m in c.net && m.AppReq? && m.to == p
      case OnAppRep(p, m) => m in c.net && m.AppRep? && m.aa.leader == p
      case OnSnapReq(p, m) => m in c.net && m.SnapReq? && m.to == p
      case OnSnapRep(p, m) => m in c.net && m.SnapRep? && m.sa.leader == p
      case Apply(_) => CanDeliver(n)
      case Read(_) => s.applyCh != []
      case Compact(_) => s.rsm.lastApplied > 0
      case Submit(_, _) => true
      case SubmitReturns(_, id) => id in s.rsm.waiters && s.rsm.waiters[id].ret == None && s.rsm.waiters[id].ch != None
      case SubmitGivesUp(_, id) =>
        id in s.rsm.waiters && s.rsm.waiters[id].ret == None && Rsm.Lost(n, s.rsm.waiters[id])
      case Crash(_) => true
      case CrashInside(p, m) => m in c.net && TermFor(m, p) > n.currentTerm
  }

  /** Every index the action touches is in range; otherwise the server would stop. */
  predicate Indexable(c: Cluster, a: Action)
    requires Enabled(c, a)
  {
    var n := c.servers[a.p].node;
    && Ok(n)
    && (a.AskVote? || a.Send? ==> a.i < n.n)
    && (a.OnAppRep? || a.OnSnapRep? ==> a.m.from < n.n)
    && (a.Apply? ==> InRange(n))
    && (a.Compact? ==> n.lastApplied <= LastIndex(n))
  }

  function Put(c: Cluster, p: nat, s: Server, out: set<Msg>): Cluster
    requires p < |c.servers|
  {
    c.(servers := c.servers[p := s], net := c.net + out)
  }

  function Log(c: Cluster, e: Event): Cluster {
    c.(trace := c.trace + [e])
  }

  function Step(c: Cluster, a: Action): Cluster
    requires Enabled(c, a)
  {
    if !Indexable(c, a) then c.(panicked := true)
    else
      var p := a.p;
      var s := c.servers[p];
      var n := s.node;
      match a
      case Timeout(_) => Put(c, p, s.(node := StartElection(n)), {})
      case AskVote(_, i) => Put(c, p, s.(node := n.(asked := n.asked + {i})), {VoteReq(i, MakeVoteArgs(n))})
      case OnVoteReq(_, m) =>
        var (n', r) := RequestVote(n, m.va);
        Put(c, p, s.(node := n'), {VoteRep(p, m.va, r)})
      case OnVoteRep(_, m) =>
        var n' := OnVoteReply(n, m.va.term, m.from, m.vr);
        var c' := Put(c, p, s.(node := n'), {});
        if n.role != Leader && n'.role == Leader then Log(c', Crowned(n'.currentTerm, p)) else c'
      case Send(_, i) =>
        (match Replicate(n, i)
         case Nothing => c
         case SendAppend(aa) => Put(c, p, s, {AppReq(i, aa)})
         case SendSnap(sa) => Put(c, p, s, {SnapReq(i, sa)}))
      case OnAppReq(_, m) =>
        var (n', r) := AppendEntries(n, m.aa);
        Put(c, p, s.(node := n'), {AppRep(p, m.aa, r)})
      case OnAppRep(_, m) => Put(c, p, s.(node := OnAppendReply(n, m.from, m.aa, m.ar)), {})
      case OnSnapReq(_, m) =>
        var (n', t) := InstallSnapshot(n, m.sa);
        Put(c, p, s.(node := n'), {SnapRep(p, m.sa, t)})
      case OnSnapRep(_, m) => Put(c, p, s.(node := OnSnapReply(n, m.from, m.sa, m.replyTerm)), {})
      case Apply(_) =>
        var (n', msg) := Deliver(n);
        Log(Put(c, p, s.(node := n', applyCh := s.applyCh + [msg]), {}), Delivered(p, msg))
      case Read(_) => Put(c, p, s.(rsm := Rsm.Read(s.rsm, s.applyCh[0]), applyCh := s.applyCh[1..]), {})
      case Compact(_) => Put(c, p, s.(node := Snapshot(n, s.rsm.lastApplied, Rsm.Encode(s.rsm))), {})
      case Submit(_, req) =>
        var (r', n') := Rsm.Submit(s.rsm, n, req);
        var c' := Put(c, p, s.(rsm := r', node := n'), {});
        if n.role != Leader then c'
        else Log(c', Proposed(Op(s.rsm.me, r'.nextId, s.rsm.life, req), LastIndex(n) + 1, n.currentTerm))
      case SubmitReturns(_, id) =>
        var w := s.rsm.waiters[id];
        var c' := Put(c, p, s.(rsm := Rsm.Return(s.rsm, id)), {});
        if w.ch.value.Answer? then Log(c', Answered(p, s.rsm.life, id, w.op, w.index, w.ch.value.reply)) else c'
      case SubmitGivesUp(_, id) => Put(c, p, s.(rsm := Rsm.GiveUp(s.rsm, id)), {})
      case Crash(_) => Put(c, p, Boot(n.me, n.n, s.rsm.life + 1, n.disk), {})
      case CrashInside(_, m) =>
        Put(c, p, Boot(n.me, n.n, s.rsm.life + 1, ToFollower(n, TermFor(m, p)).disk), {})
  }

  /** Reachable by some sequence of actions. */
  ghost predicate Reaches(c: Cluster, acts: seq<Action>, c': Cluster)
    decreases |acts|
  {
    if acts == [] then c' == c
    else Enabled(c, acts[0]) && Reaches(Step(c, acts[0]), acts[1..], c')
  }
}
