/** The replicated-state-machine layer above one Raft peer: applied entries, waiters, snapshots. */
module Rsm {
  import opened Options
  import opened RaftTypes
  import Kv
  import R = RaftNode

  datatype Result = Answer(reply: Kv.Reply) | WrongLeader

  /** One Submit: where Start put its operation, what the reader sent it, what it returned. */
  datatype Waiter = Waiter(index: nat, term: nat, op: Op, ch: Option<Result>, ret: Option<Result>)

  datatype Replica = Replica(
    me: nat,
    life: nat,                    // which process lifetime this is
    nextId: nat,
    lastApplied: nat,
    state: Kv.Store,
    waiters: map<nat, Waiter>,    // every Submit of this lifetime that reached Start on a leader, by id
    pending: map<nat, nat>)       // log index -> id of the waiter registered there

  function Restore(r: Replica, data: R.Snap): Replica {
    match data
    case NoSnap => r
    case Snap(last, state) =>
      r.(state := state, lastApplied := if last > r.lastApplied then last else r.lastApplied)
  }

  /** MakeRSM: restore the persisted snapshot before Raft starts. */
  function Boot(me: nat, life: nat, data: R.Snap): Replica {
    Restore(Replica(me, life, 0, 0, map[], map[], map[]), data)
  }

  /** The channel of a waiter holds one result; a later send is dropped. */
  function Send(r: Replica, id: nat, res: Result): Replica {
    if id in r.waiters && r.waiters[id].ch == None
    then r.(waiters := r.waiters[id := r.waiters[id].(ch := Some(res))])
    else r
  }

  /** Tell every waiter at or below the applied index that its entry was not seen here. */
  function Release(r: Replica): Replica {
    r.(pending := map i | i in r.pending && i > r.lastApplied :: r.pending[i],
       waiters := map id | id in r.waiters ::
         var w := r.waiters[id];
         if w.index <= r.lastApplied && w.index in r.pending && r.pending[w.index] == id && w.ch == None
         then w.(ch := Some(WrongLeader)) else w)
  }

  /** One iteration of the reader loop. */
  function Read(r: Replica, msg: R.ApplyMsg): Replica {
    match msg
    case SnapshotMsg(index, _, data) =>
      Release(if index > r.lastApplied then Restore(r, data) else r)
    case CommandMsg(_, NoCommand) => r
    case CommandMsg(index, Run(op)) =>
      if index <= r.lastApplied then r
      else
        var (state', reply) := Kv.Apply(r.state, op.req);
        var r1 := r.(state := state', lastApplied := index);
        if index !in r1.pending then r1
        else
          var id := r1.pending[index];
          var r2 := r1.(pending := r1.pending - {index});
          Send(r2, id, if id == op.id && op.me == r.me then Answer(reply) else WrongLeader)
  }

  /** Submit up to its registration: the operation goes to Start, and on a leader a waiter is left behind. */
  function Submit(r: Replica, n: R.Node, req: Kv.Request): (Replica, R.Node)
    requires R.Ok(n)
  {
    var op := Op(r.me, r.nextId + 1, r.life, req);
    var r1 := r.(nextId := op.id);
    var n1 := R.Start(n, Run(op));
    if n.role != Leader then (r1, n1)
    else
      var index := R.LastIndex(n) + 1;
      (r1.(waiters := r1.waiters[op.id := Waiter(index, n.currentTerm, op, None, None)],
           pending := r1.pending[index := op.id]), n1)
  }

  /** Submit returns what the reader sent. */
  function Return(r: Replica, id: nat): Replica
    requires id in r.waiters
  {
    r.(waiters := r.waiters[id := r.waiters[id].(ret := r.waiters[id].ch)])
  }

  /** Submit's exit test on its timer: this peer no longer leads the term of the waiter. */
  predicate Lost(n: R.Node, w: Waiter) {
    n.role != Leader || n.currentTerm != w.term
  }

  function GiveUp(r: Replica, id: nat): Replica
    requires id in r.waiters
  {
    var w := r.waiters[id];
    r.(waiters := r.waiters[id := w.(ret := Some(WrongLeader))],
       pending := if w.index in r.pending && r.pending[w.index] == id then r.pending - {w.index} else r.pending)
  }

  function Encode(r: Replica): R.Snap {
    R.Snap.Snap(r.lastApplied, r.state)
  }
}
