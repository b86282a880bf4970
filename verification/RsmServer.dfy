/** The RSM as an object updated in place, over its own Raft peer. */
module RsmServer {
  import opened Options
  import opened RaftTypes
  import opened Rsm
  import Kv
  import R = RaftNode
  import RaftPeer

  class RSM {
    const rf: RaftPeer.Raft
    const me: nat
    const life: nat
    var nextId: nat
    var lastApplied: nat
    var state: Kv.Store
    var waiters: map<nat, Waiter>
    var pending: map<nat, nat>

    ghost function State(): Replica
      reads this
    {
      Replica(me, life, nextId, lastApplied, state, waiters, pending)
    }

    ghost predicate Valid()
      reads this
    {
      Registered(State())
    }

    /** MakeRSM: the persisted snapshot is restored before the peer starts. */
    constructor (me: nat, life: nat, rf: RaftPeer.Raft, saved: R.Snap)
      ensures Valid() && this.rf == rf && State() == Boot(me, life, saved)
    {
      this.rf, this.me, this.life := rf, me, life;
      nextId, lastApplied, state, waiters, pending := 0, 0, map[], map[], map[];
      new;
      RestoreSnapshot(saved);
    }

    method RestoreSnapshot(data: R.Snap)
      modifies `state, `lastApplied
      ensures State() == Restore(old(State()), data)
    {
      match data {
        case NoSnap =>
        case Snap(last, saved) =>
          state := saved;
          if last > lastApplied {
            lastApplied := last;
          }
      }
    }

    /** A channel of capacity one: a send that finds it full is dropped. */
    method Notify(id: nat, res: Result)
      modifies `waiters
      ensures State() == Send(old(State()), id, res)
    {
      if id in waiters && waiters[id].ch == None {
        waiters := waiters[id := waiters[id].(ch := Some(res))];
      }
    }

    /** Wake every Submit the snapshot has passed. */
    method ReleasePassed()
      requires Valid()
      modifies `waiters, `pending
      ensures Valid() && State() == Release(old(State()))
    {
      ghost var r := State();
      var todo := pending.Keys;
      NoneTold(r);
      while todo != {}
        invariant todo <= r.pending.Keys && State() == Passed(r, todo)
        decreases |todo|
      {
        var idx :| idx in todo;
        PassOne(r, todo, idx);
        ReleaseOne(idx);
        todo := todo - {idx};
      }
      AllTold(r);
    }

    method ReleaseOne(idx: nat)
      requires idx in pending
      modifies `waiters, `pending
      ensures State() == Woken(old(State()), idx)
    {
      if idx <= lastApplied {
        var id := pending[idx];
        pending := pending - {idx};
        Notify(id, WrongLeader);
      }
    }

    /** One iteration of the reader loop. */
    method ReadOne(msg: R.ApplyMsg)
      requires Valid()
      modifies this
      ensures Valid() && State() == Read(old(State()), msg)
    {
      match msg {
        case SnapshotMsg(index, _, data) =>
          if index > lastApplied {
            RestoreSnapshot(data);
          }
          ReleasePassed();
        case CommandMsg(_, NoCommand) =>
        case CommandMsg(index, Run(op)) =>
          if index <= lastApplied {
            return;
          }
          var (state', reply) := Kv.Apply(state, op.req);
          state := state';
          lastApplied := index;
          if index in pending {
            var id := pending[index];
            pending := pending - {index};
            if id == op.id && op.me == me {
              Notify(id, Answer(reply));
            } else {
              Notify(id, WrongLeader);
            }
          }
      }
    }

    /** Submit up to its registration. */
    method Register(req: Kv.Request) returns (registered: bool)
      requires Valid() && R.Ok(rf.State())
      modifies this, rf, rf.persister
      ensures Valid() && (State(), rf.State()) == Submit(old(State()), old(rf.State()), req)
      ensures registered == (old(rf.role) == Leader)
    {
      nextId := nextId + 1;
      var op := Op(me, nextId, life, req);
      var index, term, isLeader := rf.Propose(Run(op));
      registered := isLeader;
      if isLeader {
        waiters := waiters[op.id := Waiter(index, term, op, None, None)];
        pending := pending[index := op.id];
      }
    }

    /** Submit's timer: leave when this peer no longer leads the waiter's term. */
    method CheckLost(id: nat) returns (lost: bool)
      requires Valid() && id in waiters
      modifies `waiters, `pending
      ensures Valid() && lost == Lost(rf.State(), old(waiters)[id])
      ensures State() == if lost then GiveUp(old(State()), id) else old(State())
    {
      var w := waiters[id];
      lost := rf.role != Leader || rf.currentTerm != w.term;
      if lost {
        if w.index in pending && pending[w.index] == id {
          pending := pending - {w.index};
        }
        waiters := waiters[id := w.(ret := Some(WrongLeader))];
      }
    }
  }

  /** Whoever is registered at an index is a Submit that Start put there, and ids are handed out upwards. */
  ghost predicate Registered(r: Replica) {
    && (forall id :: id in r.waiters ==> id <= r.nextId)
    && forall i :: i in r.pending ==> r.pending[i] in r.waiters && r.waiters[r.pending[i]].index == i
  }

  ghost function Woken(r: Replica, idx: nat): Replica
    requires idx in r.pending
  {
    if idx > r.lastApplied then r else Send(r.(pending := r.pending - {idx}), r.pending[idx], WrongLeader)
  }

  /** Every passed index outside `todo` has been dropped and its waiter told. */
  ghost function Passed(r: Replica, todo: set<nat>): Replica {
    r.(pending := map i | i in r.pending && (i in todo || i > r.lastApplied) :: r.pending[i],
       waiters := map id | id in r.waiters ::
         var w := r.waiters[id];
         if w.index <= r.lastApplied && w.index in r.pending && w.index !in todo
            && r.pending[w.index] == id && w.ch == None
         then w.(ch := Some(WrongLeader)) else w)
  }

  lemma NoneTold(r: Replica)
    ensures Passed(r, r.pending.Keys) == r
  {
    assert Passed(r, r.pending.Keys).pending == r.pending && Passed(r, r.pending.Keys).waiters == r.waiters;
  }

  lemma PassOne(r: Replica, todo: set<nat>, idx: nat)
    requires Registered(r) && idx in todo && todo <= r.pending.Keys
    ensures idx in Passed(r, todo).pending && Passed(r, todo - {idx}) == Woken(Passed(r, todo), idx)
  {
    var a, b := Passed(r, todo - {idx}), Woken(Passed(r, todo), idx);
    assert a.pending == b.pending;
    assert a.waiters == b.waiters;
  }

  lemma AllTold(r: Replica)
    requires Registered(r)
    ensures Passed(r, {}) == Release(r) && Registered(Release(r))
  {
    assert Passed(r, {}).pending == Release(r).pending && Passed(r, {}).waiters == Release(r).waiters;
  }
}
