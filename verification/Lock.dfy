/** The lock built from conditional puts: any number of clients over one key of a key/value server.
    Each attempt of a Put may be lost, or carried out at any later time, but at most once. */
module Lock {
  import opened Options
  import opened Kv
  import Clerk

  /** Where a client is in Acquire and Release. */
  datatype Pc =
    | Idle
    | Reading(got: Option<Reply>)                                  // Acquire's first Get
    | Claiming(version: nat, sent: nat, answer: Option<Err>)       // Acquire's Put, sent so many times
    | Checking(got: Option<Reply>)                                 // Acquire's Get after ErrMaybe
    | Holding(version: nat)                                        // Acquire has returned
    | Freeing(version: nat, sent: nat, answer: Option<Err>)        // Release's Put
    | FreeChecking(got: Option<Reply>)                             // Release's Get

  datatype Client = Client(id: string, pc: Pc, call: nat)          // call: number of its latest Put

  datatype Attempt = Attempt(client: nat, call: nat, no: nat, value: string, version: nat)

  /** hist records the value the key had at each version, "" while it was missing. */
  datatype System = System(name: string, kv: Store, clients: seq<Client>, inflight: set<Attempt>, hist: seq<string>)

  datatype Action =
    | Acquire(c: nat)
    | Release(c: nat)
    | ServeGet(c: nat)         // the server answers the client's Get
    | Resend(c: nat)           // no reply to the latest attempt
    | Carry(a: Attempt)        // the server carries an attempt out
    | Lose(a: Attempt)
    | Return(c: nat)           // the reply the client waits for arrives

  function Init(name: string, ids: seq<string>): System {
    System(name, map[], seq(|ids|, i requires 0 <= i < |ids| => Client(ids[i], Idle, 0)), {}, [""])
  }

  function Set(s: System, c: nat, pc: Pc): System
    requires c < |s.clients|
  {
    s.(clients := s.clients[c := s.clients[c].(pc := pc)])
  }

  /** Begin a new Put call with its first attempt. */
  function Begin(s: System, c: nat, pc: Pc, value: string, version: nat): System
    requires c < |s.clients|
  {
    var cl := s.clients[c];
    s.(clients := s.clients[c := cl.(pc := pc, call := cl.call + 1)],
       inflight := s.inflight + {Attempt(c, cl.call + 1, 0, value, version)})
  }

  function ValueOf(cl: Client): string {
    if cl.pc.Claiming? then cl.id else ""
  }

  predicate Putting(pc: Pc) { pc.Claiming? || pc.Freeing? }

  predicate Getting(pc: Pc) { pc.Reading? || pc.Checking? || pc.FreeChecking? }

  predicate Enabled(s: System, act: Action) {
    match act
    case Acquire(c) => c < |s.clients| && s.clients[c].pc == Idle
    case Release(c) => c < |s.clients| && s.clients[c].pc.Holding?
    case ServeGet(c) => c < |s.clients| && Getting(s.clients[c].pc)
    case Resend(c) => c < |s.clients| && Putting(s.clients[c].pc)
    case Carry(a) => a in s.inflight && a.client < |s.clients|
    case Lose(a) => a in s.inflight
    case Return(c) =>
      && c < |s.clients|
      && var pc := s.clients[c].pc;
        (Getting(pc) && pc.got.Some? && pc.got.value.GetReply?) || (Putting(pc) && pc.answer.Some?)
  }

  function Step(s: System, act: Action): System
    requires Enabled(s, act)
  {
    match act
    case Acquire(c) => Set(s, c, Reading(None))
    case Release(c) =>
      var v := s.clients[c].pc.version;
      Begin(s, c, Freeing(v, 1, None), "", v)
    case ServeGet(c) => Set(s, c, s.clients[c].pc.(got := Some(DoGet(s.kv, s.name))))
    case Resend(c) =>
      var cl := s.clients[c];
      Set(s, c, cl.pc.(sent := cl.pc.sent + 1, answer := None))
        .(inflight := s.inflight + {Attempt(c, cl.call, cl.pc.sent, ValueOf(cl), cl.pc.version)})
    case Carry(a) =>
      var (kv', err) := DoPut(s.kv, s.name, a.value, a.version);
      var cl := s.clients[a.client];
      var s1 := s.(kv := kv', inflight := s.inflight - {a}, hist := if err == OK then s.hist + [a.value] else s.hist);
      if Putting(cl.pc) && a.call == cl.call && a.no + 1 == cl.pc.sent
      then Set(s1, a.client, cl.pc.(answer := Some(err)))
      else s1
    case Lose(a) => s.(inflight := s.inflight - {a})
    case Return(c) => Resume(s, c)
  }

  /** What a clerk call returned. */
  datatype Answer = Got(reply: Reply) | Told(err: Err)

  /** The answer is to the call the client has made. */
  predicate Fits(pc: Pc, ans: Answer) {
    (Getting(pc) && ans.Got? && ans.reply.GetReply?) || (Putting(pc) && ans.Told?)
  }

  /** What Acquire and Release do with the answer to a call; in a Claiming or Freeing result the next Put begins. */
  function Heard(pc: Pc, id: string, ans: Answer): Pc
    requires Fits(pc, ans)
  {
    match pc
    case Reading(_) =>
      var r := ans.reply;
      if r.err == ErrNoKey then Claiming(0, 1, None)
      else if r.err != OK || (r.value != "" && r.value != id) then Reading(None)
      else Claiming(r.version, 1, None)
    case Claiming(v, _, _) =>
      (match ans.err
       case OK => Holding(v + 1)
       case ErrMaybe => Checking(None)
       case _ => Reading(None))
    case Checking(_) =>
      var r := ans.reply;
      if r.err == OK && r.value == id then Holding(r.version) else Reading(None)
    case Freeing(_, _, _) =>
      if ans.err == ErrMaybe || ans.err == ErrVersion then FreeChecking(None) else Idle
    case FreeChecking(_) =>
      var r := ans.reply;
      if r.err != OK || r.value != id then Idle else Freeing(r.version, 1, None)
  }

  /** The reply the client waits for, as its clerk hands it on. */
  function Heeded(pc: Pc): Answer
    requires (Getting(pc) && pc.got.Some?) || (Putting(pc) && pc.answer.Some?)
  {
    if Getting(pc) then Got(pc.got.value) else Told(Clerk.Verdict(pc.answer.value, pc.sent > 1))
  }

  function Resume(s: System, c: nat): System
    requires Enabled(s, Return(c))
  {
    var cl := s.clients[c];
    var pc := Heard(cl.pc, cl.id, Heeded(cl.pc));
    if Putting(pc) then Begin(s, c, pc, if pc.Claiming? then cl.id else "", pc.version) else Set(s, c, pc)
  }

  ghost predicate Reaches(s: System, acts: seq<Action>, s': System)
    decreases |acts|
  {
    if acts == [] then s' == s
    else Enabled(s, acts[0]) && Reaches(Step(s, acts[0]), acts[1..], s')
  }

  // ----- the invariant -----

  /** The stored entry is the last one of the history. */
  ghost predicate Tracks(s: System) {
    && |s.hist| > 0 && s.hist[0] == ""
    && VersionOf(s.kv, s.name) == |s.hist| - 1
    && (s.name in s.kv ==> |s.hist| > 1 && s.kv[s.name].value == s.hist[|s.hist| - 1])
  }

  ghost predicate Distinct(cs: seq<Client>) {
    && (forall i :: 0 <= i < |cs| ==> cs[i].id != "")
    && (forall i, j :: 0 <= i < j < |cs| ==> cs[i].id != cs[j].id)
  }

  /** A client only ever tries to claim a free key, or one it holds, and to free one it holds; once its
      call is over the version it named has been passed. */
  ghost predicate AttemptOk(cl: Client, hist: seq<string>, a: Attempt) {
    && a.call <= cl.call && a.version < |hist|
    && ((a.value == cl.id && hist[a.version] in {"", cl.id}) || (a.value == "" && hist[a.version] == cl.id))
    && (if Putting(cl.pc) && a.call == cl.call
        then a.value == ValueOf(cl) && a.version == cl.pc.version && a.no < cl.pc.sent
        else a.version < |hist| - 1)
  }

  /** What was read, while the client has no Put under way: only others can have changed the key since. */
  ghost predicate SeenOk(cl: Client, hist: seq<string>, got: Option<Reply>)
    requires |hist| > 0
  {
    got.Some? ==>
      && got.value.GetReply? && got.value.version < |hist| && hist[got.value.version] == got.value.value
      && (got.value.err == OK || (got.value.err == ErrNoKey && got.value.value == ""))
      && (got.value.value == cl.id ==> got.value.version == |hist| - 1)
      && (got.value.value != cl.id ==> hist[|hist| - 1] != cl.id)
  }

  ghost predicate ClientOk(cl: Client, hist: seq<string>)
    requires |hist| > 0
  {
    var last := |hist| - 1;
    match cl.pc
    case Idle => hist[last] != cl.id
    case Reading(got) => SeenOk(cl, hist, got)
    case Checking(got) => SeenOk(cl, hist, got)
    case FreeChecking(got) => SeenOk(cl, hist, got)
    case Holding(v) => v == last && hist[v] == cl.id
    case Claiming(v, sent, answer) =>
      && sent > 0 && v <= last && hist[v] in {"", cl.id}
      && (answer == Some(OK) ==> last == v + 1 && hist[last] == cl.id)
      && (answer.Some? && answer.value != OK ==> answer.value == ErrVersion && v < last)
    case Freeing(v, sent, answer) =>
      && sent > 0 && v <= last && hist[v] == cl.id
      && (answer == Some(OK) ==> v < last && hist[last] != cl.id)
      && (answer.Some? && answer.value != OK ==> answer.value == ErrVersion && v < last)
  }

  ghost predicate Inv(s: System) {
    && Tracks(s) && Distinct(s.clients)
    && (forall c :: 0 <= c < |s.clients| ==> ClientOk(s.clients[c], s.hist))
    && (forall a :: a in s.inflight ==> a.client < |s.clients| && AttemptOk(s.clients[a.client], s.hist, a))
  }

  // ----- steps that only move one client -----

  lemma SetKeeps(s: System, c: nat, pc: Pc)
    requires Inv(s) && c < |s.clients| && ClientOk(s.clients[c].(pc := pc), s.hist)
    requires forall a :: a in s.inflight && a.client == c ==> AttemptOk(s.clients[c].(pc := pc), s.hist, a)
    ensures Inv(Set(s, c, pc))
  {
    hide AttemptOk, ClientOk;
  }

  lemma BeginKeeps(s: System, c: nat, pc: Pc, value: string, version: nat)
    requires Inv(s) && c < |s.clients| && !Putting(s.clients[c].pc) && Putting(pc)
    requires pc.version == version && pc.sent == 1 && pc.answer == None
    requires value == ValueOf(s.clients[c].(pc := pc)) && version < |s.hist|
    requires s.hist[version] == s.clients[c].id || (pc.Claiming? && s.hist[version] == "")
    ensures Inv(Begin(s, c, pc, value, version))
  {
    var s' := Begin(s, c, pc, value, version);
    forall a | a in s'.inflight
      ensures a.client < |s'.clients| && AttemptOk(s'.clients[a.client], s'.hist, a)
    {
      if a in s.inflight { assert AttemptOk(s.clients[a.client], s.hist, a); }
    }
  }

  // ----- an attempt is carried out -----

  /** Only the client that the value at the last version lets in can move the key. */
  lemma OthersKept(s: System, a: Attempt, c: nat)
    requires Inv(s) && Enabled(s, Carry(a)) && c < |s.clients| && c != a.client
    ensures ClientOk(s.clients[c], Step(s, Carry(a)).hist)
  {
    assert ClientOk(s.clients[c], s.hist) && AttemptOk(s.clients[a.client], s.hist, a);
    assert s.clients[c].id != s.clients[a.client].id;
  }

  lemma OwnerKept(s: System, a: Attempt)
    requires Inv(s) && Enabled(s, Carry(a))
    ensures var s' := Step(s, Carry(a)); ClientOk(s'.clients[a.client], s'.hist)
  {
    assert ClientOk(s.clients[a.client], s.hist) && AttemptOk(s.clients[a.client], s.hist, a);
  }

  lemma CarryKeeps(s: System, a: Attempt)
    requires Inv(s) && Enabled(s, Carry(a))
    ensures Inv(Step(s, Carry(a)))
  {
    hide ClientOk, AttemptOk;
    var s' := Step(s, Carry(a));
    OwnerKept(s, a);
    forall c: nat | c < |s'.clients|
      ensures ClientOk(s'.clients[c], s'.hist)
    {
      if c != a.client { OthersKept(s, a, c); }
    }
    forall b | b in s'.inflight
      ensures b.client < |s'.clients| && AttemptOk(s'.clients[b.client], s'.hist, b)
    {
      AttemptKept(s, a, b);
    }
  }

  lemma AttemptKept(s: System, a: Attempt, b: Attempt)
    requires Inv(s) && Enabled(s, Carry(a)) && b in s.inflight
    ensures var s' := Step(s, Carry(a)); b.client < |s'.clients| && AttemptOk(s'.clients[b.client], s'.hist, b)
  {
    hide ClientOk;
    assert AttemptOk(s.clients[b.client], s.hist, b);
  }

  // ----- a reply arrives -----

  lemma ReturnKeeps(s: System, c: nat)
    requires Inv(s) && Enabled(s, Return(c))
    ensures Inv(Step(s, Return(c)))
  {
    var cl, last := s.clients[c], |s.hist| - 1;
    assert ClientOk(cl, s.hist);
    if Putting(cl.pc) {
      SettledKeeps(s, c);
    } else {
      var r := cl.pc.got.value;
      match cl.pc
      case Reading(_) =>
        if r.value == "" || r.value == cl.id {
          BeginKeeps(s, c, Claiming(r.version, 1, None), cl.id, r.version);
        } else {
          IdleMove(s, c, Reading(None));
        }
      case Checking(_) =>
        IdleMove(s, c, if r.err == OK && r.value == cl.id then Holding(r.version) else Reading(None));
      case FreeChecking(_) =>
        if r.err == OK && r.value == cl.id {
          BeginKeeps(s, c, Freeing(r.version, 1, None), "", r.version);
        } else {
          IdleMove(s, c, Idle);
        }
    }
  }

  /** A move between states that have no Put under way. */
  lemma IdleMove(s: System, c: nat, pc: Pc)
    requires Inv(s) && c < |s.clients| && !Putting(s.clients[c].pc) && !Putting(pc)
    requires ClientOk(s.clients[c].(pc := pc), s.hist)
    ensures Inv(Set(s, c, pc))
  {
    forall a | a in s.inflight && a.client == c
      ensures AttemptOk(s.clients[c].(pc := pc), s.hist, a)
    {
      assert AttemptOk(s.clients[c], s.hist, a);
    }
    SetKeeps(s, c, pc);
  }

  /** A Put call ends with its version passed, so what is left of it in the network is harmless. */
  lemma SettledKeeps(s: System, c: nat)
    requires Inv(s) && Enabled(s, Return(c)) && Putting(s.clients[c].pc)
    ensures Inv(Step(s, Return(c)))
  {
    var cl := s.clients[c];
    assert ClientOk(cl, s.hist);
    var pc' := Step(s, Return(c)).clients[c].pc;
    forall a | a in s.inflight && a.client == c
      ensures AttemptOk(cl.(pc := pc'), s.hist, a)
    {
      assert AttemptOk(cl, s.hist, a);
    }
    SetKeeps(s, c, pc');
  }

  lemma StepKeeps(s: System, act: Action)
    requires Inv(s) && Enabled(s, act)
    ensures Inv(Step(s, act))
  {
    match act
    case Acquire(c) => IdleMove(s, c, Reading(None));
    case Release(c) =>
      assert ClientOk(s.clients[c], s.hist);
      BeginKeeps(s, c, Freeing(s.clients[c].pc.version, 1, None), "", s.clients[c].pc.version);
    case ServeGet(c) => IdleMove(s, c, s.clients[c].pc.(got := Some(DoGet(s.kv, s.name))));
    case Resend(c) => ResendKeeps(s, c);
    case Carry(a) => CarryKeeps(s, a);
    case Lose(a) =>
    case Return(c) => ReturnKeeps(s, c);
  }

  lemma ResendKeeps(s: System, c: nat)
    requires Inv(s) && Enabled(s, Resend(c))
    ensures Inv(Step(s, Resend(c)))
  {
    var s' := Step(s, Resend(c));
    assert ClientOk(s.clients[c], s.hist);
    forall a | a in s'.inflight
      ensures a.client < |s'.clients| && AttemptOk(s'.clients[a.client], s'.hist, a)
    {
      if a in s.inflight { assert AttemptOk(s.clients[a.client], s.hist, a); }
    }
  }

  lemma {:induction false} RunsKeep(s: System, acts: seq<Action>, s': System)
    requires Inv(s) && Reaches(s, acts, s')
    ensures Inv(s')
    decreases |acts|
  {
    hide Inv;
    if acts == [] {
    } else {
      StepKeeps(s, acts[0]);
      RunsKeep(Step(s, acts[0]), acts[1..], s');
    }
  }

  // ----- mutual exclusion -----

  /** In every run at most one client is between a returned Acquire and its Release; the key names it, with
      the version it remembered; and the key never names a client that has released. */
  lemma MutualExclusion(name: string, ids: seq<string>, acts: seq<Action>, s: System, c: nat, d: nat)
    requires Reaches(Init(name, ids), acts, s) && c < |s.clients| && d < |s.clients|
    requires (forall i :: 0 <= i < |ids| ==> ids[i] != "") && (forall i, j :: 0 <= i < j < |ids| ==> ids[i] != ids[j])
    ensures s.clients[c].pc.Holding? && s.clients[d].pc.Holding? ==> c == d
    ensures s.clients[c].pc.Holding? ==> name in s.kv && s.kv[name] == KvEntry(s.clients[c].id, s.clients[c].pc.version)
    ensures s.clients[c].pc == Idle && name in s.kv ==> s.kv[name].value != s.clients[c].id
  {
    RunsKeep(Init(name, ids), acts, s);
    SameName(Init(name, ids), acts, s);
    assert ClientOk(s.clients[c], s.hist) && ClientOk(s.clients[d], s.hist);
  }

  lemma {:induction false} SameName(s: System, acts: seq<Action>, s': System)
    requires Reaches(s, acts, s')
    ensures s'.name == s.name
    decreases |acts|
  {
    if acts == [] {
    } else {
      SameName(Step(s, acts[0]), acts[1..], s');
    }
  }

  lemma {:induction false} ReachesNext(s0: System, acts: seq<Action>, s: System, act: Action)
    requires Reaches(s0, acts, s) && Enabled(s, act)
    ensures Reaches(s0, acts + [act], Step(s, act))
    decreases |acts|
  {
    if acts == [] {
      assert Reaches(Step(s, act), [], Step(s, act));
      assert [act][1..] == [];
    } else {
      ReachesNext(Step(s0, acts[0]), acts[1..], s, act);
      assert (acts + [act])[1..] == acts[1..] + [act];
    }
  }

  /** An undisturbed Acquire by c, when the key is free or carries c's own id. */
  lemma Takes(s0: System, acts: seq<Action>, s: System, c: nat) returns (acts': seq<Action>, s': System)
    requires Reaches(s0, acts, s) && c < |s.clients| && s.clients[c].pc == Idle
    requires s.name in s.kv ==> s.kv[s.name].value in {"", s.clients[c].id}
    ensures Reaches(s0, acts', s') && s'.name == s.name
    ensures s'.name in s'.kv && s'.kv[s.name].value == s.clients[c].id
    ensures |s'.clients| == |s.clients| && s'.clients == s.clients[c := s'.clients[c]] && s'.clients[c].pc.Holding?
  {
    ReachesNext(s0, acts, s, Acquire(c));
    var s1 := Step(s, Acquire(c));
    ReachesNext(s0, acts + [Acquire(c)], s1, ServeGet(c));
    var s2 := Step(s1, ServeGet(c));
    ReachesNext(s0, acts + [Acquire(c)] + [ServeGet(c)], s2, Return(c));
    var s3 := Step(s2, Return(c));
    var a := Attempt(c, s3.clients[c].call, 0, s3.clients[c].id, VersionOf(s.kv, s.name));
    ReachesNext(s0, acts + [Acquire(c)] + [ServeGet(c)] + [Return(c)], s3, Carry(a));
    var s4 := Step(s3, Carry(a));
    ReachesNext(s0, acts + [Acquire(c)] + [ServeGet(c)] + [Return(c)] + [Carry(a)], s4, Return(c));
    acts' := acts + [Acquire(c)] + [ServeGet(c)] + [Return(c)] + [Carry(a)] + [Return(c)];
    s' := Step(s4, Return(c));
  }

  /** Distinct ids are needed: two clients that drew the same id can both hold the lock. */
  lemma SharedIdBreaksExclusion(name: string, id: string) returns (acts: seq<Action>, s: System)
    ensures Reaches(Init(name, [id, id]), acts, s)
    ensures |s.clients| == 2 && s.clients[0].pc.Holding? && s.clients[1].pc.Holding?
  {
    var s0 := Init(name, [id, id]);
    var acts1, s1 := Takes(s0, [], s0, 0);
    acts, s := Takes(s0, acts1, s1, 1);
  }

  // ----- one client as an object, with nobody else at work -----

  // ----- one client's loops -----

  /** Where a client is after the answers to its calls, in turn. */
  function Play(pc: Pc, id: string, answers: seq<Answer>): Pc
    decreases |answers|
  {
    if answers == [] || !Fits(pc, answers[0]) then pc else Play(Heard(pc, id, answers[0]), id, answers[1..])
  }

  /** Every answer is to the call made at that point, up to where no call is made. */
  predicate InTurn(pc: Pc, id: string, answers: seq<Answer>)
    decreases |answers|
  {
    if answers == [] || (!Getting(pc) && !Putting(pc)) then true
    else Fits(pc, answers[0]) && InTurn(Heard(pc, id, answers[0]), id, answers[1..])
  }

  /** The next answer in turn. */
  lemma NextAnswer(pc: Pc, id: string, answers: seq<Answer>, k: nat)
    requires k < |answers| && (Getting(pc) || Putting(pc)) && InTurn(pc, id, answers[k..])
    ensures Fits(pc, answers[k]) && InTurn(Heard(pc, id, answers[k]), id, answers[k + 1..])
    ensures Play(pc, id, answers[k..]) == Play(Heard(pc, id, answers[k]), id, answers[k + 1..])
  {
    assert answers[k..][0] == answers[k] && answers[k..][1..] == answers[k + 1..];
  }

  /** The lock object of one client. The calls it makes through its clerk may take any time and be answered in any way
      that servers, other clients and lost messages allow: the answers are given from outside. */
  class Handle {
    const name: string
    const id: string
    var version: nat

    constructor (name: string, id: string)
      ensures this.name == name && this.id == id && version == 0
    {
      this.name, this.id, version := name, id, 0;
    }

    /** Acquire's loop, as far as the answers go. */
    method Acquire(answers: seq<Answer>) returns (held: bool)
      requires InTurn(Reading(None), id, answers)
      modifies this
      ensures var pc := Play(Reading(None), id, answers);
        held == pc.Holding? && version == if held then pc.version else old(version)
    {
      var k := 0;
      while k < |answers|
        invariant k <= |answers| && version == old(version) && InTurn(Reading(None), id, answers[k..])
        invariant Play(Reading(None), id, answers) == Play(Reading(None), id, answers[k..])
      {
        NextAnswer(Reading(None), id, answers, k);
        var got := answers[k].reply;
        k := k + 1;
        var v, ver := got.value, got.version;
        if got.err == ErrNoKey {
          v, ver := "", 0;
        } else if got.err != OK {
          continue;
        }
        if v != "" && v != id {
          continue;
        }
        if k == |answers| {
          return false;
        }
        NextAnswer(Claiming(ver, 1, None), id, answers, k);
        var putErr := answers[k].err;
        k := k + 1;
        if putErr == OK {
          version := ver + 1;
          return true;
        }
        if putErr == ErrMaybe {
          if k == |answers| {
            return false;
          }
          NextAnswer(Checking(None), id, answers, k);
          var cur := answers[k].reply;
          k := k + 1;
          if cur.err == OK && cur.value == id {
            version := cur.version;
            return true;
          }
        }
      }
      held := false;
    }

    /** Release's loop, as far as the answers go. */
    method Release(answers: seq<Answer>) returns (done: bool)
      requires id != "" && InTurn(Freeing(version, 1, None), id, answers)
      ensures done == Play(Freeing(version, 1, None), id, answers).Idle?
    {
      var v, k := version, 0;
      while k < |answers|
        invariant k <= |answers| && InTurn(Freeing(v, 1, None), id, answers[k..])
        invariant Play(Freeing(version, 1, None), id, answers) == Play(Freeing(v, 1, None), id, answers[k..])
      {
        NextAnswer(Freeing(v, 1, None), id, answers, k);
        var putErr := answers[k].err;
        k := k + 1;
        if putErr == OK {
          return true;
        } else if putErr == ErrMaybe {
          if k == |answers| {
            return false;
          }
          NextAnswer(FreeChecking(None), id, answers, k);
          var cur := answers[k].reply;
          k := k + 1;
          if cur.err != OK || cur.value == "" || cur.value != id {
            return true;
          }
          v := cur.version;
        } else if putErr == ErrVersion {
          if k == |answers| {
            return false;
          }
          NextAnswer(FreeChecking(None), id, answers, k);
          var cur := answers[k].reply;
          k := k + 1;
          if cur.err != OK || cur.value != id {
            return true;
          }
          v := cur.version;
        } else {
          return true;
        }
      }
      done := false;
    }
  }

  /** With the server to itself one pass of Acquire takes the lock iff the key is missing, free or its own, and the
      key then names it at the version it remembers. */
  lemma AcquireAlone(kv: Store, name: string, id: string)
    requires Versioned(kv)
    ensures var r := DoGet(kv, name); var (kv', err) := DoPut(kv, name, id, r.version);
      var pc := Play(Reading(None), id, [Got(r), Told(err)]);
      && (pc.Holding? <==> name !in kv || kv[name].value in {"", id})
      && (pc.Holding? ==> kv' == kv[name := KvEntry(id, pc.version)] && pc.version == VersionOf(kv, name) + 1)
  {
    var r := DoGet(kv, name);
    var (kv', err) := DoPut(kv, name, id, r.version);
    assert [Got(r), Told(err)] == [Got(r)] + ([Told(err)] + []);
    PlayNext(Reading(None), id, Got(r), [Told(err)] + []);
    var pc := Heard(Reading(None), id, Got(r));
    if Putting(pc) { PlayNext(pc, id, Told(err), []); }
  }

  /** When the put's answer was lost and only ErrMaybe is left, a look at the key decides: the client has the lock iff
      the key names it, at the key's version. Any other error sends it back to the start. */
  lemma AcquireUnsure(kv: Store, id: string, name: string, version: nat, err: Err)
    requires err != OK && id != ""
    ensures var r := DoGet(kv, name); var pc := Play(Claiming(version, 1, None), id, [Told(err), Got(r)]);
      && (err == ErrMaybe ==>
            pc == if name in kv && kv[name].value == id then Holding(kv[name].version) else Reading(None))
      && (err != ErrMaybe ==> Play(Claiming(version, 1, None), id, [Told(err)]) == Reading(None))
  {
    var r := DoGet(kv, name);
    assert [Told(err), Got(r)] == [Told(err)] + ([Got(r)] + []) && [Told(err)] == [Told(err)] + [];
    PlayNext(Claiming(version, 1, None), id, Told(err), [Got(r)] + []);
    PlayNext(Claiming(version, 1, None), id, Told(err), []);
    if err == ErrMaybe { PlayNext(Checking(None), id, Got(r), []); }
  }

  /** The same for Release: it returns iff the key does not name the client, and otherwise tries again at the version
      it found. After any other answer than ErrMaybe and ErrVersion it returns at once. */
  lemma ReleaseUnsure(kv: Store, id: string, name: string, version: nat, err: Err)
    requires id != ""
    ensures var r := DoGet(kv, name); var pc := Play(Freeing(version, 1, None), id, [Told(err), Got(r)]);
      if err == ErrMaybe || err == ErrVersion then
        pc == if name in kv && kv[name].value == id then Freeing(kv[name].version, 1, None) else Idle
      else pc == Idle
  {
    var r := DoGet(kv, name);
    assert [Told(err), Got(r)] == [Told(err)] + ([Got(r)] + []);
    PlayNext(Freeing(version, 1, None), id, Told(err), [Got(r)] + []);
    if err == ErrMaybe || err == ErrVersion { PlayNext(FreeChecking(None), id, Got(r), []); }
  }

  lemma PlayNext(pc: Pc, id: string, ans: Answer, rest: seq<Answer>)
    requires Fits(pc, ans)
    ensures Play(pc, id, [ans] + rest) == Play(Heard(pc, id, ans), id, rest)
  {
    assert ([ans] + rest)[1..] == rest;
  }

  /** With the server to itself Release returns within two Puts, whatever version it remembers, and the key no longer
      names this client. */
  lemma ReleaseAlone(kv: Store, name: string, id: string, version: nat)
    requires Versioned(kv) && id != ""
    ensures var (kv1, e1) := DoPut(kv, name, "", version); var r := DoGet(kv1, name);
      var (kv2, e2) := DoPut(kv1, name, "", r.version);
      var kv' := if e1 == ErrVersion && r.value == id then kv2 else kv1;
      && Play(Freeing(version, 1, None), id, [Told(e1), Got(r), Told(e2)]).Idle?
      && (name in kv' ==> kv'[name].value != id)
  {
    var (kv1, e1) := DoPut(kv, name, "", version);
    var r := DoGet(kv1, name);
    var (kv2, e2) := DoPut(kv1, name, "", r.version);
    assert [Told(e1), Got(r), Told(e2)] == [Told(e1)] + ([Got(r)] + ([Told(e2)] + []));
    var pc := Freeing(version, 1, None);
    PlayNext(pc, id, Told(e1), [Got(r)] + ([Told(e2)] + []));
    if e1 == ErrVersion {
      PlayNext(FreeChecking(None), id, Got(r), [Told(e2)] + []);
      if r.err == OK && r.value == id { PlayNext(Freeing(r.version, 1, None), id, Told(e2), []); }
    }
  }
}
