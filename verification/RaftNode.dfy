/** One Raft peer: what every RPC handler, reply handler and local event does to its state.
    `log[0]` is the entry at lastIncludedIndex, with its command dropped. */
module RaftNode {
  import opened RaftTypes
  import Kv
  import Sorting

  /** The bytes of an rsm snapshot. */
  datatype Snap = NoSnap | Snap(lastApplied: nat, state: Kv.Store)

  /** The bytes persist() encodes. */
  datatype RaftState = Blank | Saved(term: nat, votedFor: int, log: seq<Entry>, lii: nat, lit: nat)

  /** The two fields of a persister, always saved together. */
  datatype Disk = Disk(raft: RaftState, snapshot: Snap)

  datatype Pending = NoPending | Pending(index: nat, term: nat, data: Snap)

  datatype ApplyMsg =
    | CommandMsg(index: nat, cmd: Command)
    | SnapshotMsg(index: nat, term: nat, data: Snap)

  datatype Node = Node(
    me: nat,
    n: nat,                     // cluster size
    currentTerm: nat,
    votedFor: int,              // -1: none
    log: seq<Entry>,
    snapshot: Snap,
    lastIncludedIndex: nat,
    lastIncludedTerm: nat,
    role: Role,
    commitIndex: nat,
    lastApplied: nat,
    nextIndex: seq<nat>,
    matchIndex: seq<nat>,
    pending: Pending,
    votes: nat,                 // the counter shared by the goroutines of the current election
    asked: set<nat>,            // peers whose goroutine has sent its request
    heard: set<nat>,            // peers whose goroutine has consumed its reply
    granted: set<nat>,          // peers whose goroutine counted a vote
    disk: Disk)

  datatype VoteArgs = VoteArgs(term: nat, candidate: nat, lastLogIndex: nat, lastLogTerm: nat)
  datatype VoteReply = VoteReply(term: nat, granted: bool)
  datatype AppendArgs = AppendArgs(term: nat, leader: nat, prevLogIndex: nat, prevLogTerm: nat,
                                   entries: seq<Entry>, leaderCommit: nat)
  datatype AppendReply = AppendReply(term: nat, success: bool, xTerm: int, xIndex: nat, xLen: nat)
  datatype SnapArgs = SnapArgs(term: nat, leader: nat, lastIncludedIndex: nat, lastIncludedTerm: nat, data: Snap)

  /** What replicateOnce sends. */
  datatype Outgoing = Nothing | SendAppend(append: AppendArgs) | SendSnap(snap: SnapArgs)

  predicate Ok(n: Node) {
    && |n.log| > 0 && n.me < n.n
    && |n.nextIndex| == n.n && |n.matchIndex| == n.n
    && n.lastIncludedIndex <= n.commitIndex && n.lastApplied <= n.commitIndex
  }

  function LastIndex(n: Node): nat
    requires |n.log| > 0
  {
    n.lastIncludedIndex + |n.log| - 1
  }

  function EntryAt(n: Node, index: nat): Entry
    requires n.lastIncludedIndex <= index < n.lastIncludedIndex + |n.log|
  {
    n.log[index - n.lastIncludedIndex]
  }

  // ----- durable state -----

  function DiskOf(n: Node): Disk {
    Disk(Saved(n.currentTerm, n.votedFor, n.log, n.lastIncludedIndex, n.lastIncludedTerm), n.snapshot)
  }

  function Persist(n: Node): Node {
    n.(disk := DiskOf(n))
  }

  /** Make: a peer started over whatever its persister holds. */
  function Make(me: nat, n: nat, disk: Disk): Node {
    var zeros := seq(n, _ => 0);
    var blank := Node(me, n, 0, -1, [ZERO], disk.snapshot, 0, 0, Follower, 0, 0, zeros, zeros,
                      NoPending, 0, {}, {}, {}, disk);
    match disk.raft
    case Blank => blank
    case Saved(term, votedFor, log, lii, lit) =>
      blank.(currentTerm := term, votedFor := votedFor, log := log, lastIncludedIndex := lii,
             lastIncludedTerm := lit, commitIndex := lii, lastApplied := lii)
  }

  /** The persister holds the durable part of memory; a blank one stands for the initial values. */
  predicate Synced(n: Node) {
    || n.disk == DiskOf(n)
    || (n.disk == Disk(Blank, NoSnap) && DiskOf(n) == Disk(Saved(0, -1, [ZERO], 0, 0), NoSnap))
  }

  // ----- elections -----

  function ToFollower(n: Node, term: nat): Node {
    Persist(n.(currentTerm := term, role := Follower, votedFor := -1))
  }

  function StartElection(n: Node): Node {
    Persist(n.(currentTerm := n.currentTerm + 1, role := Candidate, votedFor := n.me,
               votes := 1, asked := {}, heard := {}, granted := {}))
  }

  function MakeVoteArgs(n: Node): VoteArgs
    requires |n.log| > 0
  {
    VoteArgs(n.currentTerm, n.me, LastIndex(n), EntryAt(n, LastIndex(n)).term)
  }

  predicate ArgsUpToDate(n: Node, a: VoteArgs)
    requires |n.log| > 0
  {
    var lastTerm := EntryAt(n, LastIndex(n)).term;
    a.lastLogTerm > lastTerm || (a.lastLogTerm == lastTerm && a.lastLogIndex >= LastIndex(n))
  }

  function RequestVote(n: Node, a: VoteArgs): (Node, VoteReply)
    requires |n.log| > 0
  {
    var n1 := if a.term > n.currentTerm then ToFollower(n, a.term) else n;
    var refuse := VoteReply(n1.currentTerm, false);
    if a.term < n1.currentTerm then (n1, refuse)
    else if !ArgsUpToDate(n1, a) then (n1, refuse)
    else if n1.votedFor == -1 || n1.votedFor == a.candidate then
      (Persist(n1.(votedFor := a.candidate)), VoteReply(n1.currentTerm, true))
    else (n1, refuse)
  }

  /** The goroutine of peer i in the election of `term` consumes its reply. */
  function OnVoteReply(n: Node, term: nat, i: nat, r: VoteReply): Node
    requires Ok(n)
  {
    var n1 := if term == n.currentTerm then n.(heard := n.heard + {i}) else n;
    if r.term > n.currentTerm then ToFollower(n1, r.term)
    else if n.currentTerm != term || n.role != Candidate then n1
    else if !r.granted then n1
    else
      var n2 := n1.(votes := n1.votes + 1, granted := n1.granted + {i});
      if n2.votes > n2.n / 2 then BecomeLeader(n2, term) else n2
  }

  function BecomeLeader(n: Node, term: nat): Node
    requires Ok(n)
  {
    if n.role == Leader || n.currentTerm != term then n
    else
      n.(role := Leader,
         nextIndex := seq(n.n, _ => LastIndex(n) + 1),
         matchIndex := seq(n.n, i => if i == n.me then LastIndex(n) else 0))
  }

  // ----- AppendEntries -----

  /** The first index of the run of equal terms that ends at i. */
  function FirstOfTerm(log: seq<Entry>, i: nat): (j: nat)
    requires i < |log|
    ensures j <= i && (forall k :: j <= k <= i ==> log[k].term == log[i].term)
    ensures j > 0 ==> log[j - 1].term != log[i].term
  {
    if i > 0 && log[i - 1].term == log[i].term then FirstOfTerm(log, i - 1) else i
  }

  /** Case 3: skip entries already present, then cut at the first conflict and append the rest. */
  function Merge(log: seq<Entry>, off: nat, es: seq<Entry>): seq<Entry>
    requires off <= |log|
    decreases |es|
  {
    if es == [] then log
    else if off == |log| then Merge(log + [es[0]], off + 1, es[1..])
    else if log[off].term != es[0].term then log[..off] + es
    else Merge(log, off + 1, es[1..])
  }

  function AppendEntries(n: Node, a: AppendArgs): (Node, AppendReply)
    requires |n.log| > 0
  {
    if a.term < n.currentTerm then (n, AppendReply(n.currentTerm, false, 0, 0, 0))
    else
      var n1 := if a.term > n.currentTerm then ToFollower(n, a.term) else n.(role := Follower);
      var lii, last := n1.lastIncludedIndex, LastIndex(n1);
      if a.prevLogIndex < lii then
        (n1, AppendReply(n1.currentTerm, false, -1, 0, lii + 1))
      else if a.prevLogIndex > last then
        (n1, AppendReply(n1.currentTerm, false, -1, 0, last + 1))
      else if EntryAt(n1, a.prevLogIndex).term != a.prevLogTerm then
        (n1, AppendReply(n1.currentTerm, false, EntryAt(n1, a.prevLogIndex).term,
                         lii + FirstOfTerm(n1.log, a.prevLogIndex - lii), last + 1))
      else
        var n2 := n1.(log := Merge(n1.log, a.prevLogIndex + 1 - lii, a.entries));
        var n3 := if a.entries != [] then Persist(n2) else n2;
        MergeGrows(n1.log, a.prevLogIndex + 1 - lii, a.entries);
        var n4 := if a.leaderCommit > n3.commitIndex
                  then n3.(commitIndex := Min(a.leaderCommit, LastIndex(n3))) else n3;
        (n4, AppendReply(n4.currentTerm, true, 0, 0, 0))
  }

  function Min(a: nat, b: nat): nat { if a < b then a else b }

  lemma {:induction false} MergeGrows(log: seq<Entry>, off: nat, es: seq<Entry>)
    requires off <= |log|
    ensures |Merge(log, off, es)| >= off + |es|
    decreases |es|
  {
    if es == [] {
    } else if off == |log| {
      MergeGrows(log + [es[0]], off + 1, es[1..]);
    } else if log[off].term == es[0].term {
      MergeGrows(log, off + 1, es[1..]);
    }
  }

  // ----- snapshots -----

  /** The log cut so that its entry at `off` becomes the boundary. */
  function Cut(log: seq<Entry>, off: nat): seq<Entry>
    requires off < |log|
  {
    log[off..][0 := Entry(log[off].term, NoCommand)]
  }

  function InstallSnapshot(n: Node, a: SnapArgs): (Node, nat)
    requires |n.log| > 0
  {
    if a.term < n.currentTerm then (n, n.currentTerm)
    else
      var n1 := if a.term > n.currentTerm then ToFollower(n, a.term) else n.(role := Follower);
      if a.lastIncludedIndex <= n1.lastIncludedIndex then (n1, n1.currentTerm)
      else
        var log' :=
          if a.lastIncludedIndex <= LastIndex(n1) && EntryAt(n1, a.lastIncludedIndex).term == a.lastIncludedTerm
          then Cut(n1.log, a.lastIncludedIndex - n1.lastIncludedIndex)
          else [Entry(a.lastIncludedTerm, NoCommand)];
        var n2 := Persist(n1.(log := log', lastIncludedIndex := a.lastIncludedIndex,
                              lastIncludedTerm := a.lastIncludedTerm, snapshot := a.data,
                              commitIndex := if n1.commitIndex < a.lastIncludedIndex then a.lastIncludedIndex
                                             else n1.commitIndex));
        var n3 := if a.lastIncludedIndex > n2.lastApplied
                  then n2.(pending := Pending(a.lastIncludedIndex, a.lastIncludedTerm, a.data)) else n2;
        (n3, n3.currentTerm)
  }

  /** The service has a snapshot covering everything up to index. */
  function Snapshot(n: Node, index: nat, data: Snap): Node
    requires |n.log| > 0
    requires n.lastApplied <= LastIndex(n)
  {
    if index <= n.lastIncludedIndex || index > n.lastApplied then n
    else
      Persist(n.(log := Cut(n.log, index - n.lastIncludedIndex), lastIncludedIndex := index,
                 lastIncludedTerm := EntryAt(n, index).term, snapshot := data))
  }

  // ----- the leader -----

  function Replicate(n: Node, peer: nat): Outgoing
    requires Ok(n) && peer < n.n
  {
    if n.role != Leader then Nothing
    else if n.nextIndex[peer] <= n.lastIncludedIndex then
      SendSnap(SnapArgs(n.currentTerm, n.me, n.lastIncludedIndex, n.lastIncludedTerm, n.snapshot))
    else
      var prev := n.nextIndex[peer] - 1;
      if prev > LastIndex(n) then Nothing
      else
        SendAppend(AppendArgs(n.currentTerm, n.me, prev, EntryAt(n, prev).term,
                              n.log[prev + 1 - n.lastIncludedIndex..], n.commitIndex))
  }

  function OnSnapReply(n: Node, peer: nat, a: SnapArgs, replyTerm: nat): Node
    requires Ok(n) && peer < n.n
  {
    if n.role != Leader || n.currentTerm != a.term then n
    else if replyTerm > n.currentTerm then ToFollower(n, replyTerm)
    else
      n.(matchIndex := n.matchIndex[peer := Sorting.Max(n.matchIndex[peer], a.lastIncludedIndex)],
         nextIndex := n.nextIndex[peer := Sorting.Max(n.nextIndex[peer], a.lastIncludedIndex + 1)])
  }

  function OnAppendReply(n: Node, peer: nat, a: AppendArgs, r: AppendReply): Node
    requires Ok(n) && peer < n.n
  {
    if n.role != Leader || n.currentTerm != a.term then n
    else if r.term > n.currentTerm then ToFollower(n, r.term)
    else if r.success then
      var m := a.prevLogIndex + |a.entries|;
      AdvanceCommitIndex(
        n.(matchIndex := n.matchIndex[peer := Sorting.Max(n.matchIndex[peer], m)],
           nextIndex := n.nextIndex[peer := Sorting.Max(n.nextIndex[peer], m + 1)]))
    else if n.nextIndex[peer] <= a.prevLogIndex + 1 then
      n.(nextIndex := n.nextIndex[peer := BackupNextIndex(n, peer, r)])
    else n
  }

  /** The last index at or before i whose entry has term t, or 0. */
  function LastOfTerm(log: seq<Entry>, t: int, i: nat): (j: nat)
    requires i < |log|
    ensures j <= i && (forall k :: j < k <= i ==> log[k].term != t)
    ensures j > 0 ==> log[j].term == t
  {
    if i > 0 && log[i].term != t then LastOfTerm(log, t, i - 1) else i
  }

  function BackupNextIndex(n: Node, peer: nat, r: AppendReply): nat
    requires Ok(n) && peer < n.n
  {
    var hint: nat :=
      if r.xTerm == -1 then r.xLen
      else
        var i := LastOfTerm(n.log, r.xTerm, |n.log| - 1);
        if n.log[i].term == r.xTerm then n.lastIncludedIndex + i + 1 else r.xIndex;
    var lowered: int := if hint >= n.nextIndex[peer] then n.nextIndex[peer] as int - 1 else hint;
    var minNext := Sorting.Max(1, n.lastIncludedIndex);
    if lowered < minNext then minNext else lowered
  }

  function AdvanceCommitIndex(n: Node): Node
    requires Ok(n)
  {
    if n.role != Leader then n
    else
      var N := Sorting.Sort(n.matchIndex)[n.n / 2];
      if N > n.commitIndex && N <= LastIndex(n) && EntryAt(n, N).term == n.currentTerm
      then n.(commitIndex := N)
      else n
  }

  /** Start: a leader appends the command; any other peer refuses. */
  function Start(n: Node, cmd: Command): Node
    requires Ok(n)
  {
    if n.role != Leader then n
    else
      var n1 := n.(log := n.log + [Entry(n.currentTerm, cmd)]);
      Persist(n1.(nextIndex := n1.nextIndex[n1.me := LastIndex(n1) + 1],
                  matchIndex := n1.matchIndex[n1.me := LastIndex(n1)]))
  }

  // ----- the applier -----

  predicate CanDeliver(n: Node) {
    n.pending != NoPending || n.lastApplied < n.commitIndex
  }

  /** The next index to deliver is one the compacted log still holds as a command. */
  predicate InRange(n: Node) {
    n.pending != NoPending || n.lastIncludedIndex <= n.lastApplied < n.lastIncludedIndex + |n.log| - 1
  }

  function Deliver(n: Node): (Node, ApplyMsg)
    requires CanDeliver(n) && InRange(n)
  {
    match n.pending
    case Pending(index, term, data) =>
      (n.(lastApplied := index, pending := NoPending), SnapshotMsg(index, term, data))
    case NoPending =>
      var idx := n.lastApplied + 1;
      (n.(lastApplied := idx), CommandMsg(idx, EntryAt(n, idx).cmd))
  }
}
