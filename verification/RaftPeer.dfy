/** The Raft peer as an object updated in place. Each method leaves the state its RaftNode function describes. */
module RaftPeer {
  import opened RaftTypes
  import opened RaftNode
  import Sorting

  /** Stable storage: the Raft state and the snapshot, replaced together. */
  class Persister {
    var raftstate: RaftState
    var snapshot: Snap

    ghost function Contents(): Disk
      reads this
    {
      Disk(raftstate, snapshot)
    }

    constructor ()
      ensures Contents() == Disk(Blank, NoSnap)
    {
      raftstate, snapshot := Blank, NoSnap;
    }

    method Save(raftstate: RaftState, snapshot: Snap)
      modifies this
      ensures Contents() == Disk(raftstate, snapshot)
    {
      this.raftstate := raftstate;
      this.snapshot := snapshot;
    }
  }

  class Raft {
    const persister: Persister
    const me: nat
    const n: nat
    // persistent
    var currentTerm: nat
    var votedFor: int
    var log: seq<Entry>
    var snapshot: Snap
    var lastIncludedIndex: nat
    var lastIncludedTerm: nat
    // volatile
    var role: Role
    var commitIndex: nat
    var lastApplied: nat
    var nextIndex: seq<nat>
    var matchIndex: seq<nat>
    var pending: Pending
    // shared by the goroutines of the current election
    var votes: nat
    var asked: set<nat>
    var heard: set<nat>
    var granted: set<nat>

    ghost function State(): Node
      reads this, persister
    {
      Node(me, n, currentTerm, votedFor, log, snapshot, lastIncludedIndex, lastIncludedTerm, role, commitIndex,
           lastApplied, nextIndex, matchIndex, pending, votes, asked, heard, granted, persister.Contents())
    }

    /** A peer starts from what its persister holds. */
    constructor (n: nat, me: nat, persister: Persister)
      ensures this.persister == persister && State() == Make(me, n, persister.Contents())
    {
      this.persister, this.me, this.n := persister, me, n;
      currentTerm, votedFor, log := 0, -1, [ZERO];
      snapshot, lastIncludedIndex, lastIncludedTerm := persister.snapshot, 0, 0;
      role, commitIndex, lastApplied := Follower, 0, 0;
      nextIndex, matchIndex := seq(n, _ => 0), seq(n, _ => 0);
      pending, votes, asked, heard, granted := NoPending, 0, {}, {}, {};
      match persister.raftstate {
        case Blank =>
        case Saved(term, voted, entries, lii, lit) =>
          currentTerm, votedFor, log := term, voted, entries;
          lastIncludedIndex, lastIncludedTerm := lii, lit;
          commitIndex, lastApplied := lii, lii;
      }
    }

    method Save()
      modifies persister
      ensures State() == Persist(old(State()))
    {
      persister.Save(Saved(currentTerm, votedFor, log, lastIncludedIndex, lastIncludedTerm), snapshot);
    }

    method StepDown(term: nat)
      modifies this, persister
      ensures State() == ToFollower(old(State()), term)
    {
      currentTerm := term;
      role := Follower;
      votedFor := -1;
      Save();
    }

    // ----- elections -----

    method Campaign()
      modifies this, persister
      ensures State() == StartElection(old(State()))
    {
      currentTerm := currentTerm + 1;
      role := Candidate;
      votedFor := me;
      CountFromOne();
      Save();
    }

    /** A new election's counter starts at this peer's own vote. */
    method CountFromOne()
      modifies `votes, `asked, `heard, `granted
      ensures State() == old(State()).(votes := 1, asked := {}, heard := {}, granted := {})
    {
      votes, asked, heard, granted := 1, {}, {}, {};
    }

    method HandleRequestVote(args: VoteArgs) returns (reply: VoteReply)
      requires |log| > 0
      modifies this, persister
      ensures (State(), reply) == RequestVote(old(State()), args)
    {
      if args.term > currentTerm {
        StepDown(args.term);
      }
      reply := VoteReply(currentTerm, false);
      if args.term < currentTerm {
        return;
      }
      var lastIdx := lastIncludedIndex + |log| - 1;
      var lastTerm := log[lastIdx - lastIncludedIndex].term;
      var upToDate := args.lastLogTerm > lastTerm || (args.lastLogTerm == lastTerm && args.lastLogIndex >= lastIdx);
      if !upToDate {
        return;
      }
      if votedFor == -1 || votedFor == args.candidate {
        votedFor := args.candidate;
        Save();
        reply := reply.(granted := true);
      }
    }

    method HandleVoteReply(term: nat, i: nat, reply: VoteReply)
      requires Ok(State())
      modifies this, persister
      ensures State() == OnVoteReply(old(State()), term, i, reply)
    {
      if term == currentTerm {
        heard := heard + {i};
      }
      if reply.term > currentTerm {
        StepDown(reply.term);
        return;
      }
      if currentTerm != term || role != Candidate {
        return;
      }
      if reply.granted {
        votes := votes + 1;
        granted := granted + {i};
        if votes > n / 2 {
          Lead(term);
        }
      }
    }

    method Lead(term: nat)
      requires Ok(State())
      modifies this
      ensures State() == BecomeLeader(old(State()), term)
    {
      if role == Leader || currentTerm != term {
        return;
      }
      role := Leader;
      var last := lastIncludedIndex + |log| - 1;
      nextIndex := [];
      matchIndex := seq(n, _ => 0);
      for i := 0 to n
        invariant nextIndex == seq(i, _ => last + 1)
        modifies `nextIndex
      {
        nextIndex := nextIndex + [last + 1];
      }
      matchIndex := matchIndex[me := last];
      assert matchIndex == seq(n, i => if i == me then last else 0);
    }

    // ----- AppendEntries -----

    method HandleAppendEntries(args: AppendArgs) returns (reply: AppendReply)
      requires |log| > 0
      modifies this, persister
      ensures (State(), reply) == AppendEntries(old(State()), args)
    {
      reply := AppendReply(currentTerm, false, 0, 0, 0);
      if args.term < currentTerm {
        return;
      }
      if args.term > currentTerm {
        StepDown(args.term);
      } else {
        role := Follower;
      }
      reply := reply.(term := currentTerm);
      if args.prevLogIndex < lastIncludedIndex {
        reply := reply.(xTerm := -1, xLen := lastIncludedIndex + 1);
        return;
      }
      var last := lastIncludedIndex + |log| - 1;
      if args.prevLogIndex > last {
        reply := reply.(xTerm := -1, xLen := last + 1);
        return;
      }
      var prev := args.prevLogIndex - lastIncludedIndex;
      if log[prev].term != args.prevLogTerm {
        var i := BackScan(prev);
        reply := reply.(xTerm := log[prev].term, xIndex := lastIncludedIndex + i, xLen := last + 1);
        return;
      }
      MergeEntries(prev + 1, args.entries);
      if |args.entries| > 0 {
        Save();
      }
      FollowCommit(args.leaderCommit);
      reply := reply.(success := true);
    }

    method FollowCommit(leaderCommit: nat)
      requires |log| > 0
      modifies `commitIndex
      ensures var n := old(State());
        State() == if leaderCommit > n.commitIndex then n.(commitIndex := Min(leaderCommit, LastIndex(n))) else n
    {
      if leaderCommit > commitIndex {
        var last := lastIncludedIndex + |log| - 1;
        if leaderCommit < last {
          last := leaderCommit;
        }
        commitIndex := last;
      }
    }

    /** The scan back to the first entry of the conflicting term. */
    method BackScan(prev: nat) returns (i: nat)
      requires prev < |log|
      ensures i == FirstOfTerm(log, prev)
    {
      i := prev;
      while i > 0 && log[i - 1].term == log[prev].term
        invariant i <= prev && log[i].term == log[prev].term
        invariant FirstOfTerm(log, i) == FirstOfTerm(log, prev)
      {
        i := i - 1;
      }
    }

    /** Drop the conflicting suffix, keep what is already there, append what is new. */
    method MergeEntries(off: nat, entries: seq<Entry>)
      requires 0 < off <= |log|
      modifies `log
      ensures log == Merge(old(log), off, entries) && |log| > 0
    {
      MergeGrows(log, off, entries);
      var i := 0;
      assert entries[0..] == entries;
      while i < |entries|
        invariant i <= |entries| && off + i <= |log|
        invariant Merge(log, off + i, entries[i..]) == Merge(old(log), off, entries)
      {
        var pos := off + i;
        assert entries[i..][1..] == entries[i + 1..];
        if pos >= |log| {
          log := log + [entries[i]];
        } else if log[pos].term != entries[i].term {
          log := log[..pos] + entries[i..];
          return;
        }
        i := i + 1;
      }
    }

    // ----- snapshots -----

    /** Copy the log from off on and drop the boundary's command. */
    method CutLog(off: nat)
      requires off < |log|
      modifies `log
      ensures log == Cut(old(log), off)
    {
      var newLog := log[off..];
      newLog := newLog[0 := newLog[0].(cmd := NoCommand)];
      log := newLog;
    }

    method HandleInstallSnapshot(args: SnapArgs) returns (replyTerm: nat)
      requires |log| > 0
      modifies this, persister
      ensures (State(), replyTerm) == InstallSnapshot(old(State()), args)
    {
      replyTerm := currentTerm;
      if args.term < currentTerm {
        return;
      }
      if args.term > currentTerm {
        StepDown(args.term);
      } else {
        role := Follower;
      }
      replyTerm := currentTerm;
      if args.lastIncludedIndex <= lastIncludedIndex {
        return;
      }
      Replace(args);
      Save();
      if args.lastIncludedIndex > lastApplied {
        pending := Pending(args.lastIncludedIndex, args.lastIncludedTerm, args.data);
      }
    }

    /** Take the snapshot's boundary: keep the suffix when the log agrees with it, drop the log otherwise. */
    method Replace(args: SnapArgs)
      requires |log| > 0 && args.lastIncludedIndex > lastIncludedIndex
      modifies `log, `lastIncludedIndex, `lastIncludedTerm, `snapshot, `commitIndex
      ensures var n := old(State());
        var keep :=
          args.lastIncludedIndex <= LastIndex(n) && EntryAt(n, args.lastIncludedIndex).term == args.lastIncludedTerm;
        State() == n.(log := if keep then Cut(n.log, args.lastIncludedIndex - n.lastIncludedIndex)
                             else [Entry(args.lastIncludedTerm, NoCommand)],
                      lastIncludedIndex := args.lastIncludedIndex, lastIncludedTerm := args.lastIncludedTerm,
                      snapshot := args.data, commitIndex := Sorting.Max(n.commitIndex, args.lastIncludedIndex))
    {
      if args.lastIncludedIndex <= lastIncludedIndex + |log| - 1
         && log[args.lastIncludedIndex - lastIncludedIndex].term == args.lastIncludedTerm {
        CutLog(args.lastIncludedIndex - lastIncludedIndex);
      } else {
        log := [Entry(args.lastIncludedTerm, NoCommand)];
      }
      lastIncludedIndex := args.lastIncludedIndex;
      lastIncludedTerm := args.lastIncludedTerm;
      snapshot := args.data;
      if commitIndex < args.lastIncludedIndex {
        commitIndex := args.lastIncludedIndex;
      }
    }

    method TakeSnapshot(index: nat, data: Snap)
      requires |log| > 0 && lastApplied <= lastIncludedIndex + |log| - 1
      modifies this, persister
      ensures State() == Snapshot(old(State()), index, data)
    {
      if index <= lastIncludedIndex || index > lastApplied {
        return;
      }
      var term := log[index - lastIncludedIndex].term;
      CutLog(index - lastIncludedIndex);
      lastIncludedIndex := index;
      lastIncludedTerm := term;
      snapshot := data;
      Save();
    }

    // ----- the leader -----

    method NextRequest(peer: nat) returns (out: Outgoing)
      requires Ok(State()) && peer < n
      ensures out == Replicate(State(), peer)
    {
      if role != Leader {
        return Nothing;
      }
      if nextIndex[peer] <= lastIncludedIndex {
        return SendSnap(SnapArgs(currentTerm, me, lastIncludedIndex, lastIncludedTerm, snapshot));
      }
      var prevIndex := nextIndex[peer] - 1;
      if prevIndex > lastIncludedIndex + |log| - 1 {
        return Nothing;
      }
      var entries := [];
      if prevIndex < lastIncludedIndex + |log| - 1 {
        entries := log[prevIndex + 1 - lastIncludedIndex..];
      }
      var prevTerm := log[prevIndex - lastIncludedIndex].term;
      out := SendAppend(AppendArgs(currentTerm, me, prevIndex, prevTerm, entries, commitIndex));
    }

    method HandleSnapReply(peer: nat, args: SnapArgs, replyTerm: nat)
      requires Ok(State()) && peer < n
      modifies this, persister
      ensures State() == OnSnapReply(old(State()), peer, args, replyTerm)
    {
      if role != Leader || currentTerm != args.term {
        return;
      }
      if replyTerm > currentTerm {
        StepDown(replyTerm);
        return;
      }
      if matchIndex[peer] < args.lastIncludedIndex {
        matchIndex := matchIndex[peer := args.lastIncludedIndex];
      }
      if nextIndex[peer] < args.lastIncludedIndex + 1 {
        nextIndex := nextIndex[peer := args.lastIncludedIndex + 1];
      }
    }

    method HandleAppendReply(peer: nat, args: AppendArgs, reply: AppendReply)
      requires Ok(State()) && peer < n
      modifies this, persister
      ensures State() == OnAppendReply(old(State()), peer, args, reply)
    {
      if role != Leader || currentTerm != args.term {
        return;
      }
      if reply.term > currentTerm {
        StepDown(reply.term);
        return;
      }
      if reply.success {
        var newMatch := args.prevLogIndex + |args.entries|;
        if newMatch > matchIndex[peer] {
          matchIndex := matchIndex[peer := newMatch];
        }
        if newMatch + 1 > nextIndex[peer] {
          nextIndex := nextIndex[peer := newMatch + 1];
        }
        assert matchIndex == old(matchIndex)[peer := Sorting.Max(old(matchIndex)[peer], newMatch)];
        assert nextIndex == old(nextIndex)[peer := Sorting.Max(old(nextIndex)[peer], newMatch + 1)];
        AdvanceCommit();
      } else if nextIndex[peer] <= args.prevLogIndex + 1 {
        Backup(peer, reply);
      }
    }

    method Backup(peer: nat, reply: AppendReply)
      requires Ok(State()) && peer < n
      modifies `nextIndex
      ensures nextIndex == old(nextIndex)[peer := BackupNextIndex(old(State()), peer, reply)]
    {
      var next: int;
      if reply.xTerm == -1 {
        next := reply.xLen;
      } else {
        var i := |log| - 1;
        while i > 0 && log[i].term != reply.xTerm
          invariant 0 <= i < |log|
          invariant LastOfTerm(log, reply.xTerm, i) == LastOfTerm(log, reply.xTerm, |log| - 1)
        {
          i := i - 1;
        }
        if log[i].term == reply.xTerm {
          next := lastIncludedIndex + i + 1;
        } else {
          next := reply.xIndex;
        }
      }
      if next >= nextIndex[peer] {
        next := nextIndex[peer] as int - 1;
      }
      var minNext := lastIncludedIndex;
      if minNext < 1 {
        minNext := 1;
      }
      if next < minNext {
        next := minNext;
      }
      nextIndex := nextIndex[peer := next];
    }

    method AdvanceCommit()
      requires Ok(State())
      modifies `commitIndex
      ensures State() == AdvanceCommitIndex(old(State()))
    {
      if role != Leader {
        return;
      }
      var tmp := Sorting.Sort(matchIndex);
      var N := tmp[|matchIndex| / 2];
      if N > commitIndex && N <= lastIncludedIndex + |log| - 1 && log[N - lastIncludedIndex].term == currentTerm {
        commitIndex := N;
      }
    }

    method Propose(cmd: Command) returns (index: int, term: nat, isLeader: bool)
      requires Ok(State())
      modifies this, persister
      ensures State() == Start(old(State()), cmd)
      ensures term == old(currentTerm) && isLeader == (old(role) == Leader)
      ensures index == if isLeader then LastIndex(old(State())) + 1 else -1
    {
      if role != Leader {
        return -1, currentTerm, false;
      }
      index := lastIncludedIndex + |log|;
      term := currentTerm;
      log := log + [Entry(term, cmd)];
      nextIndex := nextIndex[me := lastIncludedIndex + |log|];
      matchIndex := matchIndex[me := lastIncludedIndex + |log| - 1];
      Save();
      isLeader := true;
    }

    // ----- the applier -----

    method NextDelivery() returns (msg: ApplyMsg)
      requires CanDeliver(State()) && InRange(State())
      modifies `lastApplied, `pending
      ensures (State(), msg) == Deliver(old(State()))
    {
      match pending {
        case Pending(index, term, data) =>
          msg := SnapshotMsg(index, term, data);
          lastApplied := index;
          pending := NoPending;
        case NoPending =>
          lastApplied := lastApplied + 1;
          msg := CommandMsg(lastApplied, log[lastApplied - lastIncludedIndex].cmd);
      }
    }
  }
}
