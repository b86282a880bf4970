/** When a peer must say yes, and what it then holds: every handler of RPCs and replies, for every state of the peer and
    every message, and what follows for the messages of reachable clusters. */
module RaftExact {
  import opened RaftTypes
  import R = RaftNode
  import Sorting

  /** The term of index i in the compacted log of n, -1 outside it. */
  ghost function TermAt(n: R.Node, i: nat): int {
    if n.lastIncludedIndex <= i < n.lastIncludedIndex + |n.log| then n.log[i - n.lastIncludedIndex].term else -1
  }

  /** Index i is in the compacted log of n, with this term. */
  ghost predicate HasTerm(n: R.Node, i: nat, t: nat) {
    TermAt(n, i) == t
  }

  function Last(n: R.Node): int { n.lastIncludedIndex + |n.log| - 1 }

  function MaxOf(a: nat, b: nat): nat { if a < b then b else a }

  function MinOf(a: nat, b: nat): nat { if a < b then a else b }

  /** Term, vote and role are those of a peer that has just seen the term; everything else is as it was. */
  ghost predicate Stepped(n: R.Node, n': R.Node, term: nat) {
    if term > n.currentTerm
    then n'.currentTerm == term && n'.votedFor == -1 && n'.role == Follower
    else n'.currentTerm == n.currentTerm && n'.votedFor == n.votedFor
  }

  /** What a peer knows apart from term, vote, role and disk is unchanged. */
  ghost predicate SameRest(n: R.Node, n': R.Node) {
    n' == n.(currentTerm := n'.currentTerm, votedFor := n'.votedFor, role := n'.role, disk := n'.disk)
  }

  /** The persister holds what the peer would restart from. */
  ghost predicate OnDisk(n: R.Node) {
    n.disk == R.Disk(R.Saved(n.currentTerm, n.votedFor, n.log, n.lastIncludedIndex, n.lastIncludedTerm), n.snapshot)
  }

  // ----- elections -----

  /** The vote n has given in the term of the request, -1 if none. */
  function VoteIn(n: R.Node, term: nat): int {
    if term > n.currentTerm then -1 else n.votedFor
  }

  /** A vote is granted iff the request is not of an old term, no other candidate has the peer's vote in it, and the
      candidate's last (term, index) is at least the peer's; then it is in memory and on disk. */
  lemma VoteExactly(n: R.Node, a: R.VoteArgs)
    requires |n.log| > 0
    ensures var (n', r) := R.RequestVote(n, a); var lastTerm := n.log[|n.log| - 1].term;
      && (r.granted <==>
            && a.term >= n.currentTerm
            && (VoteIn(n, a.term) == -1 || VoteIn(n, a.term) == a.candidate)
            && (a.lastLogTerm > lastTerm || (a.lastLogTerm == lastTerm && a.lastLogIndex >= Last(n))))
      && r.term == n'.currentTerm == MaxOf(n.currentTerm, a.term)
      && n'.votedFor == (if r.granted then a.candidate else VoteIn(n, a.term))
      && n'.role == (if a.term > n.currentTerm then Follower else n.role)
      && SameRest(n, n') && (OnDisk(n) || r.granted ==> OnDisk(n'))
  {
  }

  /** An election begins in the next term, with the peer's own vote saved and counted, and nobody asked. */
  lemma ElectionExactly(n: R.Node)
    ensures var n' := R.StartElection(n);
      && n'.currentTerm == n.currentTerm + 1 && n'.votedFor == n.me && n'.role == Candidate && n'.votes == 1
      && n'.asked == n'.heard == n'.granted == {} && OnDisk(n')
      && SameRest(n.(votes := n'.votes, asked := n'.asked, heard := n'.heard, granted := n'.granted), n')
  {
  }

  /** A reply is counted iff it grants a vote of the election the peer is still running; the peer leads from the moment
      more than half have voted for it, and then knows of nothing on the others. A later term ends its election. */
  lemma VoteReplyExactly(n: R.Node, term: nat, i: nat, r: R.VoteReply)
    requires R.Ok(n)
    ensures var n' := R.OnVoteReply(n, term, i, r);
      var counted := r.term <= n.currentTerm && term == n.currentTerm && n.role == Candidate && r.granted;
      && n'.votes == n.votes + (if counted then 1 else 0)
      && n'.granted == n.granted + (if counted then {i} else {})
      && n'.heard == n.heard + (if term == n.currentTerm then {i} else {})
      && Stepped(n, n', r.term) && (r.term > n.currentTerm ==> OnDisk(n'))
      && (r.term <= n.currentTerm ==> (n'.role == Leader <==> n.role == Leader || (counted && 2 * n'.votes > n.n)))
      && (n'.role == Leader && n.role != Leader ==>
            forall q: nat :: q < n.n ==>
              n'.nextIndex[q] == Last(n) + 1 && n'.matchIndex[q] == if q == n.me then Last(n) else 0)
      && (n'.role != Leader || n.role == Leader ==> n'.nextIndex == n.nextIndex && n'.matchIndex == n.matchIndex)
  {
  }

  // ----- AppendEntries -----

  /** Some entry of es, placed in log from off on, meets another term. */
  ghost predicate Clash(log: seq<Entry>, off: nat, es: seq<Entry>) {
    exists i :: off <= i < |log| && i - off < |es| && log[i].term != es[i - off].term
  }

  lemma ClashNext(log: seq<Entry>, off: nat, es: seq<Entry>)
    requires off < |log| && es != []
    ensures Clash(log, off, es) <==> log[off].term != es[0].term || Clash(log, off + 1, es[1..])
  {
    if i :| off <= i < |log| && i - off < |es| && log[i].term != es[i - off].term {
      if i > off { assert es[1..][i - (off + 1)] == es[i - off]; }
    }
    if i :| off + 1 <= i < |log| && i - (off + 1) < |es[1..]| && log[i].term != es[1..][i - (off + 1)].term {
      assert log[i].term != es[i - off].term;
    }
  }

  /** What the truncate-and-append loop leaves: the part below off, then the entries, term by term. */
  lemma {:induction false} MergeEntries(log: seq<Entry>, off: nat, es: seq<Entry>)
    requires off <= |log|
    ensures var m := R.Merge(log, off, es);
      && off + |es| <= |m| && m[..off] == log[..off]
      && (forall i :: off <= i < off + |es| ==> m[i].term == es[i - off].term)
      && (forall i :: off <= i < off + |es| ==> m[i] == es[i - off] || (i < |log| && m[i] == log[i]))
    decreases |es|
  {
    if es == [] {
    } else {
      var m, rest := R.Merge(log, off, es), es[1..];
      if off == |log| || log[off].term == es[0].term {
        var log' := if off == |log| then log + [es[0]] else log;
        MergeEntries(log', off + 1, rest);
        assert m[off] == m[..off + 1][off] == log'[..off + 1][off];
        assert m[..off] == m[..off + 1][..off] == log'[..off + 1][..off] == log[..off];
        forall i | off <= i < off + |es|
          ensures m[i].term == es[i - off].term && (m[i] == es[i - off] || (i < |log| && m[i] == log[i]))
        {
          if i > off { assert rest[i - (off + 1)] == es[i - off]; }
        }
      }
    }
  }

  /** What was behind the entries stays iff none of them was in conflict. */
  lemma {:induction false} MergeLength(log: seq<Entry>, off: nat, es: seq<Entry>)
    requires off <= |log|
    ensures var m := R.Merge(log, off, es);
      if Clash(log, off, es) then |m| == off + |es| else log <= m && |m| == MaxOf(|log|, off + |es|)
    decreases |es|
  {
    if es == [] {
    } else if off == |log| {
      MergeLength(log + [es[0]], off + 1, es[1..]);
      var m := R.Merge(log, off, es);
      assert !Clash(log + [es[0]], off + 1, es[1..]);
      assert log <= log + [es[0]] <= m;
    } else {
      ClashNext(log, off, es);
      if log[off].term == es[0].term { MergeLength(log, off + 1, es[1..]); }
    }
  }

  /** AppendEntries succeeds iff the request is not of an old term and the peer has its previous entry, empty requests
      included. */
  lemma AppendExactly(n: R.Node, a: R.AppendArgs)
    requires |n.log| > 0
    ensures var (n', r) := R.AppendEntries(n, a);
      && (r.success <==> a.term >= n.currentTerm && HasTerm(n, a.prevLogIndex, a.prevLogTerm))
      && r.term == n'.currentTerm == MaxOf(n.currentTerm, a.term) && Stepped(n, n', a.term)
      && (a.term < n.currentTerm ==> n' == n) && (a.term >= n.currentTerm ==> n'.role == Follower)
      && (!r.success ==> SameRest(n, n')) && (OnDisk(n) ==> OnDisk(n'))
  {
    hide R.Merge, R.FirstOfTerm;
    if HasTerm(n, a.prevLogIndex, a.prevLogTerm) {
      MergeNothing(n.log, a.prevLogIndex + 1 - n.lastIncludedIndex);
    }
  }

  lemma MergeNothing(log: seq<Entry>, off: nat)
    requires off <= |log|
    ensures R.Merge(log, off, []) == log
  {
  }

  /** An accepted request leaves the log as it was up to the previous entry, with the entries right behind it and what
      was there before behind those iff nothing was in conflict, and the commit index at the leader's as far as the log
      reaches, if that is an advance. */
  lemma AcceptExactly(n: R.Node, a: R.AppendArgs)
    requires |n.log| > 0 && R.AppendEntries(n, a).1.success
    ensures var n' := R.AppendEntries(n, a).0;
      var prev, off := a.prevLogIndex, a.prevLogIndex + 1 - n.lastIncludedIndex;
      && n'.lastIncludedIndex == n.lastIncludedIndex <= prev <= Last(n) && prev + |a.entries| <= Last(n')
      && n'.log[..off] == n.log[..off]
      && (forall i: nat :: prev < i <= prev + |a.entries| ==> TermAt(n', i) == a.entries[i - prev - 1].term)
      && (if Clash(n.log, off, a.entries) then Last(n') == prev + |a.entries|
          else n.log <= n'.log && Last(n') == MaxOf(Last(n), prev + |a.entries|))
      && n'.commitIndex ==
         (if a.leaderCommit > n.commitIndex then MinOf(a.leaderCommit, Last(n')) else n.commitIndex)
      && n'.lastIncludedTerm == n.lastIncludedTerm && n'.snapshot == n.snapshot && n'.lastApplied == n.lastApplied
      && n'.pending == n.pending
  {
    hide R.FirstOfTerm, R.Merge, Clash;
    var off := a.prevLogIndex + 1 - n.lastIncludedIndex;
    AppendExactly(n, a);
    MergeEntries(n.log, off, a.entries);
    MergeLength(n.log, off, a.entries);
  }

  /** A refusal in a term that is not old says where to go on: behind the log's end or its boundary when the previous
      entry lies outside, else the conflicting term and where its entries begin. */
  lemma RefuseExactly(n: R.Node, a: R.AppendArgs)
    requires |n.log| > 0 && a.term >= n.currentTerm && !R.AppendEntries(n, a).1.success
    ensures var r := R.AppendEntries(n, a).1; var prev, lii := a.prevLogIndex, n.lastIncludedIndex;
      && (prev < lii ==> r.xTerm == -1 && r.xLen == lii + 1)
      && (prev > Last(n) ==> r.xTerm == -1 && r.xLen == Last(n) + 1)
      && (lii <= prev <= Last(n) ==>
            && r.xTerm == TermAt(n, prev) && r.xLen == Last(n) + 1 && lii <= r.xIndex <= prev
            && (forall i: nat :: r.xIndex <= i <= prev ==> TermAt(n, i) == TermAt(n, prev))
            && (r.xIndex > lii ==> TermAt(n, r.xIndex - 1) != TermAt(n, prev)))
  {
  }

  // ----- snapshots -----

  /** n and n' hold the same entry at index j. */
  ghost predicate SameAt(n: R.Node, n': R.Node, j: nat) {
    && n.lastIncludedIndex < j <= Last(n) && n'.lastIncludedIndex < j <= Last(n')
    && n'.log[j - n'.lastIncludedIndex] == n.log[j - n.lastIncludedIndex]
  }

  ghost predicate SameAbove(n: R.Node, n': R.Node, i: nat) {
    forall j: nat :: i < j <= Last(n) ==> SameAt(n, n', j)
  }

  /** Compacting at an index the peer has applied and not yet compacted makes it the boundary; in every other case
      nothing changes. */
  lemma CompactExactly(n: R.Node, i: nat, data: R.Snap)
    requires |n.log| > 0 && n.lastApplied <= R.LastIndex(n)
    ensures var n' := R.Snapshot(n, i, data);
      if n.lastIncludedIndex < i <= n.lastApplied then
        && n'.lastIncludedIndex == i && |n'.log| > 0 && Last(n') == Last(n) && SameAbove(n, n', i)
        && n'.lastIncludedTerm == n.log[i - n.lastIncludedIndex].term
        && n'.log[0] == Entry(n'.lastIncludedTerm, NoCommand)
        && n'.snapshot == data && OnDisk(n')
        && n' == n.(log := n'.log, lastIncludedIndex := i, lastIncludedTerm := n'.lastIncludedTerm,
                    snapshot := n'.snapshot, disk := n'.disk)
      else n' == n
  {
  }

  /** A snapshot is installed iff the request is not of an old term and reaches past the boundary. The log above it
      stays iff the peer has the entry it stands for; it is handed to the service iff that has not got so far. */
  lemma InstallExactly(n: R.Node, a: R.SnapArgs)
    requires |n.log| > 0
    ensures var (n', t) := R.InstallSnapshot(n, a); var i := a.lastIncludedIndex;
      && t == n'.currentTerm == MaxOf(n.currentTerm, a.term) && Stepped(n, n', a.term)
      && (a.term < n.currentTerm ==> n' == n) && (a.term >= n.currentTerm ==> n'.role == Follower)
      && (OnDisk(n) ==> OnDisk(n'))
      && if a.term < n.currentTerm || i <= n.lastIncludedIndex then SameRest(n, n')
        else
          && n'.lastIncludedIndex == i && n'.lastIncludedTerm == a.lastIncludedTerm && n'.snapshot == a.data
          && |n'.log| > 0 && n'.log[0] == Entry(a.lastIncludedTerm, NoCommand)
          && (if HasTerm(n, i, a.lastIncludedTerm) then Last(n') == Last(n) && SameAbove(n, n', i) else Last(n') == i)
          && n'.commitIndex == MaxOf(n.commitIndex, i) && n'.lastApplied == n.lastApplied
          && n'.pending == (if i > n.lastApplied then R.Pending(i, a.lastIncludedTerm, a.data) else n.pending)
  {
    if a.term >= n.currentTerm && a.lastIncludedIndex > n.lastIncludedIndex {
      InstallLog(n, a);
    }
  }

  /** The log after an install. */
  lemma InstallLog(n: R.Node, a: R.SnapArgs)
    requires |n.log| > 0 && a.term >= n.currentTerm && a.lastIncludedIndex > n.lastIncludedIndex
    ensures var n', i := R.InstallSnapshot(n, a).0, a.lastIncludedIndex;
      && n'.lastIncludedIndex == i && |n'.log| > 0 && n'.log[0] == Entry(a.lastIncludedTerm, NoCommand)
      && (if HasTerm(n, i, a.lastIncludedTerm) then Last(n') == Last(n) && SameAbove(n, n', i) else Last(n') == i)
  {
  }

  // ----- what a leader sends, and what it makes of the answers -----

  /** A leader sends its snapshot iff the peer needs something below its log, and otherwise everything from nextIndex
      on, with the entry before it and its commit index. */
  lemma SendExactly(n: R.Node, q: nat)
    requires R.Ok(n) && q < n.n && n.role == Leader && 0 < n.nextIndex[q] <= Last(n) + 1
    ensures var out := R.Replicate(n, q); var next := n.nextIndex[q];
      if next <= n.lastIncludedIndex then
        out == R.SendSnap(R.SnapArgs(n.currentTerm, n.me, n.lastIncludedIndex, n.lastIncludedTerm, n.snapshot))
      else
        && out.SendAppend? && out.append.term == n.currentTerm && out.append.leader == n.me
        && out.append.prevLogIndex == next - 1 && HasTerm(n, next - 1, out.append.prevLogTerm)
        && |out.append.entries| == Last(n) + 1 - next && out.append.leaderCommit == n.commitIndex
        && (forall k :: 0 <= k < |out.append.entries| ==>
              out.append.entries[k] == n.log[next + k - n.lastIncludedIndex])
  {
  }

  /** Only the leader of the request's term heeds an answer; a later term ends its leadership. */
  ghost predicate Unheeded(n: R.Node, n': R.Node, term: nat, replyTerm: nat) {
    && (n.role != Leader || n.currentTerm != term ==> n' == n)
    && (n.role == Leader && n.currentTerm == term && replyTerm > n.currentTerm ==>
          Stepped(n, n', replyTerm) && SameRest(n, n') && OnDisk(n'))
  }

  /** What peer q is known to hold rises to m, nextIndex past it, and nothing about other peers changes. */
  ghost predicate Recorded(n: R.Node, n': R.Node, q: nat, m: nat)
    requires q < |n.matchIndex| && q < |n.nextIndex|
  {
    && n'.matchIndex == n.matchIndex[q := MaxOf(n.matchIndex[q], m)]
    && n'.nextIndex == n.nextIndex[q := MaxOf(n.nextIndex[q], m + 1)]
  }

  lemma SnapReplyExactly(n: R.Node, q: nat, a: R.SnapArgs, replyTerm: nat)
    requires R.Ok(n) && q < n.n
    ensures var n' := R.OnSnapReply(n, q, a, replyTerm);
      && Unheeded(n, n', a.term, replyTerm)
      && (n.role == Leader && n.currentTerm == a.term && replyTerm <= n.currentTerm ==>
            && Recorded(n, n', q, a.lastIncludedIndex)
            && n' == n.(matchIndex := n'.matchIndex, nextIndex := n'.nextIndex))
  {
  }

  lemma AppendReplyExactly(n: R.Node, q: nat, a: R.AppendArgs, r: R.AppendReply)
    requires R.Ok(n) && q < n.n
    ensures var n' := R.OnAppendReply(n, q, a, r);
      && Unheeded(n, n', a.term, r.term)
      && (n.role == Leader && n.currentTerm == a.term && r.term <= n.currentTerm ==>
            && (r.success ==>
                  && Recorded(n, n', q, a.prevLogIndex + |a.entries|)
                  && n' == n.(matchIndex := n'.matchIndex, nextIndex := n'.nextIndex, commitIndex := n'.commitIndex))
            && (!r.success ==>
                  && n' == n.(nextIndex := n'.nextIndex) && |n'.nextIndex| == n.n
                  && (n.nextIndex[q] > a.prevLogIndex + 1 ==> n' == n)
                  && (forall p :: 0 <= p < n.n && p != q ==> n'.nextIndex[p] == n.nextIndex[p])))
  {
    hide Sorting.Sort;
  }

  /** Start on a leader appends the command in its term and saves it; any other peer is left alone. */
  lemma StartExactly(n: R.Node, cmd: Command)
    requires R.Ok(n)
    ensures var n' := R.Start(n, cmd);
      if n.role != Leader then n' == n
      else
        && n'.log == n.log + [Entry(n.currentTerm, cmd)] && OnDisk(n')
        && n'.nextIndex == n.nextIndex[n.me := Last(n) + 2] && n'.matchIndex == n.matchIndex[n.me := Last(n) + 1]
        && n' == n.(log := n'.log, nextIndex := n'.nextIndex, matchIndex := n'.matchIndex, disk := n'.disk)
  {
  }
}
