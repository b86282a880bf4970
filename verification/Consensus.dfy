/** Raft without messages: peers with uncompacted logs, and the history of the run.
    A delayed message is a reference to history that only grows, so every step here is
    enabled by facts that stay true once they hold. */
module Consensus {
  import opened Quorum
  import opened RaftTypes

  datatype Peer = Peer(term: nat, voted: int, log: seq<Entry>, role: Role, commit: nat)

  datatype World = World(
    peers: seq<Peer>,
    lead: map<nat, nat>,              // elected term -> its leader
    quorum: map<nat, set<nat>>,       // elected term -> the peers whose votes elected it
    tlog: map<nat, seq<Entry>>,       // elected term (and 0) -> the log of that term's leader
    bid: map<(nat, nat), seq<Entry>>, // (term, candidate) -> the log it campaigned with
    votes: set<(nat, nat, nat)>,      // (voter, candidate, term)
    acks: map<(nat, nat), nat>,       // (peer, term) -> last index of tlog[term] it accepted
    chosen: set<(nat, nat)>)          // (term, index) a leader of term committed directly

  // ----- the vocabulary of the invariants -----

  /** p has accepted the log of term t up to index i. */
  ghost predicate Acked(w: World, p: nat, t: nat, i: nat) {
    (p, t) in w.acks && i <= w.acks[(p, t)]
  }

  /** The entry at index i of the term-t leader's log was made in term t. */
  ghost predicate OwnEntry(w: World, t: nat, i: nat) {
    t in w.tlog && i < |w.tlog[t]| && w.tlog[t][i].term == t
  }

  /** L agrees with the term-t leader's log up to and including index i. */
  ghost predicate Has(w: World, L: seq<Entry>, t: nat, i: nat) {
    t in w.tlog && i < |w.tlog[t]| && i < |L| && L[..i + 1] == w.tlog[t][..i + 1]
  }

  /** Peers that accepted index i in term t, or still may. */
  ghost function Potential(w: World, t: nat, i: nat): set<nat> {
    set p: nat | p < |w.peers| && (Acked(w, p, t, i) || w.peers[p].term <= t)
  }

  /** Half of the cluster (rounded up) accepted index i in term t, or still may. */
  ghost predicate Choosable(w: World, t: nat, i: nat) {
    2 * |Potential(w, t, i)| >= |w.peers|
  }

  ghost function Ackers(w: World, t: nat, i: nat): set<nat> {
    set p: nat | p < |w.peers| && Acked(w, p, t, i)
  }

  /** Every prefix of L is the prefix of the log of the leader that made its last entry. */
  ghost predicate Matches(w: World, L: seq<Entry>) {
    && |L| > 0
    && L[0] == ZERO
    && (forall i: nat {:trigger L[i]} :: i < |L| ==> Has(w, L, L[i].term, i))
  }

  /** Index c of L lies in a prefix committed by a leader of term t or earlier. */
  ghost predicate CommitOk(w: World, L: seq<Entry>, c: nat, t: nat) {
    && c < |L|
    && (c == 0 || exists u: nat, i: nat :: CommitBy(w, L, c, t, u, i))
  }

  ghost predicate CommitBy(w: World, L: seq<Entry>, c: nat, t: nat, u: nat, i: nat) {
    (u, i) in w.chosen && u <= t && c <= i && Has(w, L, u, c)
  }

  /** The vote check: candidate log C is at least as up to date as voter log L. */
  predicate UpToDate(C: seq<Entry>, L: seq<Entry>)
    requires |C| > 0 && |L| > 0
  {
    || C[|C| - 1].term > L[|L| - 1].term
    || (C[|C| - 1].term == L[|L| - 1].term && |C| >= |L|)
  }

  /** What a peer keeps of its log L on accepting the leader's prefix S. */
  function Adopted(L: seq<Entry>, S: seq<Entry>): seq<Entry> {
    if S <= L then L else S
  }

  function Max(a: nat, b: nat): nat { if a < b then b else a }

  // ----- the invariant -----

  ghost predicate Shape(w: World) {
    && |w.peers| > 0
    && 0 in w.tlog && w.tlog[0] == [ZERO] && 0 !in w.lead
    && w.tlog.Keys == w.lead.Keys + {0}
    && w.quorum.Keys == w.lead.Keys
    && (forall t :: t in w.lead ==> w.lead[t] < |w.peers|)
    && (forall t :: t in w.lead ==> Within(w.quorum[t], |w.peers|) && 2 * |w.quorum[t]| > |w.peers|)
  }

  ghost predicate Logs(w: World) {
    && (forall p: nat :: p < |w.peers| ==> Matches(w, w.peers[p].log))
    && (forall t :: t in w.tlog ==> Matches(w, w.tlog[t]))
    && (forall k :: k in w.bid ==> Matches(w, w.bid[k]))
  }

  ghost predicate TermsBelow(L: seq<Entry>, t: int) {
    forall i :: 0 <= i < |L| ==> L[i].term <= t
  }

  ghost predicate Terms(w: World) {
    && (forall p: nat :: p < |w.peers| ==> TermsBelow(w.peers[p].log, w.peers[p].term))
    && (forall t :: t in w.tlog ==> TermsBelow(w.tlog[t], t))
    && (forall k :: k in w.bid ==> TermsBelow(w.bid[k], k.0 - 1))
  }

  ghost predicate Ballots(w: World) {
    && (forall v: nat, c: nat, t: nat :: (v, c, t) in w.votes ==>
          && v < |w.peers| && (t, c) in w.bid && t <= w.peers[v].term
          && (w.peers[v].term == t ==> w.peers[v].voted == c))
    && (forall v: nat, c: nat, d: nat, t: nat :: (v, c, t) in w.votes && (v, d, t) in w.votes ==> c == d)
    && (forall t: nat, c: nat :: (t, c) in w.bid ==> 0 < t && c < |w.peers| && t <= w.peers[c].term)
    && (forall t: nat, v: nat :: t in w.lead && t in w.quorum && v in w.quorum[t] ==> (v, w.lead[t], t) in w.votes)
  }

  ghost predicate Roles(w: World) {
    && (forall p: nat :: p < |w.peers| && w.peers[p].role == Candidate ==>
          && (w.peers[p].term, p) in w.bid && w.bid[(w.peers[p].term, p)] == w.peers[p].log
          && !(w.peers[p].term in w.lead && w.lead[w.peers[p].term] == p))
    && (forall p: nat :: p < |w.peers| && w.peers[p].role == Leader ==>
          w.peers[p].term in w.lead && w.lead[w.peers[p].term] == p)
    && (forall t: nat :: t in w.lead ==>
          && w.lead[t] < |w.peers| && t in w.tlog
          && t <= w.peers[w.lead[t]].term
          && (w.peers[w.lead[t]].term == t ==> w.peers[w.lead[t]].log == w.tlog[t]))
  }

  /** An accepted index lies in the leader's log, and while the peer stays in that term
      its log agrees with the leader's that far. */
  ghost predicate Acks(w: World) {
    forall p: nat, t: nat :: (p, t) in w.acks ==>
      && p < |w.peers| && t in w.tlog && w.acks[(p, t)] < |w.tlog[t]| && t <= w.peers[p].term
      && (w.peers[p].term == t ==> Has(w, w.peers[p].log, t, w.acks[(p, t)]))
  }

  /** A peer that accepted a still choosable entry still holds it. */
  ghost predicate HoldersKeep(w: World) {
    forall p: nat, t: nat, i: nat ::
      p < |w.peers| && Acked(w, p, t, i) && OwnEntry(w, t, i) && Choosable(w, t, i) ==>
        Has(w, w.peers[p].log, t, i)
  }

  /** A candidate's log holds every still choosable entry that one of its voters accepted. */
  ghost predicate VotersCarry(w: World) {
    forall v: nat, c: nat, u: nat, t: nat, i: nat ::
      (v, c, u) in w.votes && t < u && Acked(w, v, t, i) && OwnEntry(w, t, i) && Choosable(w, t, i) ==>
        (u, c) in w.bid && Has(w, w.bid[(u, c)], t, i)
  }

  /** A leader's log holds every still choosable entry of every earlier term. */
  ghost predicate LeadersCarry(w: World) {
    forall u: nat, t: nat, i: nat ::
      u in w.lead && t < u && OwnEntry(w, t, i) && Choosable(w, t, i) ==>
        u in w.tlog && Has(w, w.tlog[u], t, i)
  }

  ghost predicate Commits(w: World) {
    && (forall t: nat, i: nat :: (t, i) in w.chosen ==>
          t in w.lead && OwnEntry(w, t, i) && 2 * |Ackers(w, t, i)| >= |w.peers|)
    && (forall p: nat :: p < |w.peers| ==>
          CommitOk(w, w.peers[p].log, w.peers[p].commit, w.peers[p].term))
  }

  ghost predicate Inv(w: World) {
    && Shape(w) && Logs(w) && Terms(w) && Ballots(w) && Roles(w)
    && Acks(w) && HoldersKeep(w) && VotersCarry(w) && LeadersCarry(w) && Commits(w)
  }

  ghost function Start(n: nat): World {
    World(seq(n, (i: nat) => Peer(0, -1, [ZERO], Follower, 0)),
          map[], map[], map[0 := [ZERO]], map[], {}, map[], {})
  }

  // ----- the steps -----

  ghost function SetPeer(w: World, p: nat, q: Peer): World
    requires p < |w.peers|
  {
    w.(peers := w.peers[p := q])
  }

  /** A peer moves to a higher term, or gives up its role in its own term. */
  ghost predicate CanAdopt(w: World, p: nat, t: nat) {
    p < |w.peers| && w.peers[p].term < t
  }

  ghost function Adopt(w: World, p: nat, t: nat): World
    requires CanAdopt(w, p, t)
  {
    SetPeer(w, p, w.peers[p].(term := t, voted := -1, role := Follower))
  }

  ghost predicate CanResign(w: World, p: nat, c: nat) {
    p < |w.peers| && c <= w.peers[p].commit
  }

  /** A peer becomes a follower in its own term; on restart it also forgets part of its commit index. */
  ghost function Resign(w: World, p: nat, c: nat): World
    requires CanResign(w, p, c)
  {
    SetPeer(w, p, w.peers[p].(role := Follower, commit := c))
  }

  ghost predicate CanCampaign(w: World, p: nat) {
    p < |w.peers|
  }

  ghost function Campaign(w: World, p: nat): World
    requires CanCampaign(w, p)
  {
    var t := w.peers[p].term + 1;
    SetPeer(w, p, w.peers[p].(term := t, voted := p, role := Candidate))
    .(bid := w.bid[(t, p) := w.peers[p].log], votes := w.votes + {(p, p, t)})
  }

  ghost predicate CanGrant(w: World, p: nat, c: nat, t: nat) {
    && p < |w.peers| && w.peers[p].term == t
    && (t, c) in w.bid && |w.bid[(t, c)]| > 0 && |w.peers[p].log| > 0
    && (w.peers[p].voted == -1 || w.peers[p].voted == c)
    && UpToDate(w.bid[(t, c)], w.peers[p].log)
  }

  ghost function Grant(w: World, p: nat, c: nat, t: nat): World
    requires CanGrant(w, p, c, t)
  {
    SetPeer(w, p, w.peers[p].(voted := c)).(votes := w.votes + {(p, c, t)})
  }

  ghost predicate CanElect(w: World, p: nat, Q: set<nat>) {
    && p < |w.peers| && w.peers[p].role == Candidate && |w.peers[p].log| > 0
    && Within(Q, |w.peers|) && 2 * |Q| > |w.peers|
    && (forall v :: v in Q ==> (v, p, w.peers[p].term) in w.votes)
  }

  ghost function Elect(w: World, p: nat, Q: set<nat>): World
    requires CanElect(w, p, Q)
  {
    var t, L := w.peers[p].term, w.peers[p].log;
    SetPeer(w, p, w.peers[p].(role := Leader))
    .(lead := w.lead[t := p], quorum := w.quorum[t := Q], tlog := w.tlog[t := L],
      acks := w.acks[(p, t) := |L| - 1])
  }

  ghost predicate CanPropose(w: World, p: nat) {
    p < |w.peers| && w.peers[p].role == Leader
  }

  ghost function Propose(w: World, p: nat, cmd: Command): World
    requires CanPropose(w, p)
  {
    var t := w.peers[p].term;
    var L := w.peers[p].log + [Entry(t, cmd)];
    SetPeer(w, p, w.peers[p].(log := L))
    .(tlog := w.tlog[t := L], acks := w.acks[(p, t) := |L| - 1])
  }

  ghost predicate CanFollow(w: World, p: nat, k: nat, c: nat) {
    && p < |w.peers| && w.peers[p].term in w.lead && w.peers[p].term in w.tlog
    && c < k <= |w.tlog[w.peers[p].term]|
    && CommitOk(w, w.tlog[w.peers[p].term], c, w.peers[p].term)
  }

  /** A peer accepts the first k entries of its term's leader and learns that index c is committed. */
  ghost function Follow(w: World, p: nat, k: nat, c: nat): World
    requires CanFollow(w, p, k, c)
  {
    var P := w.peers[p];
    var t := P.term;
    var a := if (p, t) in w.acks then Max(w.acks[(p, t)], k - 1) else k - 1;
    SetPeer(w, p, P.(log := Adopted(P.log, w.tlog[t][..k]), role := Follower, commit := Max(P.commit, c)))
    .(acks := w.acks[(p, t) := a])
  }

  ghost predicate CanCommit(w: World, p: nat, i: nat, H: set<nat>) {
    && p < |w.peers| && w.peers[p].role == Leader
    && w.peers[p].commit <= i && OwnEntry(w, w.peers[p].term, i)
    && 2 * |H| >= |w.peers|
    && (forall q :: q in H ==> q < |w.peers| && Acked(w, q, w.peers[p].term, i))
  }

  ghost function Commit(w: World, p: nat, i: nat): World
    requires p < |w.peers|
  {
    SetPeer(w, p, w.peers[p].(commit := i)).(chosen := w.chosen + {(w.peers[p].term, i)})
  }

  // ----- history only grows -----

  ghost predicate Grows(w: World, w': World) {
    && |w.peers| == |w'.peers|
    && (forall p: nat :: p < |w.peers| ==> w.peers[p].term <= w'.peers[p].term)
    && (forall t :: t in w.lead ==> t in w'.lead && w'.lead[t] == w.lead[t])
    && (forall t :: t in w.tlog ==> t in w'.tlog && w.tlog[t] <= w'.tlog[t])
    && (forall k :: k in w.bid ==> k in w'.bid && w'.bid[k] == w.bid[k])
    && w.votes <= w'.votes
    && w.chosen <= w'.chosen
    && AcksGrow(w, w')
  }

  ghost predicate AcksGrow(w: World, w': World) {
    && (forall p: nat, t: nat, i: nat :: Acked(w, p, t, i) ==> Acked(w', p, t, i))
    && (forall p: nat, t: nat, i: nat :: p < |w.peers| && Acked(w', p, t, i) ==>
          Acked(w, p, t, i) || w.peers[p].term <= t)
  }

  lemma GrowsReflexive(w: World)
    ensures Grows(w, w)
  {
  }

  lemma GrowsTransitive(a: World, b: World, c: World)
    requires Grows(a, b) && Grows(b, c)
    ensures Grows(a, c)
  {
    forall p: nat, t: nat, i: nat | p < |a.peers| && Acked(c, p, t, i)
      ensures Acked(a, p, t, i) || a.peers[p].term <= t
    {
      assert Acked(b, p, t, i) || b.peers[p].term <= t;
      assert a.peers[p].term <= b.peers[p].term;
    }
    forall t | t in a.tlog
      ensures t in c.tlog && a.tlog[t] <= c.tlog[t]
    {
      assert a.tlog[t] <= b.tlog[t] <= c.tlog[t];
    }
  }

  lemma HasGrows(w: World, w': World, L: seq<Entry>, t: nat, i: nat)
    requires Grows(w, w') && Has(w, L, t, i)
    ensures Has(w', L, t, i)
  {
    assert w.tlog[t] <= w'.tlog[t];
    assert w'.tlog[t][..i + 1] == w.tlog[t][..i + 1];
  }

  /** An entry that was not choosable never becomes so. */
  lemma ChoosableShrinks(w: World, w': World, t: nat, i: nat)
    requires Grows(w, w') && Choosable(w', t, i)
    ensures Choosable(w, t, i)
  {
    forall p | p in Potential(w', t, i)
      ensures p in Potential(w, t, i)
    {
      assert p < |w.peers|;
      if Acked(w', p, t, i) {
        assert Acked(w, p, t, i) || w.peers[p].term <= t;
      }
    }
    SubsetCard(Potential(w', t, i), Potential(w, t, i));
  }

  lemma MatchesGrows(w: World, w': World, L: seq<Entry>)
    requires Grows(w, w') && Matches(w, L)
    ensures Matches(w', L)
  {
    forall i: nat | i < |L|
      ensures Has(w', L, L[i].term, i)
    {
      HasGrows(w, w', L, L[i].term, i);
    }
  }

  lemma CommitOkGrows(w: World, w': World, L: seq<Entry>, L': seq<Entry>, c: nat, t: nat, t': nat)
    requires Grows(w, w') && CommitOk(w, L, c, t) && t <= t'
    requires c < |L'| && L'[..c + 1] == L[..c + 1]
    ensures CommitOk(w', L', c, t')
  {
    if c > 0 {
      var u: nat, i: nat :| CommitBy(w, L, c, t, u, i);
      HasGrows(w, w', L, u, c);
      assert Has(w', L', u, c);
      assert CommitBy(w', L', c, t', u, i);
    }
  }
}
