/** Every step of Consensus keeps its invariant. */
module ConsensusProof {
  import opened Quorum
  import opened RaftTypes
  import opened Consensus

  // ----- facts about one world -----

  /** Log matching: equal terms at an index mean equal logs up to it. */
  lemma LogMatching(w: World, L: seq<Entry>, M: seq<Entry>, i: nat)
    requires Matches(w, L) && Matches(w, M)
    requires i < |L| && i < |M| && L[i].term == M[i].term
    ensures L[..i + 1] == M[..i + 1]
  {
    assert Has(w, L, L[i].term, i) && Has(w, M, M[i].term, i);
  }

  /** Terms never decrease along a log. */
  lemma TermsAscend(w: World, L: seq<Entry>, i: nat, j: nat)
    requires Terms(w) && Matches(w, L) && i <= j < |L|
    ensures L[i].term <= L[j].term
  {
    var t := L[j].term;
    assert Has(w, L, t, j);
    assert L[i] == L[..j + 1][i] == w.tlog[t][..j + 1][i] == w.tlog[t][i];
    assert TermsBelow(w.tlog[t], t);
  }

  lemma HeldTerms(w: World, L: seq<Entry>, t: nat, i: nat)
    requires Terms(w) && Has(w, L, t, i)
    ensures forall x :: 0 <= x <= i ==> L[x].term <= t
  {
    forall x | 0 <= x <= i
      ensures L[x].term <= t
    {
      assert L[x] == L[..i + 1][x] == w.tlog[t][..i + 1][x] == w.tlog[t][x];
      assert TermsBelow(w.tlog[t], t);
    }
  }

  lemma HasShorter(w: World, L: seq<Entry>, t: nat, i: nat, j: nat)
    requires Has(w, L, t, j) && i <= j
    ensures Has(w, L, t, i)
  {
    assert L[..i + 1] == L[..j + 1][..i + 1];
    assert w.tlog[t][..i + 1] == w.tlog[t][..j + 1][..i + 1];
  }

  lemma HasPrefix(w: World, L: seq<Entry>, M: seq<Entry>, t: nat, i: nat)
    requires Has(w, L, t, i) && L <= M
    ensures Has(w, M, t, i)
  {
    assert M[..i + 1] == L[..i + 1];
  }

  lemma MatchesPrefix(w: World, L: seq<Entry>, k: nat)
    requires Matches(w, L) && 0 < k <= |L|
    ensures Matches(w, L[..k])
  {
    var M := L[..k];
    forall i: nat | i < |M|
      ensures Has(w, M, M[i].term, i)
    {
      assert Has(w, L, L[i].term, i);
      assert M[..i + 1] == L[..i + 1];
    }
  }

  /** A log that passed a holder's vote check holds the holder's choosable entries too. */
  lemma UpToDateCarries(w: World, C: seq<Entry>, L: seq<Entry>, t: nat, i: nat)
    requires Shape(w) && Terms(w) && Logs(w) && LeadersCarry(w) && Matches(w, C) && Matches(w, L)
    requires UpToDate(C, L) && Has(w, L, t, i) && OwnEntry(w, t, i) && Choosable(w, t, i)
    ensures Has(w, C, t, i)
  {
    var x, y := |C| - 1, |L| - 1;
    var u := C[x].term;
    assert L[i] == L[..i + 1][i] == w.tlog[t][..i + 1][i];
    TermsAscend(w, L, i, y);
    if u == L[y].term {
      assert Has(w, C, u, x) && Has(w, L, u, y);
      assert C[..x + 1] == C && L[..y + 1] == L;
      assert w.tlog[u][..y + 1] <= w.tlog[u][..x + 1];
      HasPrefix(w, L, C, t, i);
    } else {
      assert Has(w, C, u, x);
      assert u in w.lead;
      assert Has(w, w.tlog[u], t, i);
      assert w.tlog[u][x] == w.tlog[u][..x + 1][x] == C[..x + 1][x] == C[x];
      HeldTerms(w, w.tlog[u], t, i);
      assert C[..x + 1] == C;
      assert C[..i + 1] == C[..x + 1][..i + 1] == w.tlog[u][..x + 1][..i + 1] == w.tlog[u][..i + 1];
    }
  }

  /** Some voter of every later elected term accepted a choosable entry. */
  lemma VoterAccepted(w: World, u: nat, t: nat, i: nat) returns (v: nat)
    requires Shape(w) && Ballots(w) && u in w.lead && t < u && Choosable(w, t, i)
    ensures v in w.quorum[u] && Acked(w, v, t, i) && (v, w.lead[u], u) in w.votes
  {
    v := QuorumsMeet(|w.peers|, w.quorum[u], Potential(w, t, i));
    assert (v, w.lead[u], u) in w.votes;
  }

  lemma ChosenIsChoosable(w: World, t: nat, i: nat)
    requires Commits(w) && (t, i) in w.chosen
    ensures OwnEntry(w, t, i) && Choosable(w, t, i)
  {
    SubsetCard(Ackers(w, t, i), Potential(w, t, i));
  }

  // ----- clauses that survive any step that leaves the leaders' logs alone -----

  ghost predicate SameLeaders(w: World, w': World) {
    w'.tlog == w.tlog && w'.lead == w.lead && w'.quorum == w.quorum
  }

  lemma LeadersCarryFrame(w: World, w': World)
    requires Grows(w, w') && SameLeaders(w, w') && LeadersCarry(w)
    ensures LeadersCarry(w')
  {
    forall u: nat, t: nat, i: nat | u in w'.lead && t < u && OwnEntry(w', t, i) && Choosable(w', t, i)
      ensures u in w'.tlog && Has(w', w'.tlog[u], t, i)
    {
      ChoosableShrinks(w, w', t, i);
      assert OwnEntry(w, t, i);
      assert Has(w, w.tlog[u], t, i);
    }
  }

  lemma HoldersKeepFrame(w: World, w': World)
    requires Grows(w, w') && SameLeaders(w, w') && HoldersKeep(w) && w'.acks == w.acks
    requires forall p: nat :: p < |w.peers| ==> w'.peers[p].log == w.peers[p].log
    ensures HoldersKeep(w')
  {
    forall p: nat, t: nat, i: nat |
      p < |w'.peers| && Acked(w', p, t, i) && OwnEntry(w', t, i) && Choosable(w', t, i)
      ensures Has(w', w'.peers[p].log, t, i)
    {
      ChoosableShrinks(w, w', t, i);
      assert Acked(w, p, t, i) && OwnEntry(w, t, i);
      assert Has(w, w.peers[p].log, t, i);
    }
  }

  /** Votes cast before the step still carry what their voters had accepted. */
  lemma VotersCarryFrame(w: World, w': World, v: nat, c: nat, u: nat, t: nat, i: nat)
    requires Grows(w, w') && Ballots(w) && VotersCarry(w) && (v, c, u) in w.votes && t < u
    requires Acked(w', v, t, i) && OwnEntry(w, t, i) && Choosable(w', t, i)
    ensures (u, c) in w'.bid && Has(w', w'.bid[(u, c)], t, i)
  {
    assert v < |w.peers| && u <= w.peers[v].term;
    assert Acked(w, v, t, i);
    ChoosableShrinks(w, w', t, i);
    assert Has(w, w.bid[(u, c)], t, i);
    HasGrows(w, w', w.bid[(u, c)], t, i);
  }

  lemma ChosenFrame(w: World, w': World, t: nat, i: nat)
    requires Grows(w, w') && Commits(w) && (t, i) in w.chosen
    ensures t in w'.lead && OwnEntry(w', t, i) && 2 * |Ackers(w', t, i)| >= |w'.peers|
  {
    assert w.tlog[t] <= w'.tlog[t];
    SubsetCard(Ackers(w, t, i), Ackers(w', t, i));
  }

  // ----- Adopt and Resign -----

  lemma AdoptKeeps(w: World, p: nat, t: nat)
    requires Inv(w) && CanAdopt(w, p, t)
    ensures Inv(Adopt(w, p, t)) && Grows(w, Adopt(w, p, t))
  {
    QuietKeeps(w, p, w.peers[p].(term := t, voted := -1, role := Follower));
  }

  lemma ResignKeeps(w: World, p: nat, c: nat)
    requires Inv(w) && CanResign(w, p, c)
    ensures Inv(Resign(w, p, c)) && Grows(w, Resign(w, p, c))
  {
    QuietKeeps(w, p, w.peers[p].(role := Follower, commit := c));
  }

  lemma CommitOkLower(w: World, L: seq<Entry>, c: nat, d: nat, t: nat)
    requires CommitOk(w, L, c, t) && d <= c
    ensures CommitOk(w, L, d, t)
  {
    if d > 0 {
      var u: nat, i: nat :| CommitBy(w, L, c, t, u, i);
      HasShorter(w, L, u, d, c);
      assert CommitBy(w, L, d, t, u, i);
    }
  }

  /** A peer that becomes a follower, keeping its log, at a term no lower than before. */
  ghost predicate Quiet(P: Peer, P': Peer) {
    && P'.role == Follower && P'.log == P.log && P.term <= P'.term && P'.commit <= P.commit
    && (P.term == P'.term ==> P'.voted == P.voted)
  }

  lemma QuietKeeps(w: World, p: nat, P: Peer)
    requires Inv(w) && p < |w.peers| && Quiet(w.peers[p], P)
    ensures Inv(SetPeer(w, p, P)) && Grows(w, SetPeer(w, p, P))
  {
    var w' := SetPeer(w, p, P);
    QuietGrows(w, p, P);
    QuietTerms(w, p, P);
    QuietBallots(w, p, P);
    QuietRoles(w, p, P);
    QuietAcks(w, p, P);
    LeadersCarryFrame(w, w');
    HoldersKeepFrame(w, w');
    VotersCarryQuiet(w, w');
    LogsFrame(w, w');
    QuietCommits(w, p, P);
  }

  lemma QuietGrows(w: World, p: nat, P: Peer)
    requires Shape(w) && p < |w.peers| && Quiet(w.peers[p], P)
    ensures Grows(w, SetPeer(w, p, P)) && Shape(SetPeer(w, p, P))
  {
  }

  lemma QuietTerms(w: World, p: nat, P: Peer)
    requires Terms(w) && p < |w.peers| && Quiet(w.peers[p], P)
    ensures Terms(SetPeer(w, p, P))
  {
    assert TermsBelow(P.log, P.term);
  }

  lemma QuietBallots(w: World, p: nat, P: Peer)
    requires Ballots(w) && p < |w.peers| && Quiet(w.peers[p], P)
    ensures Ballots(SetPeer(w, p, P))
  {
  }

  lemma QuietRoles(w: World, p: nat, P: Peer)
    requires Roles(w) && p < |w.peers| && Quiet(w.peers[p], P)
    ensures Roles(SetPeer(w, p, P))
  {
  }

  lemma QuietAcks(w: World, p: nat, P: Peer)
    requires Acks(w) && p < |w.peers| && Quiet(w.peers[p], P)
    ensures Acks(SetPeer(w, p, P))
  {
    var w' := SetPeer(w, p, P);
    forall q: nat, t: nat | (q, t) in w'.acks && w'.peers[q].term == t
      ensures Has(w', w'.peers[q].log, t, w'.acks[(q, t)])
    {
      assert Has(w, w.peers[q].log, t, w.acks[(q, t)]);
    }
  }

  lemma QuietCommits(w: World, p: nat, P: Peer)
    requires Commits(w) && p < |w.peers| && Quiet(w.peers[p], P) && Grows(w, SetPeer(w, p, P))
    ensures Commits(SetPeer(w, p, P))
  {
    var w' := SetPeer(w, p, P);
    ChosenKept(w, w');
    forall q: nat | q < |w'.peers|
      ensures CommitOk(w', w'.peers[q].log, w'.peers[q].commit, w'.peers[q].term)
    {
      CommitOkLower(w, w.peers[q].log, w.peers[q].commit, w'.peers[q].commit, w.peers[q].term);
      CommitOkGrows(w, w', w.peers[q].log, w'.peers[q].log, w'.peers[q].commit, w.peers[q].term, w'.peers[q].term);
    }
  }

  lemma ChosenKept(w: World, w': World)
    requires Grows(w, w') && Commits(w)
    ensures forall t: nat, i: nat :: (t, i) in w.chosen ==>
      t in w'.lead && OwnEntry(w', t, i) && 2 * |Ackers(w', t, i)| >= |w'.peers|
  {
    forall t: nat, i: nat | (t, i) in w.chosen
      ensures t in w'.lead && OwnEntry(w', t, i) && 2 * |Ackers(w', t, i)| >= |w'.peers|
    {
      ChosenFrame(w, w', t, i);
    }
  }

  lemma VotersCarryQuiet(w: World, w': World)
    requires Grows(w, w') && w'.tlog == w.tlog && w'.votes == w.votes && Ballots(w) && VotersCarry(w)
    ensures VotersCarry(w')
  {
    forall v: nat, c: nat, u: nat, t: nat, i: nat |
      (v, c, u) in w'.votes && t < u && Acked(w', v, t, i) && OwnEntry(w', t, i) && Choosable(w', t, i)
      ensures (u, c) in w'.bid && Has(w', w'.bid[(u, c)], t, i)
    {
      assert OwnEntry(w, t, i);
      VotersCarryFrame(w, w', v, c, u, t, i);
    }
  }

  lemma LogsFrame(w: World, w': World)
    requires Grows(w, w') && SameLeaders(w, w') && Logs(w) && w'.bid == w.bid
    requires forall p: nat :: p < |w.peers| ==> w'.peers[p].log == w.peers[p].log
    ensures Logs(w')
  {
    forall p: nat | p < |w'.peers| ensures Matches(w', w'.peers[p].log) { MatchesGrows(w, w', w.peers[p].log); }
    forall t | t in w'.tlog ensures Matches(w', w'.tlog[t]) { MatchesGrows(w, w', w.tlog[t]); }
    forall k | k in w'.bid ensures Matches(w', w'.bid[k]) { MatchesGrows(w, w', w.bid[k]); }
  }

  lemma StartHolds(n: nat)
    requires n > 0
    ensures Inv(Start(n))
  {
    var w := Start(n);
    assert Has(w, [ZERO], 0, 0);
  }

  // ----- Campaign -----

  lemma CampaignKeeps(w: World, p: nat)
    requires Inv(w) && CanCampaign(w, p)
    ensures Inv(Campaign(w, p)) && Grows(w, Campaign(w, p))
  {
    CampaignBasics(w, p);
    CampaignCarries(w, p);
    CampaignVoters(w, p);
    CampaignCommits(w, p);
  }

  lemma CampaignBasics(w: World, p: nat)
    requires Shape(w) && Logs(w) && Terms(w) && Ballots(w) && Roles(w) && Acks(w) && CanCampaign(w, p)
    ensures var w' := Campaign(w, p);
      Grows(w, w') && Shape(w') && Logs(w') && Terms(w') && Ballots(w') && Roles(w') && Acks(w')
  {
    CampaignGrows(w, p);
    CampaignLogs(w, p);
    CampaignBallots(w, p);
    CampaignRoles(w, p);
    CampaignAcks(w, p);
  }

  lemma CampaignCarries(w: World, p: nat)
    requires HoldersKeep(w) && LeadersCarry(w) && CanCampaign(w, p) && Grows(w, Campaign(w, p))
    ensures HoldersKeep(Campaign(w, p)) && LeadersCarry(Campaign(w, p))
  {
    LeadersCarryFrame(w, Campaign(w, p));
    HoldersKeepFrame(w, Campaign(w, p));
  }

  lemma CampaignCommits(w: World, p: nat)
    requires Commits(w) && CanCampaign(w, p) && Grows(w, Campaign(w, p))
    ensures Commits(Campaign(w, p))
  {
    CommitsFrame(w, Campaign(w, p));
  }

  lemma CampaignGrows(w: World, p: nat)
    requires Shape(w) && Ballots(w) && CanCampaign(w, p)
    ensures Grows(w, Campaign(w, p)) && Shape(Campaign(w, p))
  {
    assert (w.peers[p].term + 1, p) !in w.bid;
  }

  lemma CampaignLogs(w: World, p: nat)
    requires Logs(w) && Terms(w) && CanCampaign(w, p) && Grows(w, Campaign(w, p))
    ensures Logs(Campaign(w, p)) && Terms(Campaign(w, p))
  {
    var w' := Campaign(w, p);
    forall q: nat | q < |w'.peers| ensures Matches(w', w'.peers[q].log) { MatchesGrows(w, w', w.peers[q].log); }
    forall t | t in w'.tlog ensures Matches(w', w'.tlog[t]) { MatchesGrows(w, w', w.tlog[t]); }
    forall k | k in w'.bid ensures Matches(w', w'.bid[k]) {
      MatchesGrows(w, w', if k in w.bid then w.bid[k] else w.peers[p].log);
    }
    assert TermsBelow(w.peers[p].log, w.peers[p].term);
    assert TermsBelow(w.peers[p].log, w.peers[p].term + 1);
  }

  lemma CampaignBallots(w: World, p: nat)
    requires Ballots(w) && CanCampaign(w, p)
    ensures Ballots(Campaign(w, p))
  {
  }

  lemma CampaignRoles(w: World, p: nat)
    requires Roles(w) && CanCampaign(w, p) && Grows(w, Campaign(w, p))
    ensures Roles(Campaign(w, p))
  {
  }

  lemma CampaignAcks(w: World, p: nat)
    requires Acks(w) && CanCampaign(w, p)
    ensures Acks(Campaign(w, p))
  {
    var w' := Campaign(w, p);
    forall q: nat, t: nat | (q, t) in w'.acks && w'.peers[q].term == t
      ensures Has(w', w'.peers[q].log, t, w'.acks[(q, t)])
    {
      assert Has(w, w.peers[q].log, t, w.acks[(q, t)]);
    }
  }

  lemma CampaignVoters(w: World, p: nat)
    requires Inv(w) && CanCampaign(w, p) && Grows(w, Campaign(w, p))
    ensures VotersCarry(Campaign(w, p))
  {
    var w' := Campaign(w, p);
    forall v: nat, c: nat, u: nat, t: nat, i: nat |
      (v, c, u) in w'.votes && t < u && Acked(w', v, t, i) && OwnEntry(w', t, i) && Choosable(w', t, i)
      ensures (u, c) in w'.bid && Has(w', w'.bid[(u, c)], t, i)
    {
      assert OwnEntry(w, t, i);
      if (v, c, u) in w.votes {
        VotersCarryFrame(w, w', v, c, u, t, i);
      } else {
        ChoosableShrinks(w, w', t, i);
        assert Acked(w, p, t, i);
        assert Has(w, w.peers[p].log, t, i);
      }
    }
  }

  /** Commit indexes survive a step that leaves the logs, commit indexes and chosen entries alone. */
  lemma CommitsFrame(w: World, w': World)
    requires Grows(w, w') && Commits(w) && w'.chosen == w.chosen
    requires forall p: nat :: p < |w.peers| ==>
      w.peers[p].log <= w'.peers[p].log && w'.peers[p].commit == w.peers[p].commit
    ensures Commits(w')
  {
    ChosenKept(w, w');
    forall q: nat | q < |w'.peers|
      ensures CommitOk(w', w'.peers[q].log, w'.peers[q].commit, w'.peers[q].term)
    {
      var L, c := w.peers[q].log, w.peers[q].commit;
      assert CommitOk(w, L, c, w.peers[q].term);
      assert w'.peers[q].log[..c + 1] == L[..c + 1];
      CommitOkGrows(w, w', L, w'.peers[q].log, c, w.peers[q].term, w'.peers[q].term);
    }
  }

  // ----- Grant -----

  lemma GrantKeeps(w: World, p: nat, c: nat, t: nat)
    requires Inv(w) && CanGrant(w, p, c, t)
    ensures Inv(Grant(w, p, c, t)) && Grows(w, Grant(w, p, c, t))
  {
    var w' := Grant(w, p, c, t);
    GrantGrows(w, p, c, t);
    LogsFrame(w, w');
    GrantBallots(w, p, c, t);
    GrantRoles(w, p, c, t);
    LeadersCarryFrame(w, w');
    HoldersKeepFrame(w, w');
    GrantVoters(w, p, c, t);
    CommitsFrame(w, w');
  }

  lemma GrantGrows(w: World, p: nat, c: nat, t: nat)
    requires Shape(w) && CanGrant(w, p, c, t)
    ensures Grows(w, Grant(w, p, c, t)) && Shape(Grant(w, p, c, t))
  {
  }

  lemma GrantBallots(w: World, p: nat, c: nat, t: nat)
    requires Ballots(w) && Terms(w) && CanGrant(w, p, c, t)
    ensures Ballots(Grant(w, p, c, t)) && Terms(Grant(w, p, c, t))
  {
    var w' := Grant(w, p, c, t);
    assert TermsBelow(w.peers[p].log, t);
    forall v: nat, a: nat, b: nat, u: nat | (v, a, u) in w'.votes && (v, b, u) in w'.votes
      ensures a == b
    {
    }
  }

  lemma GrantRoles(w: World, p: nat, c: nat, t: nat)
    requires Roles(w) && Acks(w) && CanGrant(w, p, c, t)
    ensures Roles(Grant(w, p, c, t)) && Acks(Grant(w, p, c, t))
  {
    var w' := Grant(w, p, c, t);
    forall q: nat, u: nat | (q, u) in w'.acks && w'.peers[q].term == u
      ensures Has(w', w'.peers[q].log, u, w'.acks[(q, u)])
    {
      assert Has(w, w.peers[q].log, u, w.acks[(q, u)]);
    }
  }

  lemma GrantVoters(w: World, p: nat, c: nat, t: nat)
    requires Inv(w) && CanGrant(w, p, c, t) && Grows(w, Grant(w, p, c, t))
    ensures VotersCarry(Grant(w, p, c, t))
  {
    var w' := Grant(w, p, c, t);
    forall v: nat, d: nat, u: nat, s: nat, i: nat |
      (v, d, u) in w'.votes && s < u && Acked(w', v, s, i) && OwnEntry(w', s, i) && Choosable(w', s, i)
      ensures (u, d) in w'.bid && Has(w', w'.bid[(u, d)], s, i)
    {
      assert OwnEntry(w, s, i);
      if (v, d, u) in w.votes {
        VotersCarryFrame(w, w', v, d, u, s, i);
      } else {
        ChoosableShrinks(w, w', s, i);
        assert Acked(w, p, s, i);
        UpToDateCarries(w, w.bid[(t, c)], w.peers[p].log, s, i);
      }
    }
  }

  // ----- Elect -----

  /** Two quorums of votes in one term are for one candidate. */
  lemma ElectUnique(w: World, p: nat, Q: set<nat>)
    requires Shape(w) && Ballots(w) && CanElect(w, p, Q) && w.peers[p].term in w.lead
    ensures w.lead[w.peers[p].term] == p
  {
    var t := w.peers[p].term;
    var v := QuorumsMeet(|w.peers|, Q, w.quorum[t]);
    assert (v, p, t) in w.votes && (v, w.lead[t], t) in w.votes;
  }

  lemma ElectFresh(w: World, p: nat, Q: set<nat>)
    requires Shape(w) && Ballots(w) && Roles(w) && CanElect(w, p, Q)
    ensures w.peers[p].term !in w.lead && w.peers[p].term > 0
  {
    if w.peers[p].term in w.lead {
      ElectUnique(w, p, Q);
    }
  }

  lemma ElectKeeps(w: World, p: nat, Q: set<nat>)
    requires Inv(w) && CanElect(w, p, Q)
    ensures Inv(Elect(w, p, Q)) && Grows(w, Elect(w, p, Q))
  {
    ElectBasics(w, p, Q);
    ElectCarries(w, p, Q);
    ElectCommits(w, p, Q);
  }

  lemma ElectCommits(w: World, p: nat, Q: set<nat>)
    requires Commits(w) && CanElect(w, p, Q) && Grows(w, Elect(w, p, Q))
    ensures Commits(Elect(w, p, Q))
  {
    CommitsFrame(w, Elect(w, p, Q));
  }

  lemma ElectCarries(w: World, p: nat, Q: set<nat>)
    requires Terms(w) && Ballots(w) && Roles(w) && HoldersKeep(w) && VotersCarry(w) && LeadersCarry(w)
    requires CanElect(w, p, Q) && Grows(w, Elect(w, p, Q)) && Shape(Elect(w, p, Q)) && Ballots(Elect(w, p, Q))
    ensures var w' := Elect(w, p, Q); HoldersKeep(w') && VotersCarry(w') && LeadersCarry(w')
  {
    ElectOwn(w, p, Q);
    ElectHolders(w, p, Q);
    ElectVoters(w, p, Q);
    ElectLeaders(w, p, Q);
  }

  lemma ElectBasics(w: World, p: nat, Q: set<nat>)
    requires Shape(w) && Logs(w) && Terms(w) && Ballots(w) && Roles(w) && Acks(w) && CanElect(w, p, Q)
    ensures Grows(w, Elect(w, p, Q)) && Shape(Elect(w, p, Q)) && Logs(Elect(w, p, Q)) && Terms(Elect(w, p, Q))
    ensures Ballots(Elect(w, p, Q)) && Roles(Elect(w, p, Q)) && Acks(Elect(w, p, Q))
  {
    ElectFresh(w, p, Q);
    ElectGrows(w, p, Q);
    ElectShape(w, p, Q);
    ElectLogs(w, p, Q);
    ElectBallots(w, p, Q);
    ElectRoles(w, p, Q);
    ElectAcks(w, p, Q);
  }

  lemma ElectGrows(w: World, p: nat, Q: set<nat>)
    requires Shape(w) && Acks(w) && CanElect(w, p, Q) && w.peers[p].term !in w.lead && w.peers[p].term > 0
    ensures Grows(w, Elect(w, p, Q))
  {
    assert (p, w.peers[p].term) !in w.acks;
  }

  lemma ElectShape(w: World, p: nat, Q: set<nat>)
    requires Shape(w) && CanElect(w, p, Q) && w.peers[p].term > 0
    ensures Shape(Elect(w, p, Q))
  {
  }

  lemma ElectLogs(w: World, p: nat, Q: set<nat>)
    requires Logs(w) && Terms(w) && CanElect(w, p, Q) && Grows(w, Elect(w, p, Q))
    ensures Logs(Elect(w, p, Q)) && Terms(Elect(w, p, Q))
  {
    var w' := Elect(w, p, Q);
    forall q: nat | q < |w'.peers| ensures Matches(w', w'.peers[q].log) { MatchesGrows(w, w', w.peers[q].log); }
    forall t | t in w'.tlog ensures Matches(w', w'.tlog[t]) {
      MatchesGrows(w, w', if t == w.peers[p].term then w.peers[p].log else w.tlog[t]);
    }
    forall k | k in w'.bid ensures Matches(w', w'.bid[k]) { MatchesGrows(w, w', w.bid[k]); }
  }

  lemma ElectBallots(w: World, p: nat, Q: set<nat>)
    requires Ballots(w) && CanElect(w, p, Q)
    ensures Ballots(Elect(w, p, Q))
  {
  }

  lemma ElectRoles(w: World, p: nat, Q: set<nat>)
    requires Roles(w) && CanElect(w, p, Q) && w.peers[p].term !in w.lead
    ensures Roles(Elect(w, p, Q))
  {
  }

  lemma ElectAcks(w: World, p: nat, Q: set<nat>)
    requires Acks(w) && CanElect(w, p, Q) && Grows(w, Elect(w, p, Q))
    ensures Acks(Elect(w, p, Q))
  {
    var w' := Elect(w, p, Q);
    forall q: nat, t: nat | (q, t) in w'.acks && w'.peers[q].term == t
      ensures Has(w', w'.peers[q].log, t, w'.acks[(q, t)])
    {
      if (q, t) != (p, w.peers[p].term) {
        HasGrows(w, w', w.peers[q].log, t, w.acks[(q, t)]);
      }
    }
  }

  /** The new leader has made no entry of its own yet. */
  lemma ElectOwn(w: World, p: nat, Q: set<nat>)
    requires Terms(w) && Roles(w) && CanElect(w, p, Q)
    ensures forall t: nat, i: nat :: OwnEntry(Elect(w, p, Q), t, i) ==> t != w.peers[p].term && OwnEntry(w, t, i)
  {
    var t := w.peers[p].term;
    var L := w.bid[(t, p)];
    var k: (int, int) := (t, p);
    assert TermsBelow(L, k.0 - 1);
    assert forall i :: 0 <= i < |L| ==> L[i].term < t;
  }

  lemma ElectHolders(w: World, p: nat, Q: set<nat>)
    requires HoldersKeep(w) && CanElect(w, p, Q) && Grows(w, Elect(w, p, Q))
    requires forall t: nat, i: nat :: OwnEntry(Elect(w, p, Q), t, i) ==> t != w.peers[p].term && OwnEntry(w, t, i)
    ensures HoldersKeep(Elect(w, p, Q))
  {
    var w' := Elect(w, p, Q);
    forall q: nat, t: nat, i: nat |
      q < |w'.peers| && Acked(w', q, t, i) && OwnEntry(w', t, i) && Choosable(w', t, i)
      ensures Has(w', w'.peers[q].log, t, i)
    {
      ChoosableShrinks(w, w', t, i);
      assert Acked(w, q, t, i) && OwnEntry(w, t, i);
      HasGrows(w, w', w.peers[q].log, t, i);
    }
  }

  lemma ElectVoters(w: World, p: nat, Q: set<nat>)
    requires Ballots(w) && VotersCarry(w) && CanElect(w, p, Q) && Grows(w, Elect(w, p, Q))
    requires forall t: nat, i: nat :: OwnEntry(Elect(w, p, Q), t, i) ==> t != w.peers[p].term && OwnEntry(w, t, i)
    ensures VotersCarry(Elect(w, p, Q))
  {
    var w' := Elect(w, p, Q);
    forall v: nat, c: nat, u: nat, t: nat, i: nat |
      (v, c, u) in w'.votes && t < u && Acked(w', v, t, i) && OwnEntry(w', t, i) && Choosable(w', t, i)
      ensures (u, c) in w'.bid && Has(w', w'.bid[(u, c)], t, i)
    {
      assert OwnEntry(w, t, i);
      VotersCarryFrame(w, w', v, c, u, t, i);
    }
  }

  lemma ElectLeaders(w: World, p: nat, Q: set<nat>)
    requires LeadersCarry(w) && Roles(w) && CanElect(w, p, Q) && Grows(w, Elect(w, p, Q))
    requires Shape(Elect(w, p, Q)) && Ballots(Elect(w, p, Q)) && VotersCarry(Elect(w, p, Q))
    requires forall t: nat, i: nat :: OwnEntry(Elect(w, p, Q), t, i) ==> t != w.peers[p].term && OwnEntry(w, t, i)
    ensures LeadersCarry(Elect(w, p, Q))
  {
    var w' := Elect(w, p, Q);
    forall u: nat, t: nat, i: nat | u in w'.lead && t < u && OwnEntry(w', t, i) && Choosable(w', t, i)
      ensures u in w'.tlog && Has(w', w'.tlog[u], t, i)
    {
      if u == w.peers[p].term {
        var v := VoterAccepted(w', u, t, i);
        assert (v, p, u) in w'.votes;
      } else {
        ChoosableShrinks(w, w', t, i);
        assert OwnEntry(w, t, i);
        HasGrows(w, w', w.tlog[u], t, i);
      }
    }
  }

  // ----- Propose -----

  lemma ProposeKeeps(w: World, p: nat, cmd: Command)
    requires Inv(w) && CanPropose(w, p)
    ensures Inv(Propose(w, p, cmd)) && Grows(w, Propose(w, p, cmd))
  {
    ProposeBasics(w, p, cmd);
    ProposeHolders(w, p, cmd);
    ProposeVoters(w, p, cmd);
    ProposeLeaders(w, p, cmd);
    ProposeCommits(w, p, cmd);
  }

  lemma ProposeCommits(w: World, p: nat, cmd: Command)
    requires Commits(w) && CanPropose(w, p) && Grows(w, Propose(w, p, cmd))
    ensures Commits(Propose(w, p, cmd))
  {
    CommitsFrame(w, Propose(w, p, cmd));
  }

  lemma ProposeBasics(w: World, p: nat, cmd: Command)
    requires Shape(w) && Logs(w) && Terms(w) && Ballots(w) && Roles(w) && Acks(w) && CanPropose(w, p)
    ensures var w' := Propose(w, p, cmd);
      Grows(w, w') && Shape(w') && Logs(w') && Terms(w') && Ballots(w') && Roles(w') && Acks(w')
  {
    ProposeGrows(w, p, cmd);
    ProposeLogs(w, p, cmd);
    ProposeShape(w, p, cmd);
    ProposeBallots(w, p, cmd);
    ProposeRoles(w, p, cmd);
    ProposeAcks(w, p, cmd);
  }

  lemma ProposeGrows(w: World, p: nat, cmd: Command)
    requires Roles(w) && Acks(w) && CanPropose(w, p)
    ensures Grows(w, Propose(w, p, cmd))
  {
    ProposeBase(w, p);
    ProposeAcksGrow(w, p, cmd);
  }

  lemma ProposeAcksGrow(w: World, p: nat, cmd: Command)
    requires Acks(w) && CanPropose(w, p)
    requires w.peers[p].term in w.tlog && w.peers[p].log == w.tlog[w.peers[p].term]
    ensures AcksGrow(w, Propose(w, p, cmd))
  {
    var t := w.peers[p].term;
    assert (p, t) in w.acks ==> w.acks[(p, t)] < |w.tlog[t]|;
  }

  lemma ProposeBase(w: World, p: nat)
    requires Roles(w) && CanPropose(w, p)
    ensures var t := w.peers[p].term; t in w.lead && w.lead[t] == p && t in w.tlog && w.peers[p].log == w.tlog[t]
  {
  }

  lemma ProposeLogs(w: World, p: nat, cmd: Command)
    requires Logs(w) && Terms(w) && CanPropose(w, p) && Grows(w, Propose(w, p, cmd))
    ensures Logs(Propose(w, p, cmd)) && Terms(Propose(w, p, cmd))
  {
    var w' := Propose(w, p, cmd);
    var t, L := w.peers[p].term, w'.peers[p].log;
    MatchesGrows(w, w', w.peers[p].log);
    forall i: nat | i < |L|
      ensures Has(w', L, L[i].term, i)
    {
      if i < |w.peers[p].log| {
        assert L[i] == w.peers[p].log[i];
        HasPrefix(w', w.peers[p].log, L, L[i].term, i);
      }
    }
    forall q: nat | q < |w'.peers| ensures Matches(w', w'.peers[q].log) {
      if q != p { MatchesGrows(w, w', w.peers[q].log); }
    }
    forall u | u in w'.tlog ensures Matches(w', w'.tlog[u]) {
      if u != t { MatchesGrows(w, w', w.tlog[u]); }
    }
    forall k | k in w'.bid ensures Matches(w', w'.bid[k]) { MatchesGrows(w, w', w.bid[k]); }
    assert TermsBelow(w.peers[p].log, t);
    assert TermsBelow(L, t);
  }

  lemma ProposeShape(w: World, p: nat, cmd: Command)
    requires Shape(w) && Roles(w) && CanPropose(w, p)
    ensures Shape(Propose(w, p, cmd))
  {
    var t := w.peers[p].term;
    assert t in w.lead;
    assert w.tlog[t := w.peers[p].log + [Entry(t, cmd)]].Keys == w.tlog.Keys;
  }

  lemma ProposeBallots(w: World, p: nat, cmd: Command)
    requires Ballots(w) && CanPropose(w, p)
    ensures Ballots(Propose(w, p, cmd))
  {
  }

  lemma ProposeRoles(w: World, p: nat, cmd: Command)
    requires Shape(w) && Roles(w) && CanPropose(w, p)
    ensures Roles(Propose(w, p, cmd))
  {
  }

  lemma ProposeAcks(w: World, p: nat, cmd: Command)
    requires Acks(w) && CanPropose(w, p) && Grows(w, Propose(w, p, cmd))
    ensures Acks(Propose(w, p, cmd))
  {
    var w' := Propose(w, p, cmd);
    forall q: nat, t: nat | (q, t) in w'.acks && w'.peers[q].term == t
      ensures Has(w', w'.peers[q].log, t, w'.acks[(q, t)])
    {
      if q != p {
        HasGrows(w, w', w.peers[q].log, t, w.acks[(q, t)]);
      }
    }
  }

  /** Only the proposer has accepted the new entry. */
  lemma ProposeOwn(w: World, p: nat, cmd: Command)
    requires Shape(w) && Roles(w) && Acks(w) && CanPropose(w, p)
    ensures forall q: nat :: Acked(Propose(w, p, cmd), q, w.peers[p].term, |w.peers[p].log|) ==> q == p
    ensures forall t: nat, i: nat :: OwnEntry(Propose(w, p, cmd), t, i) ==>
      (t == w.peers[p].term && i == |w.peers[p].log|) || OwnEntry(w, t, i)
  {
    assert w.lead[w.peers[p].term] == p;
  }

  lemma ProposeHolders(w: World, p: nat, cmd: Command)
    requires Inv(w) && CanPropose(w, p) && Grows(w, Propose(w, p, cmd))
    ensures HoldersKeep(Propose(w, p, cmd))
  {
    var w' := Propose(w, p, cmd);
    ProposeOwn(w, p, cmd);
    forall q: nat, t: nat, i: nat |
      q < |w'.peers| && Acked(w', q, t, i) && OwnEntry(w', t, i) && Choosable(w', t, i)
      ensures Has(w', w'.peers[q].log, t, i)
    {
      if OwnEntry(w, t, i) {
        ProposeHolder(w, p, cmd, q, t, i);
      } else {
        assert w'.tlog[t] == w'.peers[p].log;
      }
    }
  }

  lemma ProposeHolder(w: World, p: nat, cmd: Command, q: nat, t: nat, i: nat)
    requires Shape(w) && Roles(w) && Acks(w) && HoldersKeep(w) && CanPropose(w, p) && Grows(w, Propose(w, p, cmd))
    requires q < |w.peers| && Acked(Propose(w, p, cmd), q, t, i) && OwnEntry(w, t, i)
    requires Choosable(Propose(w, p, cmd), t, i)
    ensures Has(Propose(w, p, cmd), Propose(w, p, cmd).peers[q].log, t, i)
  {
    var w' := Propose(w, p, cmd);
    ChoosableShrinks(w, w', t, i);
    if (q, t) == (p, w.peers[p].term) {
      assert w.lead[t] == p && w.peers[p].log == w.tlog[t];
      assert Has(w, w.peers[p].log, t, i);
    } else {
      assert Acked(w, q, t, i);
    }
    HasGrows(w, w', w.peers[q].log, t, i);
    HasPrefix(w', w.peers[q].log, w'.peers[q].log, t, i);
  }

  lemma ProposeVoters(w: World, p: nat, cmd: Command)
    requires Inv(w) && CanPropose(w, p) && Grows(w, Propose(w, p, cmd))
    ensures VotersCarry(Propose(w, p, cmd))
  {
    var w' := Propose(w, p, cmd);
    ProposeOwn(w, p, cmd);
    forall v: nat, c: nat, u: nat, t: nat, i: nat |
      (v, c, u) in w'.votes && t < u && Acked(w', v, t, i) && OwnEntry(w', t, i) && Choosable(w', t, i)
      ensures (u, c) in w'.bid && Has(w', w'.bid[(u, c)], t, i)
    {
      if OwnEntry(w, t, i) {
        VotersCarryFrame(w, w', v, c, u, t, i);
      }
    }
  }

  /** An entry proposed after a later term was elected cannot be chosen. */
  lemma ProposeLate(w: World, p: nat, cmd: Command, u: nat)
    requires Shape(w) && Ballots(w) && Roles(w) && Acks(w) && CanPropose(w, p)
    requires u in w.lead && w.peers[p].term < u
    ensures !Choosable(Propose(w, p, cmd), w.peers[p].term, |w.peers[p].log|)
  {
    var w' := Propose(w, p, cmd);
    ProposeOwn(w, p, cmd);
    ProposeShape(w, p, cmd);
    ProposeBallots(w, p, cmd);
    if Choosable(w', w.peers[p].term, |w.peers[p].log|) {
      var v := VoterAccepted(w', u, w.peers[p].term, |w.peers[p].log|);
    }
  }

  lemma ProposeLeaders(w: World, p: nat, cmd: Command)
    requires Inv(w) && CanPropose(w, p) && Grows(w, Propose(w, p, cmd))
    ensures LeadersCarry(Propose(w, p, cmd))
  {
    var w' := Propose(w, p, cmd);
    ProposeOwn(w, p, cmd);
    forall u: nat, t: nat, i: nat | u in w'.lead && t < u && OwnEntry(w', t, i) && Choosable(w', t, i)
      ensures u in w'.tlog && Has(w', w'.tlog[u], t, i)
    {
      if OwnEntry(w, t, i) {
        ChoosableShrinks(w, w', t, i);
        HasGrows(w, w', w.tlog[u], t, i);
        HasPrefix(w', w.tlog[u], w'.tlog[u], t, i);
      } else {
        ProposeLate(w, p, cmd, u);
      }
    }
  }

  // ----- Follow -----

  /** Accepting a leader's prefix keeps whatever the log shared with that leader. */
  lemma AdoptedShares(w: World, L: seq<Entry>, t: nat, k: nat, u: nat, i: nat)
    requires t in w.tlog && 0 < k <= |w.tlog[t]|
    requires Has(w, L, u, i) && Has(w, w.tlog[t], u, i)
    ensures Has(w, Adopted(L, w.tlog[t][..k]), u, i)
  {
    var S := w.tlog[t][..k];
    if k <= i + 1 {
      assert S == w.tlog[t][..i + 1][..k] == L[..i + 1][..k] == L[..k];
    } else if !(S <= L) {
      assert S[..i + 1] == w.tlog[t][..i + 1];
    }
  }

  lemma AdoptedHas(w: World, L: seq<Entry>, t: nat, k: nat)
    requires t in w.tlog && 0 < k <= |w.tlog[t]|
    ensures Has(w, Adopted(L, w.tlog[t][..k]), t, k - 1)
  {
    var S := w.tlog[t][..k];
    if S <= L {
      assert L[..k] == S;
    } else {
      assert S[..k] == S;
    }
  }

  /** What a peer at its term's leader prefix shared with term u, it still shares. */
  lemma FollowShares(w: World, p: nat, k: nat, c: nat, u: nat, i: nat)
    requires Shape(w) && LeadersCarry(w) && CanFollow(w, p, k, c)
    requires Has(w, w.peers[p].log, u, i) && u <= w.peers[p].term
    requires u == w.peers[p].term || (OwnEntry(w, u, i) && Choosable(w, u, i))
    ensures Has(w, Follow(w, p, k, c).peers[p].log, u, i)
  {
    var t := w.peers[p].term;
    if u < t {
      assert Has(w, w.tlog[t], u, i);
    } else {
      assert Has(w, w.tlog[t], t, i);
    }
    AdoptedShares(w, w.peers[p].log, t, k, u, i);
  }

  lemma FollowKeeps(w: World, p: nat, k: nat, c: nat)
    requires Inv(w) && CanFollow(w, p, k, c)
    ensures Inv(Follow(w, p, k, c)) && Grows(w, Follow(w, p, k, c))
  {
    var w' := Follow(w, p, k, c);
    FollowGrows(w, p, k, c);
    FollowLogs(w, p, k, c);
    FollowBallots(w, p, k, c);
    FollowRoles(w, p, k, c);
    FollowAcks(w, p, k, c);
    LeadersCarryFrame(w, w');
    FollowHolders(w, p, k, c);
    VotersCarryQuiet(w, w');
    FollowCommits(w, p, k, c);
  }

  lemma FollowGrows(w: World, p: nat, k: nat, c: nat)
    requires CanFollow(w, p, k, c)
    ensures Grows(w, Follow(w, p, k, c))
  {
  }

  lemma FollowLogs(w: World, p: nat, k: nat, c: nat)
    requires Logs(w) && Terms(w) && CanFollow(w, p, k, c) && Grows(w, Follow(w, p, k, c))
    ensures Logs(Follow(w, p, k, c)) && Terms(Follow(w, p, k, c))
  {
    var w' := Follow(w, p, k, c);
    var t := w.peers[p].term;
    MatchesPrefix(w, w.tlog[t], k);
    assert TermsBelow(w.tlog[t], t) && TermsBelow(w.peers[p].log, t);
    forall q: nat | q < |w'.peers| ensures Matches(w', w'.peers[q].log) { MatchesGrows(w, w', w'.peers[q].log); }
    forall u | u in w'.tlog ensures Matches(w', w'.tlog[u]) { MatchesGrows(w, w', w.tlog[u]); }
    forall b | b in w'.bid ensures Matches(w', w'.bid[b]) { MatchesGrows(w, w', w.bid[b]); }
  }

  lemma FollowBallots(w: World, p: nat, k: nat, c: nat)
    requires Shape(w) && Ballots(w) && CanFollow(w, p, k, c)
    ensures Ballots(Follow(w, p, k, c)) && Shape(Follow(w, p, k, c))
  {
  }

  lemma FollowRoles(w: World, p: nat, k: nat, c: nat)
    requires Roles(w) && CanFollow(w, p, k, c)
    ensures Roles(Follow(w, p, k, c))
  {
    var w' := Follow(w, p, k, c);
    var t := w.peers[p].term;
    if w.lead[t] == p {
      assert w.tlog[t][..k] <= w.peers[p].log;
    }
  }

  lemma FollowAcks(w: World, p: nat, k: nat, c: nat)
    requires Shape(w) && Acks(w) && LeadersCarry(w) && CanFollow(w, p, k, c)
    ensures Acks(Follow(w, p, k, c))
  {
    var w' := Follow(w, p, k, c);
    var t := w.peers[p].term;
    AdoptedHas(w, w.peers[p].log, t, k);
    if (p, t) in w.acks {
      FollowShares(w, p, k, c, t, w.acks[(p, t)]);
    }
    forall q: nat, u: nat | (q, u) in w'.acks && w'.peers[q].term == u
      ensures Has(w', w'.peers[q].log, u, w'.acks[(q, u)])
    {
      if q == p {
        assert Has(w, w'.peers[p].log, t, w'.acks[(p, t)]);
      } else {
        assert Has(w, w.peers[q].log, u, w.acks[(q, u)]);
      }
    }
  }

  lemma FollowHolders(w: World, p: nat, k: nat, c: nat)
    requires Inv(w) && CanFollow(w, p, k, c) && Grows(w, Follow(w, p, k, c)) && Acks(Follow(w, p, k, c))
    ensures HoldersKeep(Follow(w, p, k, c))
  {
    var w' := Follow(w, p, k, c);
    forall q: nat, u: nat, i: nat |
      q < |w'.peers| && Acked(w', q, u, i) && OwnEntry(w', u, i) && Choosable(w', u, i)
      ensures Has(w', w'.peers[q].log, u, i)
    {
      FollowHolder(w, p, k, c, q, u, i);
    }
  }

  lemma FollowHolder(w: World, p: nat, k: nat, c: nat, q: nat, u: nat, i: nat)
    requires Shape(w) && HoldersKeep(w) && LeadersCarry(w) && CanFollow(w, p, k, c)
    requires Grows(w, Follow(w, p, k, c)) && Acks(Follow(w, p, k, c))
    requires q < |w.peers| && Acked(Follow(w, p, k, c), q, u, i) && OwnEntry(w, u, i)
    requires Choosable(Follow(w, p, k, c), u, i)
    ensures Has(Follow(w, p, k, c), Follow(w, p, k, c).peers[q].log, u, i)
  {
    var w' := Follow(w, p, k, c);
    if (q, u) == (p, w.peers[p].term) {
      HasShorter(w', w'.peers[p].log, u, i, w'.acks[(p, u)]);
    } else {
      ChoosableShrinks(w, w', u, i);
      assert Acked(w, q, u, i);
      assert Has(w, w.peers[q].log, u, i);
      if q == p {
        FollowShares(w, p, k, c, u, i);
      }
    }
  }

  lemma FollowCommits(w: World, p: nat, k: nat, c: nat)
    requires Shape(w) && Commits(w) && LeadersCarry(w) && CanFollow(w, p, k, c) && Grows(w, Follow(w, p, k, c))
    ensures Commits(Follow(w, p, k, c))
  {
    var w' := Follow(w, p, k, c);
    ChosenKept(w, w');
    FollowCommit(w, p, k, c);
    forall q: nat | q < |w'.peers|
      ensures CommitOk(w', w'.peers[q].log, w'.peers[q].commit, w'.peers[q].term)
    {
      if q != p {
        assert CommitOk(w, w.peers[q].log, w.peers[q].commit, w.peers[q].term);
        CommitOkGrows(w, w', w.peers[q].log, w'.peers[q].log, w.peers[q].commit, w.peers[q].term, w.peers[q].term);
      }
    }
  }

  lemma FollowCommit(w: World, p: nat, k: nat, c: nat)
    requires Shape(w) && Commits(w) && LeadersCarry(w) && CanFollow(w, p, k, c) && Grows(w, Follow(w, p, k, c))
    ensures var P := Follow(w, p, k, c).peers[p]; CommitOk(Follow(w, p, k, c), P.log, P.commit, P.term)
  {
    var w' := Follow(w, p, k, c);
    var L, L', d, t := w.peers[p].log, w'.peers[p].log, w.peers[p].commit, w.peers[p].term;
    AdoptedHas(w, L, t, k);
    if d <= c {
      HasShorter(w, L', t, c, k - 1);
      CommitOkGrows(w, w', w.tlog[t], L', c, t, t);
    } else {
      CommittedStays(w, p, k, c);
      CommitOkGrows(w, w', L, L', d, t, t);
    }
  }

  /** Accepting a leader's prefix never rewrites the committed part of a log. */
  lemma CommittedStays(w: World, p: nat, k: nat, c: nat)
    requires Shape(w) && Commits(w) && LeadersCarry(w) && CanFollow(w, p, k, c)
    requires w.peers[p].commit > 0
    ensures var L' := Follow(w, p, k, c).peers[p].log; var d := w.peers[p].commit;
      d < |L'| && L'[..d + 1] == w.peers[p].log[..d + 1]
  {
    var L, d, t := w.peers[p].log, w.peers[p].commit, w.peers[p].term;
    assert CommitOk(w, L, d, t);
    var u: nat, i: nat :| CommitBy(w, L, d, t, u, i);
    ChosenIsChoosable(w, u, i);
    if u < t {
      assert Has(w, w.tlog[t], u, i);
      HasShorter(w, w.tlog[t], u, d, i);
    } else {
      assert Has(w, w.tlog[t], t, d);
    }
    AdoptedShares(w, L, t, k, u, d);
  }

  // ----- Commit -----

  lemma CommitKeeps(w: World, p: nat, i: nat, H: set<nat>)
    requires Inv(w) && CanCommit(w, p, i, H)
    ensures Inv(Commit(w, p, i)) && Grows(w, Commit(w, p, i))
  {
    CommitBasics(w, p, i);
    CommitCarries(w, p, i);
    CommitCommits(w, p, i, H);
  }

  lemma CommitBasics(w: World, p: nat, i: nat)
    requires Shape(w) && Logs(w) && Terms(w) && Ballots(w) && Roles(w) && Acks(w) && p < |w.peers|
    ensures var w' := Commit(w, p, i);
      Grows(w, w') && Shape(w') && Logs(w') && Terms(w') && Ballots(w') && Roles(w') && Acks(w')
  {
    CommitGrows(w, p, i);
    LogsFrame(w, Commit(w, p, i));
    CommitBallots(w, p, i);
    CommitRoles(w, p, i);
    CommitAcks(w, p, i);
  }

  lemma CommitCarries(w: World, p: nat, i: nat)
    requires Ballots(w) && HoldersKeep(w) && VotersCarry(w) && LeadersCarry(w) && p < |w.peers|
    requires Grows(w, Commit(w, p, i))
    ensures var w' := Commit(w, p, i); HoldersKeep(w') && VotersCarry(w') && LeadersCarry(w')
  {
    LeadersCarryFrame(w, Commit(w, p, i));
    HoldersKeepFrame(w, Commit(w, p, i));
    VotersCarryQuiet(w, Commit(w, p, i));
  }

  lemma CommitGrows(w: World, p: nat, i: nat)
    requires Shape(w) && Terms(w) && p < |w.peers|
    ensures Grows(w, Commit(w, p, i)) && Shape(Commit(w, p, i)) && Terms(Commit(w, p, i))
  {
    assert TermsBelow(w.peers[p].log, w.peers[p].term);
  }

  lemma CommitBallots(w: World, p: nat, i: nat)
    requires Ballots(w) && p < |w.peers|
    ensures Ballots(Commit(w, p, i))
  {
  }

  lemma CommitRoles(w: World, p: nat, i: nat)
    requires Roles(w) && p < |w.peers|
    ensures Roles(Commit(w, p, i))
  {
  }

  lemma CommitAcks(w: World, p: nat, i: nat)
    requires Acks(w) && p < |w.peers|
    ensures Acks(Commit(w, p, i))
  {
    var w' := Commit(w, p, i);
    forall q: nat, t: nat | (q, t) in w'.acks && w'.peers[q].term == t
      ensures Has(w', w'.peers[q].log, t, w'.acks[(q, t)])
    {
      assert Has(w, w.peers[q].log, t, w.acks[(q, t)]);
    }
  }

  lemma CommitCommits(w: World, p: nat, i: nat, H: set<nat>)
    requires Roles(w) && Commits(w) && CanCommit(w, p, i, H) && Grows(w, Commit(w, p, i))
    ensures Commits(Commit(w, p, i))
  {
    var w' := Commit(w, p, i);
    var t := w.peers[p].term;
    ChosenKept(w, w');
    forall q | q in H ensures q in Ackers(w', t, i) { assert Acked(w, q, t, i); }
    SubsetCard(H, Ackers(w', t, i));
    assert w.lead[t] == p && OwnEntry(w', t, i);
    forall q: nat | q < |w'.peers|
      ensures CommitOk(w', w'.peers[q].log, w'.peers[q].commit, w'.peers[q].term)
    {
      if q == p {
        assert CommitBy(w', w'.peers[p].log, i, t, t, i);
      } else {
        assert CommitOk(w, w.peers[q].log, w.peers[q].commit, w.peers[q].term);
        CommitOkGrows(w, w', w.peers[q].log, w'.peers[q].log, w.peers[q].commit, w.peers[q].term, w.peers[q].term);
      }
    }
  }

  // ----- what the invariant means -----

  /** Two directly committed entries lie on one log. */
  lemma ChosenAgree(w: World, t: nat, i: nat, u: nat, j: nat, x: nat)
    requires Inv(w) && (t, i) in w.chosen && (u, j) in w.chosen && x <= i && x <= j
    ensures w.tlog[t][..x + 1] == w.tlog[u][..x + 1]
  {
    ChosenIsChoosable(w, t, i);
    ChosenIsChoosable(w, u, j);
    if t < u {
      HasShorter(w, w.tlog[u], t, x, i);
    } else if u < t {
      HasShorter(w, w.tlog[t], u, x, j);
    }
  }

  /** Leader completeness: a directly committed entry, with its whole prefix, is in every later leader's log. */
  lemma LeaderCompleteness(w: World, t: nat, i: nat, u: nat)
    requires Inv(w) && (t, i) in w.chosen && u in w.lead && t <= u
    ensures Has(w, w.tlog[u], t, i)
  {
    ChosenIsChoosable(w, t, i);
  }
}
