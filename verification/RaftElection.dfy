/** Section 5.2 of the Raft paper for the code as written: no term has two leaders, in any run, with either
    append rule and with snapshots. Winning does not check that the node is still a candidate, so the
    argument rests on votes alone: one ballot a node and term, and a majority of ballots for every leader. */
module RaftElection {
  import opened RaftTypes
  import opened RaftNode
  import opened RaftWorld
  import opened Quorums

  ghost predicate Shape(c: Config, w: World) {
    && |w.nodes| == c.peers && |w.emitted| == c.peers
    && forall i :: 0 <= i < c.peers ==>
         && w.nodes[i].me == i && w.nodes[i].peers == c.peers
         && |w.nodes[i].nextIndex| == c.peers && |w.nodes[i].matchIndex| == c.peers
  }

  ghost predicate HasBallot(w: World, voter: nat, term: int, candidate: nat) {
    (voter, term) in w.ballots && w.ballots[(voter, term)] == candidate
  }

  /** A node's current vote is its ballot of the current term; there is none for later terms. */
  ghost predicate BallotsOk(w: World) {
    && (forall k :: k in w.ballots ==> k.0 < |w.nodes| && k.1 <= w.nodes[k.0].term)
    && forall n :: 0 <= n < |w.nodes| ==>
         if (n, w.nodes[n].term) in w.ballots then w.nodes[n].votedFor == w.ballots[(n, w.nodes[n].term)]
         else w.nodes[n].votedFor == NO_VOTE
  }

  ghost predicate VoteRpcOk(w: World, id: VoteId)
    requires id in w.voteRpcs
  {
    && id.candidate < |w.nodes| && id.voter < |w.nodes| && id.voter != id.candidate
    && (id.candidate, id.term) in w.votedNums
    && match w.voteRpcs[id]
       case VoteSent(args) => args.term == id.term && args.candidateId == id.candidate
       case VoteAnswered(reply) =>
         reply.voteGranted ==> reply.term == id.term && HasBallot(w, id.voter, id.term, id.candidate)
       case VoteDone(counted) => counted ==> HasBallot(w, id.voter, id.term, id.candidate)
  }

  ghost predicate VoteRpcsOk(w: World) { forall id :: id in w.voteRpcs ==> VoteRpcOk(w, id) }

  /** The voters whose votes the candidate has counted. */
  ghost function Counted(w: World, candidate: nat, term: int): set<nat> {
    set v: nat | v < |w.nodes| && VoteId(candidate, term, v) in w.voteRpcs
                 && w.voteRpcs[VoteId(candidate, term, v)] == VoteDone(true)
  }

  ghost predicate Leads(w: World, n: nat, term: int) { term in w.leaders && w.leaders[term] == n }

  /** The shared counter of an election is one more than the votes counted until the election is won;
      winning restarts it, and it is behind by a majority from then on. */
  ghost predicate CountOk(w: World, candidate: nat, term: int)
    requires (candidate, term) in w.votedNums
  {
    && candidate < |w.nodes| && 1 <= term <= w.nodes[candidate].term
    && HasBallot(w, candidate, term, candidate)
    && var counted := |Counted(w, candidate, term)|;
       if Leads(w, candidate, term) then
         w.votedNums[(candidate, term)] == counted - |w.nodes| / 2 && counted >= |w.nodes| / 2
       else
         w.votedNums[(candidate, term)] == 1 + counted && (counted == 0 || 1 + counted < |w.nodes| / 2 + 1)
  }

  ghost predicate CountsOk(w: World) {
    forall n: nat, t: int :: (n, t) in w.votedNums ==> CountOk(w, n, t)
  }

  ghost predicate LeadersOk(w: World) {
    && (forall t :: t in w.leaders ==> (w.leaders[t], t) in w.votedNums)
    && forall n :: 0 <= n < |w.nodes| && w.nodes[n].status == Leader ==> Leads(w, n, w.nodes[n].term)
  }

  ghost predicate ElectionInv(c: Config, w: World) {
    Shape(c, w) && (forall n :: 0 <= n < |w.nodes| ==> w.nodes[n].term >= 0)
    && BallotsOk(w) && VoteRpcsOk(w) && CountsOk(w) && LeadersOk(w)
  }

  // ---------- quorums behind leaders ----------

  ghost function Voters(w: World, n: nat, term: int): set<nat> { Counted(w, n, term) + {n} }

  lemma CountedOthers(c: Config, w: World, n: nat, term: int)
    requires ElectionInv(c, w) && n < c.peers
    ensures AllBelow(Counted(w, n, term), c.peers) && n !in Counted(w, n, term)
    ensures forall v :: v in Counted(w, n, term) ==> HasBallot(w, v, term, n)
    ensures |Counted(w, n, term)| <= c.peers - 1
    ensures |Voters(w, n, term)| == |Counted(w, n, term)| + 1
  {
    forall v | v in Counted(w, n, term) ensures v != n && HasBallot(w, v, term, n) {
      assert VoteRpcOk(w, VoteId(n, term, v));
    }
    OthersSize(Counted(w, n, term), n, c.peers);
  }

  lemma LeaderHasQuorum(c: Config, w: World, n: nat, term: int)
    requires ElectionInv(c, w) && Leads(w, n, term)
    ensures IsQuorum(Voters(w, n, term), c.peers)
    ensures forall v :: v in Voters(w, n, term) ==> HasBallot(w, v, term, n)
  {
    assert CountOk(w, n, term);
    CountedOthers(c, w, n, term);
  }

  // ---------- the step on the vote side ----------

  /** What every handler other than the two that vote may do to a node: raise the term, giving up vote and
      leadership, or leave them as they are. */
  ghost predicate Quiet(n: Node, n': Node) {
    && n'.me == n.me && n'.peers == n.peers
    && |n'.nextIndex| == |n.nextIndex| && |n'.matchIndex| == |n.matchIndex|
    && n.term <= n'.term
    && (if n.term == n'.term then n'.votedFor == n.votedFor && (n'.status == Leader ==> n.status == Leader)
        else n'.votedFor == NO_VOTE && n'.status != Leader)
  }

  ghost predicate SameVotes(w: World, w': World) {
    w'.voteRpcs == w.voteRpcs && w'.votedNums == w.votedNums && w'.ballots == w.ballots && w'.leaders == w.leaders
  }

  lemma QuietKeeps(c: Config, w: World, w': World, i: nat)
    requires ElectionInv(c, w) && QuietAt(w, w', i)
    ensures ElectionInv(c, w')
  {
    QuietRpcs(c, w, w', i);
    QuietCounts(c, w, w', i);
    hide VoteRpcsOk, CountsOk;
  }

  lemma QuietRpcs(c: Config, w: World, w': World, i: nat)
    requires ElectionInv(c, w) && QuietAt(w, w', i)
    ensures VoteRpcsOk(w')
  {
    hide BallotsOk, CountsOk, LeadersOk, Shape, Quiet;
    forall id | id in w'.voteRpcs ensures VoteRpcOk(w', id) { assert VoteRpcOk(w, id); }
  }

  lemma QuietCounts(c: Config, w: World, w': World, i: nat)
    requires ElectionInv(c, w) && QuietAt(w, w', i)
    ensures CountsOk(w')
  {
    hide BallotsOk, VoteRpcsOk, LeadersOk, Shape;
    forall n: nat, t: int | (n, t) in w'.votedNums ensures CountOk(w', n, t) {
      assert CountOk(w, n, t);
      assert Counted(w', n, t) == Counted(w, n, t);
    }
  }

  /** A new candidate's term is new to its ballots and elections. */
  lemma NewTermIsUnused(c: Config, w: World, n: nat, t: int)
    requires ElectionInv(c, w) && n < |w.nodes| && t > w.nodes[n].term
    ensures (n, t) !in w.ballots && (n, t) !in w.votedNums && !Leads(w, n, t)
    ensures forall v: nat :: VoteId(n, t, v) !in w.voteRpcs
  {
    assert (n, t) in w.votedNums ==> CountOk(w, n, t);
    assert forall v: nat :: VoteId(n, t, v) in w.voteRpcs ==> VoteRpcOk(w, VoteId(n, t, v));
  }

  /** What a new candidacy does on the vote side. */
  ghost predicate ElectionStarted(w: World, w': World, n: nat) {
    && n < |w.nodes| == |w'.nodes| && w'.nodes == w.nodes[n := w'.nodes[n]] && w'.emitted == w.emitted
    && var n1 := w'.nodes[n];
       && n1.me == w.nodes[n].me && n1.peers == w.nodes[n].peers
       && |n1.nextIndex| == |w.nodes[n].nextIndex| && |n1.matchIndex| == |w.nodes[n].matchIndex|
       && n1.term == w.nodes[n].term + 1 && n1.votedFor == n1.me && n1.status == Candidate
       && w'.votedNums == w.votedNums[(n, n1.term) := 1] && w'.ballots == w.ballots[(n, n1.term) := n]
       && w'.leaders == w.leaders
       && (forall id :: id in w.voteRpcs ==> id in w'.voteRpcs)
       && (forall id :: id in w'.voteRpcs ==>
             if (id.candidate, id.term) == (n, n1.term) then
               id.voter < |w.nodes| && id.voter != n && w'.voteRpcs[id].VoteSent?
               && w'.voteRpcs[id].args.term == id.term && w'.voteRpcs[id].args.candidateId == n
             else id in w.voteRpcs && w'.voteRpcs[id] == w.voteRpcs[id])
  }

  lemma ElectionEffect(c: Config, w: World, n: nat)
    requires ElectionInv(c, w) && CanElect(w, n)
    ensures ElectionStarted(w, DoElection(w, n), n)
  {
    NewTermIsUnused(c, w, n, w.nodes[n].term + 1);
    hide CountsOk, LeadersOk, BallotsOk, VoteRpcsOk;
  }

  lemma ElectionKeepsBallots(c: Config, w: World, w': World, n: nat)
    requires ElectionInv(c, w) && ElectionStarted(w, w', n)
    ensures BallotsOk(w') && BallotsGrow(w, w')
  {
    NewTermIsUnused(c, w, n, w'.nodes[n].term);
    hide CountsOk, LeadersOk, VoteRpcsOk;
  }

  lemma ElectionKeepsRpcs(c: Config, w: World, w': World, n: nat)
    requires ElectionInv(c, w) && ElectionStarted(w, w', n) && BallotsGrow(w, w')
    ensures VoteRpcsOk(w')
  {
    hide CountsOk, LeadersOk, BallotsOk, Shape;
    forall id | id in w'.voteRpcs ensures VoteRpcOk(w', id) {
      if id in w.voteRpcs { assert VoteRpcOk(w, id); }
    }
  }

  lemma ElectionKeepsCounts(c: Config, w: World, w': World, n: nat)
    requires ElectionInv(c, w) && ElectionStarted(w, w', n)
    ensures CountsOk(w') && LeadersOk(w')
  {
    var t1 := w'.nodes[n].term;
    hide BallotsOk, VoteRpcsOk, ElectionStarted, CountOk;
    forall m: nat, t: int | (m, t) in w'.votedNums ensures CountOk(w', m, t) {
      if (m, t) == (n, t1) { NewCount(c, w, w', n); } else { OldCountKept(c, w, w', n, m, t); }
    }
    ElectionKeepsLeaders(c, w, w', n);
  }

  lemma NewCount(c: Config, w: World, w': World, n: nat)
    requires ElectionInv(c, w) && ElectionStarted(w, w', n)
    ensures var t1 := w'.nodes[n].term; (n, t1) in w'.votedNums && CountOk(w', n, t1)
  {
    NewTermIsUnused(c, w, n, w'.nodes[n].term);
    hide BallotsOk, VoteRpcsOk, CountsOk;
    assert Counted(w', n, w'.nodes[n].term) == {};
  }

  lemma OldCountKept(c: Config, w: World, w': World, n: nat, m: nat, t: int)
    requires ElectionInv(c, w) && ElectionStarted(w, w', n)
    requires (m, t) in w'.votedNums && (m, t) != (n, w'.nodes[n].term)
    ensures CountOk(w', m, t)
  {
    hide BallotsOk, VoteRpcsOk, LeadersOk;
    assert CountOk(w, m, t);
    hide CountsOk;
    assert Counted(w', m, t) == Counted(w, m, t);
  }

  lemma ElectionKeepsLeaders(c: Config, w: World, w': World, n: nat)
    requires ElectionInv(c, w) && ElectionStarted(w, w', n)
    ensures LeadersOk(w')
  {
    hide BallotsOk, VoteRpcsOk, CountsOk;
  }

  lemma ElectionKeeps(c: Config, w: World, n: nat)
    requires ElectionInv(c, w) && CanElect(w, n)
    ensures ElectionInv(c, DoElection(w, n))
  {
    ElectionEffect(c, w, n);
    ElectionKeepsBallots(c, w, DoElection(w, n), n);
    ElectionKeepsRpcs(c, w, DoElection(w, n), n);
    ElectionKeepsCounts(c, w, DoElection(w, n), n);
    hide BallotsOk, VoteRpcsOk, CountsOk, LeadersOk, DoElection;
  }

  /** Delivering a request changes one node, by raising its term, granting its vote, both or neither. */
  ghost predicate VoteDelivered(w: World, w': World, id: VoteId, reply: VoteReply) {
    && id in w.voteRpcs && id.voter < |w.nodes|
    && |w'.nodes| == |w.nodes| && w'.nodes == w.nodes[id.voter := w'.nodes[id.voter]] && w'.emitted == w.emitted
    && w'.voteRpcs == w.voteRpcs[id := VoteAnswered(reply)]
    && w'.votedNums == w.votedNums && w'.leaders == w.leaders
    && var n, n' := w.nodes[id.voter], w'.nodes[id.voter];
       && (if reply.voteGranted then
             && reply.term == id.term == n'.term && n.term <= n'.term
             && (n.term == n'.term ==> n.votedFor == NO_VOTE || n.votedFor == id.candidate)
             && n'.votedFor == id.candidate
             && w'.ballots == w.ballots[(id.voter, id.term) := id.candidate]
             && (n'.status == Leader ==> n.status == Leader && n.term == n'.term)
           else Quiet(n, n') && w'.ballots == w.ballots)
       && n'.me == n.me && n'.peers == n.peers
       && |n'.nextIndex| == |n.nextIndex| && |n'.matchIndex| == |n.matchIndex|
  }

  lemma DeliverVoteEffect(c: Config, w: World, id: VoteId)
    requires ElectionInv(c, w) && CanDeliverVote(w, id)
    ensures id in DoDeliverVote(w, id).voteRpcs && DoDeliverVote(w, id).voteRpcs[id].VoteAnswered?
    ensures VoteDelivered(w, DoDeliverVote(w, id), id, DoDeliverVote(w, id).voteRpcs[id].reply)
  {
    assert VoteRpcOk(w, id);
    hide CountsOk, CountOk, LeadersOk;
  }

  /** Ballots are only added. */
  ghost predicate BallotsGrow(w: World, w': World) {
    forall k :: k in w.ballots ==> k in w'.ballots && w'.ballots[k] == w.ballots[k]
  }

  lemma DeliverVoteBallots(c: Config, w: World, w': World, id: VoteId, reply: VoteReply)
    requires ElectionInv(c, w) && VoteDelivered(w, w', id, reply)
    ensures BallotsOk(w') && BallotsGrow(w, w')
    ensures reply.voteGranted ==> HasBallot(w', id.voter, id.term, id.candidate)
  {
    hide CountsOk, LeadersOk, VoteRpcsOk;
  }

  lemma DeliverVoteRpcs(c: Config, w: World, w': World, id: VoteId, reply: VoteReply)
    requires ElectionInv(c, w) && VoteDelivered(w, w', id, reply) && BallotsGrow(w, w')
    requires reply.voteGranted ==> HasBallot(w', id.voter, id.term, id.candidate)
    ensures VoteRpcsOk(w')
  {
    hide CountsOk, LeadersOk, BallotsOk;
    assert VoteRpcOk(w, id);
    forall j | j in w'.voteRpcs ensures VoteRpcOk(w', j) { assert VoteRpcOk(w, j); }
  }

  lemma DeliverVoteCounts(c: Config, w: World, w': World, id: VoteId, reply: VoteReply)
    requires ElectionInv(c, w) && VoteDelivered(w, w', id, reply) && BallotsGrow(w, w')
    requires w.voteRpcs[id] != VoteDone(true)
    ensures CountsOk(w')
  {
    hide LeadersOk, BallotsOk, VoteRpcsOk;
    forall m: nat, t: int | (m, t) in w'.votedNums ensures CountOk(w', m, t) {
      assert CountOk(w, m, t);
      assert Counted(w', m, t) == Counted(w, m, t);
    }
  }

  lemma DeliverVoteKeeps(c: Config, w: World, w': World, id: VoteId, reply: VoteReply)
    requires ElectionInv(c, w) && VoteDelivered(w, w', id, reply) && w.voteRpcs[id] != VoteDone(true)
    ensures ElectionInv(c, w')
  {
    hide CountsOk, BallotsOk, VoteRpcsOk;
    DeliverVoteBallots(c, w, w', id, reply);
    DeliverVoteRpcs(c, w, w', id, reply);
    DeliverVoteCounts(c, w, w', id, reply);
  }

  /** What consuming a reply does on the vote side. */
  ghost predicate VoteReturned(w: World, w': World, id: VoteId, counts: bool, wins: bool) {
    && id in w.voteRpcs && w.voteRpcs[id].VoteAnswered? && id.candidate < |w.nodes|
    && (id.candidate, id.term) in w.votedNums
    && |w'.nodes| == |w.nodes| && w'.nodes == w.nodes[id.candidate := w'.nodes[id.candidate]]
    && w'.emitted == w.emitted && w'.ballots == w.ballots
    && w'.voteRpcs == w.voteRpcs[id := VoteDone(counts)]
    && var n, n' := w.nodes[id.candidate], w'.nodes[id.candidate];
       var num := w.votedNums[(id.candidate, id.term)];
       && counts == VoteCounts(n, w.voteRpcs[id].reply)
       && wins == (counts && num + 1 >= n.peers / 2 + 1)
       && n'.me == n.me && n'.peers == n.peers
       && |n'.nextIndex| == n.peers && |n'.matchIndex| == n.peers
       && (if wins then n.status != Leader && n'.term == n.term && n'.votedFor == n.votedFor && n'.status == Leader
           else Quiet(n, n'))
       && w'.leaders == (if wins then w.leaders[n.term := id.candidate] else w.leaders)
       && w'.votedNums == w.votedNums[(id.candidate, id.term) := if wins then 0 else if counts then num + 1 else num]
  }

  lemma ReturnVoteEffect(c: Config, w: World, id: VoteId)
    requires ElectionInv(c, w) && CanReturnVote(w, id)
    ensures var n := w.nodes[id.candidate];
            VoteReturned(w, DoReturnVote(w, id), id, VoteCounts(n, w.voteRpcs[id].reply),
                         VoteWins(n, w.voteRpcs[id].reply, w.votedNums[(id.candidate, id.term)]))
  {
    hide CountsOk, CountOk, LeadersOk, VoteRpcsOk, BallotsOk;
  }

  /** A counted vote is new: the counter and the set of counted voters grow together. */
  lemma CountedGrows(w: World, w': World, id: VoteId, counts: bool, wins: bool)
    requires VoteReturned(w, w', id, counts, wins) && id.voter < |w.nodes|
    ensures forall m: nat, t: int :: (m, t) != (id.candidate, id.term) ==> Counted(w', m, t) == Counted(w, m, t)
    ensures id.voter !in Counted(w, id.candidate, id.term)
    ensures Counted(w', id.candidate, id.term)
            == Counted(w, id.candidate, id.term) + if counts then {id.voter} else {}
  {
    assert VoteId(id.candidate, id.term, id.voter) == id;
  }

  /** A granting reply that is still to be consumed would take the election's counter to a majority. */
  ghost predicate WouldWin(w: World, id: VoteId) {
    && id in w.voteRpcs && w.voteRpcs[id].VoteAnswered? && id.candidate < |w.nodes|
    && (id.candidate, id.term) in w.votedNums
    && VoteWins(w.nodes[id.candidate], w.voteRpcs[id].reply, w.votedNums[(id.candidate, id.term)])
  }

  lemma WinningVote(c: Config, w: World, id: VoteId)
    requires ElectionInv(c, w) && WouldWin(w, id)
    ensures CountOk(w, id.candidate, id.term) && id.term == w.nodes[id.candidate].term
    ensures id.voter < c.peers && id.voter != id.candidate && HasBallot(w, id.voter, id.term, id.candidate)
    ensures id.voter !in Counted(w, id.candidate, id.term)
  {
    assert VoteRpcOk(w, id) && VoteId(id.candidate, id.term, id.voter) == id;
  }

  /** With the winning vote the candidate holds a majority of ballots. */
  lemma WinningQuorum(c: Config, w: World, id: VoteId) returns (voters: set<nat>)
    requires ElectionInv(c, w) && WouldWin(w, id)
    ensures IsQuorum(voters, c.peers) && forall v :: v in voters ==> HasBallot(w, v, id.term, id.candidate)
    ensures !Leads(w, id.candidate, id.term)
    ensures |Counted(w, id.candidate, id.term)| + 1 == c.peers / 2
  {
    hide Counted, BallotsOk, VoteRpcsOk, CountsOk, LeadersOk;
    var n := id.candidate;
    WinningVote(c, w, id);
    CountedOthers(c, w, n, id.term);
    voters := AddTwo(Counted(w, n, id.term), id.voter, n, c.peers);
  }

  /** The vote that wins completes the majority exactly, and no node has won the term before. In particular
      the restarted counter never comes back to a majority, and a winner never leads the term already. */
  lemma WinIsFresh(c: Config, w: World, id: VoteId)
    requires ElectionInv(c, w) && WouldWin(w, id)
    ensures id.term == w.nodes[id.candidate].term && id.term !in w.leaders
    ensures w.nodes[id.candidate].status != Leader
    ensures |Counted(w, id.candidate, id.term)| + 1 == c.peers / 2
  {
    WinningVote(c, w, id);
    var voters := WinningQuorum(c, w, id);
    if w.nodes[id.candidate].status == Leader { LeaderLeads(c, w, id.candidate); }
    if id.term in w.leaders {
      QuorumIsLeaders(c, w, w.leaders[id.term], id.candidate, voters, id.term);
    }
  }

  lemma LeaderLeads(c: Config, w: World, n: nat)
    requires ElectionInv(c, w) && n < |w.nodes| && w.nodes[n].status == Leader
    ensures Leads(w, n, w.nodes[n].term)
  {}

  /** Whoever holds a majority of a term's ballots is the node that leads it, if one does. */
  lemma QuorumIsLeaders(c: Config, w: World, m: nat, n: nat, voters: set<nat>, term: int)
    requires ElectionInv(c, w) && Leads(w, m, term)
    requires IsQuorum(voters, c.peers) && forall v :: v in voters ==> HasBallot(w, v, term, n)
    ensures m == n
  {
    LeaderHasQuorum(c, w, m, term);
    var x := QuorumsMeet(Voters(w, m, term), voters, c.peers);
    assert HasBallot(w, x, term, m) && HasBallot(w, x, term, n);
  }

  lemma ReturnVoteRpcs(c: Config, w: World, w': World, id: VoteId, counts: bool, wins: bool)
    requires ElectionInv(c, w) && VoteReturned(w, w', id, counts, wins)
    ensures VoteRpcsOk(w') && BallotsOk(w')
  {
    hide CountsOk, LeadersOk;
    assert VoteRpcOk(w, id);
    forall j | j in w'.voteRpcs ensures VoteRpcOk(w', j) { assert VoteRpcOk(w, j); }
  }

  lemma ReturnVoteCounts(c: Config, w: World, w': World, id: VoteId, counts: bool, wins: bool)
    requires ElectionInv(c, w) && VoteReturned(w, w', id, counts, wins)
    requires wins ==> id.term == w.nodes[id.candidate].term && id.term !in w.leaders
                      && |Counted(w, id.candidate, id.term)| + 1 == c.peers / 2
    ensures CountsOk(w')
  {
    assert VoteRpcOk(w, id) && CountOk(w, id.candidate, id.term);
    hide CountOk, BallotsOk, VoteRpcsOk, LeadersOk;
    CountedGrows(w, w', id, counts, wins);
    ThisCountKept(c, w, w', id, counts, wins);
    hide Counted, BallotsOk, VoteRpcsOk, VoteRpcOk, LeadersOk, CountOk;
    forall m: nat, t: int | (m, t) in w'.votedNums && (m, t) != (id.candidate, id.term) ensures CountOk(w', m, t) {
      assert CountOk(w, m, t);
      OtherCountKept(c, w, w', id, counts, wins, m, t);
    }
  }

  lemma ThisCountKept(c: Config, w: World, w': World, id: VoteId, counts: bool, wins: bool)
    requires Shape(c, w) && VoteReturned(w, w', id, counts, wins) && CountOk(w, id.candidate, id.term)
    requires wins ==> id.term == w.nodes[id.candidate].term && id.term !in w.leaders
                      && |Counted(w, id.candidate, id.term)| + 1 == c.peers / 2
    requires id.voter !in Counted(w, id.candidate, id.term)
    requires Counted(w', id.candidate, id.term)
             == Counted(w, id.candidate, id.term) + if counts then {id.voter} else {}
    ensures CountOk(w', id.candidate, id.term)
  {
    hide Counted;
    assert |Counted(w', id.candidate, id.term)| == |Counted(w, id.candidate, id.term)| + if counts then 1 else 0;
  }

  lemma OtherCountKept(c: Config, w: World, w': World, id: VoteId, counts: bool, wins: bool, m: nat, t: int)
    requires Shape(c, w) && VoteReturned(w, w', id, counts, wins)
    requires wins ==> id.term == w.nodes[id.candidate].term && id.term !in w.leaders
    requires (m, t) in w.votedNums && (m, t) != (id.candidate, id.term) && CountOk(w, m, t)
    requires Counted(w', m, t) == Counted(w, m, t)
    ensures (m, t) in w'.votedNums && CountOk(w', m, t)
  {
    hide Counted;
  }

  lemma ReturnVoteKeeps(c: Config, w: World, w': World, id: VoteId, counts: bool, wins: bool)
    requires ElectionInv(c, w) && VoteReturned(w, w', id, counts, wins) && (wins ==> WouldWin(w, id))
    ensures ElectionInv(c, w')
  {
    hide CountsOk, BallotsOk, VoteRpcsOk, Counted;
    if wins { WinIsFresh(c, w, id); }
    ReturnVoteRpcs(c, w, w', id, counts, wins);
    ReturnVoteCounts(c, w, w', id, counts, wins);
  }

  lemma AppendIsQuiet(mode: Receiver, n: Node, a: AppendArgs)
    ensures Quiet(n, HandleAppend(mode, n, a).0)
  {
    hide Merge, BackOff;
  }

  lemma AppendReplyIsQuiet(n: Node, peer: nat, a: AppendArgs, r: AppendReply, num: int)
    requires peer < |n.matchIndex| && peer < |n.nextIndex|
    ensures Quiet(n, HandleAppendReply(n, peer, a, r, num).0)
  {}

  lemma InstallIsQuiet(n: Node, a: SnapshotArgs)
    ensures Quiet(n, InstallSnapshot(n, a).0)
  {}

  /** One node may change, quietly, and no vote does. */
  ghost predicate QuietAt(w: World, w': World, i: nat) {
    && i < |w.nodes| && |w'.nodes| == |w.nodes| && |w'.emitted| == |w.emitted| && SameVotes(w, w')
    && w'.nodes == w.nodes[i := w'.nodes[i]] && Quiet(w.nodes[i], w'.nodes[i])
  }

  lemma OtherStepsAreQuiet(c: Config, w: World, e: Event) returns (i: nat)
    requires Enabled(c, w, e) && !e.Election? && !e.DeliverVote? && !e.ReturnVote?
    requires 0 < |w.nodes|
    requires e.Heartbeat? || e.SendSnapshot? || !e.ReturnAppend? || w.rounds[e.append.round].leader < |w.nodes|
    ensures QuietAt(w, Step(c, w, e), i)
  {
    hide HandleAppend, HandleAppendReply, InstallSnapshot, Snapshot, ApplyLogs;
    i := 0;
    match e
    case ClientStart(n, _) => i := n;
    case DeliverAppend(id) =>
      i := id.to;
      AppendIsQuiet(c.receiver, w.nodes[i], w.appendRpcs[id].args);
    case ReturnAppend(id) =>
      i := w.rounds[id.round].leader;
      var rpc := w.appendRpcs[id];
      AppendReplyIsQuiet(w.nodes[i], id.to, rpc.args, rpc.reply, w.rounds[id.round].appendNums);
    case Apply(n) => i := n; assert Quiet(w.nodes[n], ApplyLogs(w.nodes[n]).0) by { ApplyIsQuiet(w.nodes[n]); }
    case Compact(n, index) => i := n; CompactIsQuiet(w.nodes[n], index);
    case DeliverSnapshot(s) => i := s.to; InstallIsQuiet(w.nodes[i], s.args);
    case ReturnSnapshot(s) => i := s.from;
    case _ =>
  }

  lemma ApplyIsQuiet(n: Node)
    requires n.snapIndex <= n.lastApplied && n.commitIndex <= LastIndex(n)
    ensures Quiet(n, ApplyLogs(n).0)
  {}

  lemma CompactIsQuiet(n: Node, index: int)
    requires n.commitIndex <= LastIndex(n)
    ensures Quiet(n, Snapshot(n, index))
  {}

  lemma StepKeepsElection(c: Config, w: World, e: Event)
    requires ElectionInv(c, w) && Enabled(c, w, e)
    ensures ElectionInv(c, Step(c, w, e))
  {
    hide DoElection, DoDeliverVote, DoReturnVote, DoStart, DoHeartbeat, DoDeliverAppend, DoReturnAppend, DoApply,
      DoCompact, DoSendSnapshot, DoDeliverSnapshot, DoReturnSnapshot, ElectionInv, VoteDelivered, VoteReturned;
    var w' := Step(c, w, e);
    match e
    case Election(n) => ElectionKeeps(c, w, n);
    case DeliverVote(id) =>
      DeliverVoteEffect(c, w, id);
      DeliverVoteKeeps(c, w, w', id, w'.voteRpcs[id].reply);
    case ReturnVote(id) =>
      ReturnVoteEffect(c, w, id);
      var n := w.nodes[id.candidate];
      ReturnVoteKeeps(c, w, w', id, VoteCounts(n, w.voteRpcs[id].reply),
                      VoteWins(n, w.voteRpcs[id].reply, w.votedNums[(id.candidate, id.term)]));
    case _ =>
      var i := OtherStepsAreQuiet(c, w, e);
      QuietKeeps(c, w, w', i);
  }

  // ---------- every run ----------

  lemma InitElection(c: Config)
    ensures ElectionInv(c, InitWorld(c))
  {}

  lemma {:induction false} RunElection(c: Config, run: seq<World>, i: nat)
    requires IsRun(c, run) && i < |run|
    ensures ElectionInv(c, run[i])
  {
    hide Enabled, Step, ElectionInv;
    if i == 0 {
      InitElection(c);
    } else {
      RunElection(c, run, i - 1);
      var e := RunStep(c, run, i - 1);
      StepKeepsElection(c, run[i - 1], e);
    }
  }

  ghost predicate LeadersGrow(w: World, w': World) {
    forall t :: t in w.leaders ==> t in w'.leaders && w'.leaders[t] == w.leaders[t]
  }

  lemma StepGrowsLeaders(c: Config, w: World, e: Event)
    requires ElectionInv(c, w) && Enabled(c, w, e)
    ensures LeadersGrow(w, Step(c, w, e))
  {
    hide ElectionInv, HandleAppend, HandleAppendReply, InstallSnapshot, Snapshot, ApplyLogs, HandleVote;
    if e.ReturnVote? && WouldWin(w, e.vote) { WinIsFresh(c, w, e.vote); }
  }

  lemma {:induction false} RunGrowsLeaders(c: Config, run: seq<World>, i: nat, j: nat)
    requires IsRun(c, run) && i <= j < |run|
    ensures LeadersGrow(run[i], run[j])
    decreases j
  {
    hide Enabled, Step, ElectionInv;
    if i < j {
      RunGrowsLeaders(c, run, i, j - 1);
      RunElection(c, run, j - 1);
      var e := RunStep(c, run, j - 1);
      StepGrowsLeaders(c, run[j - 1], e);
    }
  }

  /** Election Safety: whenever in a run two nodes lead the same term, they are the same node. */
  lemma ElectionSafety(c: Config, run: seq<World>, i: nat, j: nat, a: nat, b: nat)
    requires IsRun(c, run) && i <= j < |run|
    requires a < |run[i].nodes| && run[i].nodes[a].status == Leader
    requires b < |run[j].nodes| && run[j].nodes[b].status == Leader
    requires run[i].nodes[a].term == run[j].nodes[b].term
    ensures a == b
  {
    RunElection(c, run, i);
    RunElection(c, run, j);
    RunGrowsLeaders(c, run, i, j);
    LeaderLeads(c, run[i], a);
    LeaderLeads(c, run[j], b);
  }

  /** In every run an election's counter reaches a majority at most once, and then exactly; so the assertion
      that a node wins a term it already leads never fires. */
  lemma NoTermWonTwice(c: Config, run: seq<World>, i: nat, id: VoteId)
    requires IsRun(c, run) && i < |run| && WouldWin(run[i], id)
    ensures id.term !in run[i].leaders && |Counted(run[i], id.candidate, id.term)| + 1 == c.peers / 2
    ensures !CrashesOnVote(run[i], id)
  {
    RunElection(c, run, i);
    WinIsFresh(c, run[i], id);
  }
}
