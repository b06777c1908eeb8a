/** Steps that add to the history: a vote, an election, a leader's own append, an acknowledgement. */
module HistorySteps {
  import opened Storage
  import opened Kv
  import opened Replica
  import opened LogMerge
  import opened Cluster
  import opened History
  import opened Growth
  import opened NodeSteps

  /** Old promises, seen after growth that gives `n` no acknowledgement below `bound`. */
  lemma KeepsMoves(g: Group, h: Ghosts, g': Group, h': Ghosts, n: NodeId, bound: nat, log: seq<Entry>)
    requires Evolves(g, h, g', h') && Past(g, h) && Keeps(g, h, n, bound, log)
    requires forall t: nat :: t < bound ==> Acked(h', n, t) == Acked(h, n, t)
    ensures Keeps(g', h', n, bound, log)
  {
    forall t: nat, len: nat | t < bound && len <= Acked(h', n, t) && Live(g', h', t, len)
      ensures h'.termLog[t][..len] <= log
    {
      assert Acked(h', n, t) == Acked(h, n, t);
      assert (n, t) in h.acks && AckOk(g, h, n, t);
      LiveShrinks(g, h, g', h', t, len);
    }
  }

  // ---------- acknowledgement ----------

  lemma AckStep(g: Group, h: Ghosts, n: NodeId, nd: NodeState, req: AppendRequest)
    requires AppendOk(g, h, req)
    requires GroupInv(g, h) && n in g.members && nd == g.nodes[n] && nd.role == Follower
    requires nd.currentTerm == req.term && SentLog(h, req) <= nd.log
    ensures var h' := Acknowledge(h, n, req.term, |SentLog(h, req)|);
      GroupInv(g, h') && Evolves(g, h, g, h') && Acked(h', n, req.term) >= |SentLog(h, req)|
  {
    hide NodeOk, Evolves, OnlyNode, Past, Committed, Carries;
    var len := |SentLog(h, req)|;
    EvolvesRefl(g, h);
    if len > Acked(h, n, req.term) {
      AckAdvanced(g, h, n, nd, req.term, len);
      GroupFrame(g, h, g, Acknowledge(h, n, req.term, len), n);
    }
  }

  lemma AckAdvanced(g: Group, h: Ghosts, n: NodeId, nd: NodeState, t: nat, len: nat)
    requires Shape(g, h) && Past(g, h) && n in g.members && nd == g.nodes[n] && NodeOk(g, h, n, nd) && nd.role == Follower
    requires nd.currentTerm == t && len > Acked(h, n, t) && t in h.termLog && len <= |h.termLog[t]| && h.termLog[t][..len] <= nd.log
    ensures Advanced(g, h, g, Acknowledge(h, n, t, len), n)
  {
    hide Evolves, OnlyNode, Past, Keeps, Committed, LogOk;
    var h' := Acknowledge(h, n, t, len);
    AckEvolves(g, h, n, t, len);
    LogOkGrows(g, h, g, h', nd.log);
    KeepsMoves(g, h, g, h', n, t, nd.log);
    CommittedGrows(g, h, g, h', nd.log[..nd.commitIndex + 1], t, t);
    AckNode(g, h, n, nd, t, len);
    AckAcks(g, h, n, t, len);
    AckPast(g, h, h', n);
  }

  lemma AckPast(g: Group, h: Ghosts, h': Ghosts, n: NodeId)
    requires Past(g, h) && Evolves(g, h, g, h') && OnlyNode(g, h, g, h', n)
    requires h'.ballots == h.ballots && h'.termLog == h.termLog
    requires forall u :: (n, u) in h'.acks ==> AckOk(g, h', n, u)
    ensures Past(g, h')
  {
    CompleteFrame(g, h, g, h');
    PastFrame(g, h, g, h', n);
  }

  lemma AckEvolves(g: Group, h: Ghosts, n: NodeId, t: nat, len: nat)
    requires Shape(g, h) && n in g.members && g.nodes[n].currentTerm == t && len > Acked(h, n, t)
    ensures var h' := Acknowledge(h, n, t, len); Evolves(g, h, g, h') && OnlyNode(g, h, g, h', n)
  {
    hide AcksGrow, NodesGrow, Acked;
    assert g == WithNode(g, n, g.nodes[n]);
    EvolvesRefl(g, h);
    AcksUpdated(g, h, Acknowledge(h, n, t, len), n, t, len);
  }

  lemma AckAcks(g: Group, h: Ghosts, n: NodeId, t: nat, len: nat)
    requires Past(g, h) && n in g.members && n in g.nodes && g.nodes[n].currentTerm == t
    requires t in h.termLog && len <= |h.termLog[t]|
    ensures var h' := Acknowledge(h, n, t, len); forall u :: (n, u) in h'.acks ==> AckOk(g, h', n, u)
  {
    var h' := Acknowledge(h, n, t, len);
    forall u | (n, u) in h'.acks ensures AckOk(g, h', n, u) {
      if u != t { assert AckOk(g, h, n, u); }
    }
  }

  lemma AckNode(g: Group, h: Ghosts, n: NodeId, nd: NodeState, t: nat, len: nat)
    requires LocalOk(nd) && Bounded(nd.log, t) && nd.role == Follower && nd.currentTerm == t && RoleOk(g, h, n, nd)
    requires VoteOk(h, n, t, nd.votedFor) && VoteRecordsOk(h, n, nd.wal)
    requires len > Acked(h, n, t) && t in h.termLog && len <= |h.termLog[t]| && h.termLog[t][..len] <= nd.log
    requires var h' := Acknowledge(h, n, t, len);
      LogOk(h', nd.log) && Keeps(g, h', n, t, nd.log) && Committed(g, h', nd.log[..nd.commitIndex + 1], t)
    ensures NodeOk(g, Acknowledge(h, n, t, len), n, nd)
  {
    assert VoteRecordsOk(Acknowledge(h, n, t, len), n, nd.wal);
  }

  // ---------- votes ----------

  function Voted(nd: NodeState, role: Role, t: nat, candidate: NodeId): NodeState {
    nd.(role := role, currentTerm := t, votedFor := candidate, wal := nd.wal + [StateRecord(t, candidate)])
  }

  /** The candidate is known in `t`, either because it is this very voter or by its own earlier vote. */
  ghost predicate Eligible(h: Ghosts, n: NodeId, nd: NodeState, t: nat, candidate: NodeId) {
    if candidate == n then nd.currentTerm < t
    else VotedIn(h, candidate, t, candidate)
         && var c := h.ballots[(candidate, t)].log; UpToDate(LastIndex(c), LastTerm(c), nd.log) && Bounded(c, t - 1)
  }

  lemma VoteStep(g: Group, h: Ghosts, n: NodeId, nd: NodeState, role: Role, t: nat, candidate: NodeId)
    requires GroupInv(g, h) && n in g.members && nd == g.nodes[n] && nd.currentTerm <= t && 1 <= t
    requires (n, t) !in h.ballots && candidate in g.members && Eligible(h, n, nd, t, candidate)
    requires role == Follower || (role == Candidate && candidate == n)
    requires nd.matchIndex.Keys <= Peers(g, n) && nd.nextIndex.Keys <= Peers(g, n)
    ensures var g' := WithNode(g, n, Voted(nd, role, t, candidate));
      var h' := CastVote(h, n, t, Ballot(candidate, nd.log));
      GroupInv(g', h') && Evolves(g, h, g', h')
  {
    assert NodeOk(g, h, n, nd);
    VoteAdvanced(g, h, n, nd, role, t, candidate);
    GroupFrame(g, h, WithNode(g, n, Voted(nd, role, t, candidate)), CastVote(h, n, t, Ballot(candidate, nd.log)), n);
  }

  lemma VoteAdvanced(g: Group, h: Ghosts, n: NodeId, nd: NodeState, role: Role, t: nat, candidate: NodeId)
    requires Shape(g, h) && Past(g, h) && n in g.members && nd == g.nodes[n] && NodeOk(g, h, n, nd)
    requires nd.currentTerm <= t && 1 <= t
    requires (n, t) !in h.ballots && candidate in g.members && Eligible(h, n, nd, t, candidate)
    requires role == Follower || (role == Candidate && candidate == n)
    requires nd.matchIndex.Keys <= Peers(g, n) && nd.nextIndex.Keys <= Peers(g, n)
    ensures Advanced(g, h, WithNode(g, n, Voted(nd, role, t, candidate)), CastVote(h, n, t, Ballot(candidate, nd.log)), n)
  {
    hide Evolves, OnlyNode, Past, Keeps;
    var g' := WithNode(g, n, Voted(nd, role, t, candidate));
    var h' := CastVote(h, n, t, Ballot(candidate, nd.log));
    VoteEvolves(g, h, n, nd, g'.nodes[n], t, Ballot(candidate, nd.log));
    VoteKeeps(g, h, g', h', n, nd, t);
    NotLeaderYet(g, h, n, t);
    VoteNode(g', h', h, n, nd, role, t, candidate);
    VoteBallot(g', h', h, n, nd, role, t, candidate);
    VotePast(g, h, g', h', n, t);
  }

  lemma VoteKeeps(g: Group, h: Ghosts, g': Group, h': Ghosts, n: NodeId, nd: NodeState, t: nat)
    requires Past(g, h) && n in g.nodes && nd == g.nodes[n] && NodeOk(g, h, n, nd)
    requires nd.currentTerm <= t && h'.acks == h.acks && Evolves(g, h, g', h')
    ensures LogOk(h', nd.log) && Keeps(g', h', n, t, nd.log) && Committed(g', h', nd.log[..nd.commitIndex + 1], t)
    ensures StoredOk(g, h, n, t, nd.log)
  {
    KeepsLater(g, h, n, t, nd.log);
    VoteStored(g, h, n, nd.log, t);
    KeepsMoves(g, h, g', h', n, t, nd.log);
    LogOkGrows(g, h, g', h', nd.log);
    CommittedGrows(g, h, g', h', nd.log[..nd.commitIndex + 1], nd.currentTerm, t);
  }

  lemma VotePast(g: Group, h: Ghosts, g': Group, h': Ghosts, n: NodeId, t: nat)
    requires Past(g, h) && Evolves(g, h, g', h') && OnlyNode(g, h, g', h', n)
    requires h'.acks == h.acks && h'.termLog == h.termLog
    requires forall u :: (n, u) in h'.ballots ==> (n, u) in h.ballots || u == t
    requires (n, t) in h'.ballots && BallotOk(g', h', n, t)
    ensures Past(g', h')
  {
    VoteAcks(g, h, g', h', n);
    CompleteFrame(g, h, g', h');
    PastFrame(g, h, g', h', n);
  }

  lemma VoteEvolves(g: Group, h: Ghosts, n: NodeId, nd: NodeState, now: NodeState, t: nat, b: Ballot)
    requires Shape(g, h) && n in g.members && nd == g.nodes[n] && nd.currentTerm <= now.currentTerm && nd.wal <= now.wal
    requires (n, t) !in h.ballots
    ensures var g' := WithNode(g, n, now); var h' := CastVote(h, n, t, b);
      Shape(g', h') && Evolves(g, h, g', h') && OnlyNode(g, h, g', h', n)
  {
    var h' := CastVote(h, n, t, b);
    NodeGrows(g, n, now);
    assert forall p: NodeId, u: nat :: Acked(h', p, u) == Acked(h, p, u);
    assert OnlyAbout(h, h', n);
    assert RecordsGrow(h, h');
  }

  /** A node that has not voted in `t` does not lead `t`. */
  lemma NotLeaderYet(g: Group, h: Ghosts, n: NodeId, t: nat)
    requires Shape(g, h) && Past(g, h) && (n, t) !in h.ballots
    ensures t in h.leaderOf ==> h.leaderOf[t] != n
  {
    if t in h.leaderOf {
      assert TermOk(g, h, t);
    }
  }

  lemma VoteAcks(g: Group, h: Ghosts, g': Group, h': Ghosts, n: NodeId)
    requires n in g.members && Evolves(g, h, g', h') && h'.acks == h.acks
    requires forall p, t :: (p, t) in h.acks ==> AckOk(g, h, p, t)
    ensures forall u :: (n, u) in h'.acks ==> AckOk(g', h', n, u)
  {
    forall u | (n, u) in h'.acks ensures AckOk(g', h', n, u) {
      assert AckOk(g, h, n, u);
    }
  }

  /** What `n` has acknowledged in the term it votes in is in its log. */
  lemma VoteStored(g: Group, h: Ghosts, n: NodeId, log: seq<Entry>, t: nat)
    requires n in g.nodes && (forall p, u :: (p, u) in h.acks ==> AckOk(g, h, p, u))
    requires StoredOk(g, h, n, g.nodes[n].currentTerm, log) && g.nodes[n].currentTerm <= t && Keeps(g, h, n, t, log)
    ensures StoredOk(g, h, n, t, log)
  {
    if (n, t) in h.acks {
      assert AckOk(g, h, n, t);
    }
  }

  lemma VoteNode(g': Group, h': Ghosts, h: Ghosts, n: NodeId, nd: NodeState, role: Role, t: nat, candidate: NodeId)
    requires LocalOk(nd) && Bounded(nd.log, nd.currentTerm) && nd.currentTerm <= t
    requires VoteRecordsOk(h, n, nd.wal) && (n, t) !in h.ballots && h' == CastVote(h, n, t, Ballot(candidate, nd.log))
    requires candidate != NO_VOTE && (role == Follower || (role == Candidate && candidate == n))
    requires LogOk(h', nd.log) && Keeps(g', h', n, t, nd.log) && Committed(g', h', nd.log[..nd.commitIndex + 1], t)
    requires (n, t) in h.acks ==>
      t in h.termLog && h.acks[(n, t)] <= |h.termLog[t]| && h.termLog[t][..h.acks[(n, t)]] <= nd.log
    requires nd.matchIndex.Keys <= Peers(g', n) && nd.nextIndex.Keys <= Peers(g', n)
    requires t in h'.leaderOf ==> h'.leaderOf[t] != n
    ensures NodeOk(g', h', n, Voted(nd, role, t, candidate))
  {
    hide Keeps, LogOk, Committed;
    var now := Voted(nd, role, t, candidate);
    ReplayAppend(nd.wal, StateRecord(t, candidate));
    assert VoteRecordsOk(h', n, now.wal) by {
      forall i | 0 <= i < |now.wal| && now.wal[i].StateRecord? && now.wal[i].votedFor != NO_VOTE
        ensures VotedIn(h', n, now.wal[i].term, now.wal[i].votedFor)
      {
        if i < |nd.wal| { assert now.wal[i] == nd.wal[i]; }
      }
    }
  }

  lemma VoteBallot(g': Group, h': Ghosts, h: Ghosts, n: NodeId, nd: NodeState, role: Role, t: nat, candidate: NodeId)
    requires n in g'.members && n in g'.nodes && g'.nodes[n] == Voted(nd, role, t, candidate)
    requires (n, t) !in h.ballots && h' == CastVote(h, n, t, Ballot(candidate, nd.log))
    requires candidate in g'.members && 1 <= t && Eligible(h, n, nd, t, candidate) && Bounded(nd.log, nd.currentTerm)
    requires LogOk(h', nd.log) && Keeps(g', h', n, t, nd.log)
    ensures BallotOk(g', h', n, t)
  {
    assert g'.nodes[n].wal[|nd.wal|] == StateRecord(t, candidate);
  }

  /** Granting the same vote again only rewrites the record. */
  lemma RegrantOk(g: Group, h: Ghosts, n: NodeId, nd: NodeState)
    requires NodeOk(g, h, n, nd)
    ensures NodeOk(g, h, n, nd.(wal := nd.wal + [StateRecord(nd.currentTerm, nd.votedFor)]))
  {
    var wal := nd.wal + [StateRecord(nd.currentTerm, nd.votedFor)];
    ReplayAppend(nd.wal, StateRecord(nd.currentTerm, nd.votedFor));
    assert VoteRecordsOk(h, n, wal) by {
      forall i | 0 <= i < |wal| && wal[i].StateRecord? && wal[i].votedFor != NO_VOTE
        ensures VotedIn(h, n, wal[i].term, wal[i].votedFor)
      {
        if i < |nd.wal| { assert wal[i] == nd.wal[i]; }
      }
    }
  }

  // ---------- elections ----------

  /** Two majorities share a voter, and a voter has one ballot: a term has one winner. */
  lemma OneWinner(g: Group, h: Ghosts, t: nat, n: NodeId, voters: set<NodeId>)
    requires Past(g, h) && t in h.termLog && Majority(voters, g.members)
    requires forall p :: p in voters ==> VotedIn(h, p, t, n)
    ensures t in h.leaderOf && h.leaderOf[t] == n
  {
    assert TermOk(g, h, t);
    var p := QuorumsMeet(h.voters[t], voters, g.members);
    assert VotedIn(h, p, t, n) && VotedIn(h, p, t, h.leaderOf[t]);
  }

  /** The heart of the election restriction: a winner's log holds everything that may still be committed. */
  lemma WinnerHolds(g: Group, h: Ghosts, n: NodeId, nd: NodeState, voters: set<NodeId>, t: nat, len: nat)
    requires Past(g, h) && g.nodes.Keys == g.members && Majority(voters, g.members)
    requires CandidateOk(h, n, nd.currentTerm, nd.log) && LogOk(h, nd.log)
    requires forall p :: p in voters ==> VotedIn(h, p, nd.currentTerm, n)
    requires t < nd.currentTerm && Live(g, h, t, len)
    ensures h.termLog[t][..len] <= nd.log
  {
    var p := QuorumsMeet(Hopefuls(g, h, t, len), voters, g.members);
    assert VotedIn(h, p, nd.currentTerm, n);
    assert BallotOk(g, h, p, nd.currentTerm);
    var b := h.ballots[(p, nd.currentTerm)];
    var kept := h.termLog[t][..len];
    assert kept <= b.log;
    assert TermOk(g, h, t);
    LastTermGrows(g, h, b.log, len);
    assert b.log[len - 1] == kept[len - 1];
    if LastTerm(nd.log) == LastTerm(b.log) {
      SameLastTerm(h, nd.log, b.log);
    } else {
      LaterLastTerm(g, h, nd.log, t, len, nd.currentTerm);
    }
  }

  /** Terms never decrease along a log. */
  lemma LastTermGrows(g: Group, h: Ghosts, log: seq<Entry>, len: nat)
    requires (forall t :: t in h.termLog ==> TermOk(g, h, t)) && LogOk(h, log) && 1 <= len <= |log|
    ensures log[len - 1].term <= LastTerm(log)
  {
    var last := log[|log| - 1];
    assert log[..|log|] <= h.termLog[last.term];
    assert log[len - 1] == h.termLog[last.term][len - 1];
    assert TermOk(g, h, last.term);
  }

  /** Equal last terms: both logs are cut from one leader's log, so the longer holds the shorter. */
  lemma SameLastTerm(h: Ghosts, a: seq<Entry>, b: seq<Entry>)
    requires LogOk(h, a) && LogOk(h, b) && b != [] && LastTerm(a) == LastTerm(b) && LastIndex(a) >= LastIndex(b)
    requires a != []
    ensures b <= a
  {
    assert a[..|a|] == a && b[..|b|] == b;
    assert a <= h.termLog[LastTerm(a)] && b <= h.termLog[LastTerm(b)];
  }

  /** A later last term `u`: the log is cut from the leader of `u`, who already held the prefix, and reaches past it. */
  lemma LaterLastTerm(g: Group, h: Ghosts, log: seq<Entry>, t: nat, len: nat, term: nat)
    requires Past(g, h) && LogOk(h, log) && LastTerm(log) > t && Live(g, h, t, len)
    ensures h.termLog[t][..len] <= log
  {
    var u := LastTerm(log);
    var kept := h.termLog[t][..len];
    assert log[..|log|] == log;
    assert log <= h.termLog[u];
    assert kept <= h.termLog[u];
  }

  ghost predicate Winning(g: Group, h: Ghosts, n: NodeId, nd: NodeState, voters: set<NodeId>) {
    && nd.role == Candidate && n in voters && Majority(voters, g.members)
    && forall p :: p in voters ==> VotedIn(h, p, nd.currentTerm, n)
  }

  lemma ElectStep(g: Group, h: Ghosts, n: NodeId, nd: NodeState, voters: set<NodeId>)
    requires GroupInv(g, h) && n in g.members && nd == g.nodes[n] && Winning(g, h, n, nd, voters)
    ensures var g' := WithNode(g, n, BecomeLeader(nd, Peers(g, n)));
      var h' := Elect(h, n, nd, voters);
      GroupInv(g', h') && Evolves(g, h, g', h')
  {
    assert NodeOk(g, h, n, nd);
    ElectAdvanced(g, h, n, nd, voters);
    GroupFrame(g, h, WithNode(g, n, BecomeLeader(nd, Peers(g, n))), Elect(h, n, nd, voters), n);
  }

  lemma ElectAdvanced(g: Group, h: Ghosts, n: NodeId, nd: NodeState, voters: set<NodeId>)
    requires Shape(g, h) && Past(g, h) && n in g.members && nd == g.nodes[n] && NodeOk(g, h, n, nd)
    requires Winning(g, h, n, nd, voters)
    ensures Advanced(g, h, WithNode(g, n, BecomeLeader(nd, Peers(g, n))), Elect(h, n, nd, voters), n)
  {
    hide Evolves, OnlyNode, Past, Keeps;
    var t := nd.currentTerm;
    var g' := WithNode(g, n, BecomeLeader(nd, Peers(g, n)));
    var h' := Elect(h, n, nd, voters);
    FreshTerm(g, h, n, nd, voters);
    ElectEvolves(g, h, n, nd, voters);
    LogOkGrows(g, h, g', h', nd.log);
    KeepsMoves(g, h, g', h', n, t, nd.log);
    CommittedGrows(g, h, g', h', nd.log[..nd.commitIndex + 1], t, t);
    LeaderMaps(nd, Peers(g, n));
    ElectNode(g', h', h, n, nd, BecomeLeader(nd, Peers(g, n)), voters);
    ElectPast(g, h, n, nd, voters);
  }

  lemma ElectPast(g: Group, h: Ghosts, n: NodeId, nd: NodeState, voters: set<NodeId>)
    requires Shape(g, h) && Past(g, h) && n in g.members && nd == g.nodes[n]
    requires CandidateOk(h, n, nd.currentTerm, nd.log) && LogOk(h, nd.log) && Bounded(nd.log, nd.currentTerm - 1)
    requires Winning(g, h, n, nd, voters) && nd.currentTerm !in h.termLog && nd.currentTerm >= 1
    requires var g' := WithNode(g, n, BecomeLeader(nd, Peers(g, n)));
      var h' := Elect(h, n, nd, voters);
      Evolves(g, h, g', h') && OnlyNode(g, h, g', h', n) && LogOk(h', nd.log)
    ensures Past(WithNode(g, n, BecomeLeader(nd, Peers(g, n))), Elect(h, n, nd, voters))
  {
    var g' := WithNode(g, n, BecomeLeader(nd, Peers(g, n)));
    var h' := Elect(h, n, nd, voters);
    ElectTerm(g', h', h, n, nd, voters);
    ElectComplete(g, h, n, nd, voters);
    ElectAcks(g, h, n, nd, voters);
    PastFrame(g, h, g', h', n);
  }

  lemma FreshTerm(g: Group, h: Ghosts, n: NodeId, nd: NodeState, voters: set<NodeId>)
    requires Shape(g, h) && Past(g, h) && CandidateOk(h, n, nd.currentTerm, nd.log) && Winning(g, h, n, nd, voters)
    ensures nd.currentTerm !in h.termLog && (n, nd.currentTerm) !in h.acks
    ensures nd.currentTerm >= 1 && Bounded(nd.log, nd.currentTerm - 1)
  {
    var t := nd.currentTerm;
    if t in h.termLog {
      OneWinner(g, h, t, n, voters);
      assert false;
    }
    assert BallotOk(g, h, n, t);
  }

  lemma ElectEvolves(g: Group, h: Ghosts, n: NodeId, nd: NodeState, voters: set<NodeId>)
    requires Shape(g, h) && n in g.members && nd == g.nodes[n]
    requires nd.currentTerm !in h.termLog && (n, nd.currentTerm) !in h.acks
    ensures var g' := WithNode(g, n, BecomeLeader(nd, Peers(g, n)));
      var h' := Elect(h, n, nd, voters);
      Shape(g', h') && Evolves(g, h, g', h') && OnlyNode(g, h, g', h', n)
  {
    NodeGrows(g, n, BecomeLeader(nd, Peers(g, n)));
    ElectRecords(h, n, nd, voters);
    AcksUpdated(g, h, Elect(h, n, nd, voters), n, nd.currentTerm, |nd.log|);
  }

  lemma ElectRecords(h: Ghosts, n: NodeId, nd: NodeState, voters: set<NodeId>)
    requires h.leaderOf.Keys == h.termLog.Keys && h.voters.Keys == h.termLog.Keys && nd.currentTerm !in h.termLog
    ensures var h' := Elect(h, n, nd, voters);
      && RecordsGrow(h, h')
      && h'.leaderOf.Keys == h'.termLog.Keys && h'.voters.Keys == h'.termLog.Keys
      && (forall t :: t in h'.termLog ==> t in h'.leaderOf && ((t in h.termLog && h'.termLog[t] == h.termLog[t]) || h'.leaderOf[t] == n))
      && (forall t :: t in h'.leaderOf ==> t in h.leaderOf || h'.leaderOf[t] == n)
  {
  }

  /** Raising one acknowledgement, in the term the node is in. */
  lemma AcksUpdated(g: Group, h: Ghosts, h': Ghosts, n: NodeId, t: nat, len: nat)
    requires g.nodes.Keys == g.members && n in g.members && g.nodes[n].currentTerm == t
    requires h'.acks == h.acks[(n, t) := len] && Acked(h, n, t) <= len
    ensures AcksGrow(g, h, h')
    ensures forall p: NodeId, u: nat :: p != n ==> Acked(h', p, u) == Acked(h, p, u)
  {
    assert forall p: NodeId, u: nat :: (p, u) != (n, t) ==> Acked(h', p, u) == Acked(h, p, u);
  }

  lemma LeaderMaps(nd: NodeState, peers: set<NodeId>)
    requires nd.role != Leader && nd.matchIndex.Keys <= peers && nd.nextIndex.Keys <= peers
    ensures var now := BecomeLeader(nd, peers);
      && now == nd.(role := Leader, nextIndex := now.nextIndex, matchIndex := now.matchIndex)
      && now.matchIndex.Keys == peers && (forall p :: p in now.matchIndex ==> now.matchIndex[p] == -1)
      && NextOk(peers, |nd.log|, now.nextIndex)
  {
  }

  lemma ElectNode(g': Group, h': Ghosts, h: Ghosts, n: NodeId, nd: NodeState, now: NodeState, voters: set<NodeId>)
    requires LocalOk(nd) && Bounded(nd.log, nd.currentTerm)
    requires VoteOk(h, n, nd.currentTerm, nd.votedFor) && VoteRecordsOk(h, n, nd.wal)
    requires h' == Elect(h, n, nd, voters)
    requires LogOk(h', nd.log) && Keeps(g', h', n, nd.currentTerm, nd.log)
    requires Committed(g', h', nd.log[..nd.commitIndex + 1], nd.currentTerm)
    requires now == nd.(role := Leader, nextIndex := now.nextIndex, matchIndex := now.matchIndex)
    requires now.matchIndex.Keys == Peers(g', n) && (forall p :: p in now.matchIndex ==> now.matchIndex[p] == -1)
    requires NextOk(Peers(g', n), |nd.log|, now.nextIndex)
    ensures NodeOk(g', h', n, now)
  {
    hide Keeps, LogOk, Committed;
    assert VoteRecordsOk(h', n, nd.wal);
    assert MatchOk(h', nd.currentTerm, Peers(g', n), now.matchIndex);
    assert StoredOk(g', h', n, nd.currentTerm, nd.log);
    assert LeaderOk(h', n, nd.currentTerm, nd.log);
  }

  lemma ElectTerm(g': Group, h': Ghosts, h: Ghosts, n: NodeId, nd: NodeState, voters: set<NodeId>)
    requires Winning(g', h, n, nd, voters) && h' == Elect(h, n, nd, voters) && nd.currentTerm >= 1
    requires LogOk(h', nd.log) && Bounded(nd.log, nd.currentTerm)
    ensures TermOk(g', h', nd.currentTerm)
  {
  }

  lemma ElectAcks(g: Group, h: Ghosts, n: NodeId, nd: NodeState, voters: set<NodeId>)
    requires Past(g, h) && n in g.members && n in g.nodes && nd == g.nodes[n]
    ensures var g' := WithNode(g, n, BecomeLeader(nd, Peers(g, n)));
      var h' := Elect(h, n, nd, voters);
      forall u :: (n, u) in h'.acks ==> AckOk(g', h', n, u)
  {
    var g' := WithNode(g, n, BecomeLeader(nd, Peers(g, n)));
    var h' := Elect(h, n, nd, voters);
    forall u | (n, u) in h'.acks ensures AckOk(g', h', n, u) {
      if u != nd.currentTerm { assert AckOk(g, h, n, u); }
    }
  }

  lemma ElectComplete(g: Group, h: Ghosts, n: NodeId, nd: NodeState, voters: set<NodeId>)
    requires Shape(g, h) && Past(g, h) && n in g.members && nd == g.nodes[n]
    requires CandidateOk(h, n, nd.currentTerm, nd.log) && LogOk(h, nd.log) && Winning(g, h, n, nd, voters)
    requires nd.currentTerm !in h.termLog && Bounded(nd.log, nd.currentTerm - 1)
    requires Evolves(g, h, WithNode(g, n, BecomeLeader(nd, Peers(g, n))), Elect(h, n, nd, voters))
    ensures Complete(WithNode(g, n, BecomeLeader(nd, Peers(g, n))), Elect(h, n, nd, voters))
  {
    hide Hopefuls, Holders, Evolves, LogOk, Past, Keeps;
    var g' := WithNode(g, n, BecomeLeader(nd, Peers(g, n)));
    var h' := Elect(h, n, nd, voters);
    PastComplete(g, h);
    forall t: nat, u: nat, len: nat | t < u && u in h'.termLog && Live(g', h', t, len)
      ensures h'.termLog[t][..len] <= h'.termLog[u]
    {
      if t == nd.currentTerm {
        assert false;
      } else {
        LiveShrinks(g, h, g', h', t, len);
        if u == nd.currentTerm {
          WinnerHolds(g, h, n, nd, voters, t, len);
        }
      }
    }
  }

  // ---------- a leader's own append ----------

  lemma ExtendStep(g: Group, h: Ghosts, n: NodeId, nd: NodeState, e: Entry)
    requires GroupInv(g, h) && n in g.members && nd == g.nodes[n] && nd.role == Leader
    requires e.index == |nd.log| && e.term == nd.currentTerm
    ensures var g' := WithNode(g, n, Appended(nd, e));
      var h' := Extend(h, n, nd.currentTerm, nd.log + [e]);
      GroupInv(g', h') && Evolves(g, h, g', h')
  {
    assert NodeOk(g, h, n, nd);
    ExtendAdvanced(g, h, n, nd, e);
    GroupFrame(g, h, WithNode(g, n, Appended(nd, e)), Extend(h, n, nd.currentTerm, nd.log + [e]), n);
  }

  lemma ExtendAdvanced(g: Group, h: Ghosts, n: NodeId, nd: NodeState, e: Entry)
    requires Shape(g, h) && Past(g, h) && n in g.members && nd == g.nodes[n] && NodeOk(g, h, n, nd) && nd.role == Leader
    requires e.index == |nd.log| && e.term == nd.currentTerm
    ensures Advanced(g, h, WithNode(g, n, Appended(nd, e)), Extend(h, n, nd.currentTerm, nd.log + [e]), n)
  {
    hide Evolves, OnlyNode, Past, Keeps;
    var t := nd.currentTerm;
    var g' := WithNode(g, n, Appended(nd, e));
    var h' := Extend(h, n, t, nd.log + [e]);
    ExtendEvolves(g, h, n, nd, e);
    LogOkGrows(g, h, g', h', nd.log);
    ExtendLogOk(h', nd.log, e);
    KeepsMoves(g, h, g', h', n, t, nd.log);
    CommittedGrows(g, h, g', h', nd.log[..nd.commitIndex + 1], t, t);
    ExtendNode(g', h', h, n, nd, e);
    ExtendPast(g, h, n, nd, e);
  }

  lemma ExtendPast(g: Group, h: Ghosts, n: NodeId, nd: NodeState, e: Entry)
    requires Shape(g, h) && Past(g, h) && n in g.members && nd == g.nodes[n] && LeaderOk(h, n, nd.currentTerm, nd.log)
    requires e.term == nd.currentTerm
    requires var g' := WithNode(g, n, Appended(nd, e));
      var h' := Extend(h, n, nd.currentTerm, nd.log + [e]);
      Evolves(g, h, g', h') && OnlyNode(g, h, g', h', n) && LogOk(h', nd.log + [e])
    ensures Past(WithNode(g, n, Appended(nd, e)), Extend(h, n, nd.currentTerm, nd.log + [e]))
  {
    var g' := WithNode(g, n, Appended(nd, e));
    var h' := Extend(h, n, nd.currentTerm, nd.log + [e]);
    assert TermOk(g, h, nd.currentTerm);
    ExtendTerm(g', h', g, h, n, nd, e);
    ExtendComplete(g, h, n, nd, e);
    ExtendAcks(g, h, n, nd, e);
    assert h'.ballots == h.ballots && h'.termLog == h.termLog[nd.currentTerm := nd.log + [e]];
    ExtendFrame(g, h, g', h', n, nd.currentTerm);
  }

  lemma ExtendFrame(g: Group, h: Ghosts, g': Group, h': Ghosts, n: NodeId, t: nat)
    requires Past(g, h) && Evolves(g, h, g', h') && OnlyNode(g, h, g', h', n)
    requires h'.ballots == h.ballots && t in h'.termLog && h'.termLog == h.termLog[t := h'.termLog[t]] && TermOk(g', h', t)
    requires forall u :: (n, u) in h'.acks ==> AckOk(g', h', n, u)
    requires Complete(g', h')
    ensures Past(g', h')
  {
    PastFrame(g, h, g', h', n);
  }

  lemma ExtendEvolves(g: Group, h: Ghosts, n: NodeId, nd: NodeState, e: Entry)
    requires Shape(g, h) && n in g.members && nd == g.nodes[n] && LeaderOk(h, n, nd.currentTerm, nd.log)
    ensures var g' := WithNode(g, n, Appended(nd, e));
      var h' := Extend(h, n, nd.currentTerm, nd.log + [e]);
      Shape(g', h') && Evolves(g, h, g', h') && OnlyNode(g, h, g', h', n)
  {
    hide AcksGrow, NodesGrow, RecordsGrow, Acked;
    var h' := Extend(h, n, nd.currentTerm, nd.log + [e]);
    NodeGrows(g, n, Appended(nd, e));
    AcksUpdated(g, h, h', n, nd.currentTerm, |nd.log| + 1);
    ExtendRecords(h, h', nd.currentTerm, nd.log + [e]);
  }

  lemma ExtendRecords(h: Ghosts, h': Ghosts, t: nat, log: seq<Entry>)
    requires t in h.termLog && h.termLog[t] <= log
    requires h' == h.(termLog := h.termLog[t := log], acks := h'.acks)
    ensures RecordsGrow(h, h') && h'.termLog.Keys == h.termLog.Keys
  {
  }

  lemma ExtendLogOk(h': Ghosts, log: seq<Entry>, e: Entry)
    requires LogOk(h', log) && e.index == |log| && e.term in h'.termLog && h'.termLog[e.term] == log + [e]
    ensures LogOk(h', log + [e])
  {
    var now := log + [e];
    forall i | 0 <= i < |now| ensures now[i].index == i && now[i].term in h'.termLog && now[..i + 1] <= h'.termLog[now[i].term] {
      if i < |log| { assert now[..i + 1] == log[..i + 1]; }
    }
  }

  lemma ExtendNode(g': Group, h': Ghosts, h: Ghosts, n: NodeId, nd: NodeState, e: Entry)
    requires LocalOk(nd) && Bounded(nd.log, nd.currentTerm) && nd.role == Leader && e.term == nd.currentTerm
    requires VoteOk(h, n, nd.currentTerm, nd.votedFor) && VoteRecordsOk(h, n, nd.wal)
    requires LeaderOk(h, n, nd.currentTerm, nd.log) && h' == Extend(h, n, nd.currentTerm, nd.log + [e])
    requires MatchOk(h, nd.currentTerm, Peers(g', n), nd.matchIndex) && NextOk(Peers(g', n), |nd.log|, nd.nextIndex)
    requires LogOk(h', nd.log + [e]) && Keeps(g', h', n, nd.currentTerm, nd.log)
    requires Committed(g', h', nd.log[..nd.commitIndex + 1], nd.currentTerm)
    ensures NodeOk(g', h', n, Appended(nd, e))
  {
    hide Committed;
    var now := Appended(nd, e);
    ReplayAppend(nd.wal, EntryRecord(e));
    assert VoteRecordsOk(h', n, nd.wal);
    VoteRecordsGrow(h', n, nd.wal, now.wal);
    assert now.log[..nd.commitIndex + 1] == nd.log[..nd.commitIndex + 1];
    assert now.log[..nd.lastApplied + 1] == nd.log[..nd.lastApplied + 1];
    assert Keeps(g', h', n, nd.currentTerm, now.log);
  }

  lemma ExtendTerm(g': Group, h': Ghosts, g: Group, h: Ghosts, n: NodeId, nd: NodeState, e: Entry)
    requires TermOk(g, h, nd.currentTerm) && g'.members == g.members && e.term == nd.currentTerm
    requires LeaderOk(h, n, nd.currentTerm, nd.log)
    requires h' == Extend(h, n, nd.currentTerm, nd.log + [e]) && LogOk(h', nd.log + [e])
    ensures TermOk(g', h', nd.currentTerm)
  {
    forall p | p in h'.voters[nd.currentTerm] ensures VotedIn(h', p, nd.currentTerm, n) {
      assert VotedIn(h, p, nd.currentTerm, n);
    }
  }

  lemma ExtendAcks(g: Group, h: Ghosts, n: NodeId, nd: NodeState, e: Entry)
    requires Past(g, h) && n in g.members && n in g.nodes && nd == g.nodes[n] && LeaderOk(h, n, nd.currentTerm, nd.log)
    ensures var g' := WithNode(g, n, Appended(nd, e));
      var h' := Extend(h, n, nd.currentTerm, nd.log + [e]);
      forall u :: (n, u) in h'.acks ==> AckOk(g', h', n, u)
  {
    var g' := WithNode(g, n, Appended(nd, e));
    var h' := Extend(h, n, nd.currentTerm, nd.log + [e]);
    forall u | (n, u) in h'.acks ensures AckOk(g', h', n, u) {
      if u != nd.currentTerm { assert AckOk(g, h, n, u); }
    }
  }

  /** A leader that has been superseded without knowing it appends in vain: the new entry can no longer be chosen. */
  lemma SupersededIsDead(g: Group, h: Ghosts, g': Group, h': Ghosts, t: nat, u: nat, len: nat)
    requires Past(g, h) && g.nodes.Keys == g.members && Evolves(g, h, g', h')
    requires t < u && u in h.termLog && t in h.termLog && len > |h.termLog[t]|
    ensures !Live(g', h', t, len)
  {
    if Live(g', h', t, len) {
      assert TermOk(g, h, u);
      var p := QuorumsMeet(Hopefuls(g', h', t, len), h.voters[u], g.members);
      assert false;
    }
  }

  lemma ExtendComplete(g: Group, h: Ghosts, n: NodeId, nd: NodeState, e: Entry)
    requires Shape(g, h) && Past(g, h) && n in g.members && nd == g.nodes[n] && LeaderOk(h, n, nd.currentTerm, nd.log)
    requires Evolves(g, h, WithNode(g, n, Appended(nd, e)), Extend(h, n, nd.currentTerm, nd.log + [e]))
    ensures Complete(WithNode(g, n, Appended(nd, e)), Extend(h, n, nd.currentTerm, nd.log + [e]))
  {
    hide Hopefuls, Holders, AcksGrow, NodesGrow, Appended;
    var g' := WithNode(g, n, Appended(nd, e));
    var h' := Extend(h, n, nd.currentTerm, nd.log + [e]);
    forall t: nat, u: nat, len: nat | t < u && u in h'.termLog && Live(g', h', t, len)
      ensures h'.termLog[t][..len] <= h'.termLog[u]
    {
      if len > |h.termLog[t]| {
        SupersededIsDead(g, h, g', h', t, u, len);
        assert false;
      } else {
        LiveShrinks(g, h, g', h', t, len);
        assert h.termLog[u] <= h'.termLog[u];
      }
    }
  }
}
