/** Every event of the cluster keeps the invariant. */
module Steps {
  import opened Storage
  import opened Kv
  import opened Replica
  import opened LogMerge
  import opened Cluster
  import opened History
  import opened Growth
  import opened NodeSteps
  import opened HistorySteps
  import opened AppendSteps

  // ---------- the acting node, action by action ----------

  lemma TimeoutGroup(g: Group, h: Ghosts, n: NodeId, nd: NodeState)
    requires GroupInv(g, h) && n in g.members && nd == g.nodes[n] && nd.role != Leader
    ensures var now := StartElection(n, nd).0;
      var h' := CastVote(h, n, now.currentTerm, Ballot(n, nd.log));
      && GroupInv(WithNode(g, n, now), h') && Evolves(g, h, WithNode(g, n, now), h')
      && VotedIn(h', n, now.currentTerm, n) && h'.ballots[(n, now.currentTerm)].log == nd.log
      && (n, now.currentTerm) !in h.ballots
  {
    hide GroupInv, Past, Evolves;
    At(g, h, n);
    Untouched(g, h, n, nd.currentTerm + 1);
    VoteStep(g, h, n, nd, Candidate, nd.currentTerm + 1, n);
  }

  /** A node that has not voted in its term is a follower. */
  lemma NoVoteFollower(g: Group, h: Ghosts, n: NodeId, nd: NodeState)
    requires Past(g, h) && NodeOk(g, h, n, nd) && nd.votedFor == NO_VOTE
    ensures nd.role == Follower && (n, nd.currentTerm) !in h.ballots
  {
    if nd.role == Leader {
      assert false;
    }
  }

  lemma CandidateKnown(g: Group, h: Ghosts, req: VoteRequest)
    requires Past(g, h) && VoteRequestOk(h, req)
    ensures req.candidateId in g.members && req.term >= 1 && Bounded(h.ballots[(req.candidateId, req.term)].log, req.term - 1)
  {
    assert BallotOk(g, h, req.candidateId, req.term);
  }

  function NewTerm(nd: NodeState, term: nat): NodeState {
    if term > nd.currentTerm then StepDown(nd, term) else nd
  }

  lemma NewTermStep(g: Group, h: Ghosts, n: NodeId, nd: NodeState, term: nat)
    requires GroupInv(g, h) && n in g.members && nd == g.nodes[n]
    ensures var g' := WithNode(g, n, NewTerm(nd, term)); GroupInv(g', h) && Evolves(g, h, g', h)
  {
    hide GroupInv, Past, Evolves, NodeOk;
    At(g, h, n);
    if term > nd.currentTerm {
      StepDownOk(g, h, n, nd, term);
      Swap(g, h, n, StepDown(nd, term));
    } else {
      Same(g, h, n);
    }
  }

  /** The vote itself, in the term of the request. */
  lemma GrantStep(g: Group, h: Ghosts, n: NodeId, now: NodeState, req: VoteRequest)
    requires GroupInv(g, h) && n in g.members && now == g.nodes[n] && now.currentTerm == req.term
    requires VoteRequestOk(h, req) && req.candidateId != n
    requires now.votedFor == NO_VOTE || now.votedFor == req.candidateId
    requires UpToDate(req.lastLogIndex, req.lastLogTerm, now.log)
    ensures var after := now.(votedFor := req.candidateId, wal := now.wal + [StateRecord(now.currentTerm, req.candidateId)]);
      var h' := CastVote(h, n, req.term, Ballot(req.candidateId, now.log));
      && GroupInv(WithNode(g, n, after), h') && Evolves(g, h, WithNode(g, n, after), h')
      && VotedIn(h', n, req.term, req.candidateId)
  {
    hide GroupInv, Past, Evolves, Bounded;
    At(g, h, n);
    CandidateKnown(g, h, req);
    if now.votedFor == NO_VOTE {
      NoVoteFollower(g, h, n, now);
      VoteStep(g, h, n, now, Follower, req.term, req.candidateId);
    } else {
      RegrantOk(g, h, n, now);
      Swap(g, h, n, now.(wal := now.wal + [StateRecord(now.currentTerm, now.votedFor)]));
    }
  }

  lemma ReceiveVoteGroup(g: Group, h: Ghosts, n: NodeId, nd: NodeState, req: VoteRequest)
    requires GroupInv(g, h) && n in g.members && nd == g.nodes[n] && VoteRequestOk(h, req) && req.candidateId != n
    ensures var (now, resp) := HandleRequestVote(nd, req);
      var h' := if resp.voteGranted then CastVote(h, n, req.term, Ballot(req.candidateId, nd.log)) else h;
      && GroupInv(WithNode(g, n, now), h') && Evolves(g, h, WithNode(g, n, now), h')
      && (resp.voteGranted ==> VotedIn(h', n, req.term, req.candidateId))
  {
    hide GroupInv, Past, Evolves, VoteRequestOk, UpToDate, CastVote, VotedIn;
    NewTermStep(g, h, n, nd, req.term);
    Same(g, h, n);
    var mid := NewTerm(nd, req.term);
    var (now, resp) := HandleRequestVote(nd, req);
    if resp.voteGranted {
      var g1 := WithNode(g, n, mid);
      GrantStep(g1, h, n, mid, req);
      Twice(g, n, mid, now);
      EvolvesTrans(g, h, g1, h, WithNode(g, n, now), CastVote(h, n, req.term, Ballot(req.candidateId, nd.log)));
    }
  }

  lemma ReceiveVoteCut(g: Group, h: Ghosts, n: NodeId, nd: NodeState, req: VoteRequest, cut: nat)
    requires GroupInv(g, h) && n in g.members && nd == g.nodes[n]
    requires |nd.wal| < cut < |HandleRequestVote(nd, req).0.wal|
    ensures var dead := Recover(HandleRequestVote(nd, req).0.wal[..cut]);
      GroupInv(WithNode(g, n, dead), h) && Evolves(g, h, WithNode(g, n, dead), h)
  {
    hide GroupInv, Past, Evolves, Recover;
    var mid := NewTerm(nd, req.term);
    NewTermStep(g, h, n, nd, req.term);
    assert HandleRequestVote(nd, req).0.wal[..cut] == mid.wal;
    ResetNext(g, h, WithNode(g, n, mid), h, n, mid);
  }

  lemma VoteReplyGroup(g: Group, h: Ghosts, n: NodeId, nd: NodeState, term: nat, resp: VoteResponse)
    requires GroupInv(g, h) && n in g.members && nd == g.nodes[n]
    ensures var g' := WithNode(g, n, HandleVoteReply(nd, term, resp).0); GroupInv(g', h) && Evolves(g, h, g', h)
  {
    hide GroupInv, Past, Evolves;
    Same(g, h, n);
    NewTermStep(g, h, n, nd, resp.term);
  }

  /** A tally above half the cluster is a majority of ballots. */
  lemma TallyWins(g: Group, h: Ghosts, n: NodeId, nd: NodeState, tally: set<NodeId>)
    requires Shape(g, h) && Past(g, h) && n in g.members && nd.role == Candidate
    requires TallyOk(h, n, nd.currentTerm, tally) && 1 + |tally| > (|Peers(g, n)| + 1) / 2
    ensures Winning(g, h, n, nd, tally + {n})
  {
    var voters := tally + {n};
    forall p | p in voters ensures VotedIn(h, p, nd.currentTerm, n) && p in g.members {
      assert BallotOk(g, h, p, nd.currentTerm);
    }
    assert |voters| == |tally| + 1;
    assert |g.members| == |Peers(g, n)| + 1 by { assert g.members == Peers(g, n) + {n}; }
  }

  lemma PromoteGroup(g: Group, h: Ghosts, n: NodeId, nd: NodeState, term: nat, tally: set<NodeId>)
    requires GroupInv(g, h) && n in g.members && nd == g.nodes[n] && TallyOk(h, n, term, tally)
    ensures var now := CheckVotes(nd, Peers(g, n), term, 1 + |tally|);
      var h' := if nd.role != Leader && now.role == Leader then Elect(h, n, nd, tally + {n}) else h;
      GroupInv(WithNode(g, n, now), h') && Evolves(g, h, WithNode(g, n, now), h')
  {
    hide GroupInv, Past, Evolves, Elect, Winning;
    Same(g, h, n);
    At(g, h, n);
    if nd.role == Candidate && nd.currentTerm == term && 1 + |tally| > (|Peers(g, n)| + 1) / 2 {
      TallyWins(g, h, n, nd, tally);
      ElectStep(g, h, n, nd, tally + {n});
    }
  }

  lemma AppendReplyGroup(g: Group, h: Ghosts, n: NodeId, nd: NodeState, reply: AppendReply)
    requires GroupInv(g, h) && n in g.members && nd == g.nodes[n]
    requires AppendReplyOk(g, h, reply) && reply.request.leaderId == n
    ensures var g' := WithNode(g, n, HandleAppendReply(nd, Peers(g, n), reply.from, reply.request, reply.response));
      GroupInv(g', h) && Evolves(g, h, g', h)
  {
    hide GroupInv, Past, Evolves, NodeOk, AppendReplyOk, CommitTarget;
    Same(g, h, n);
    At(g, h, n);
    NewTermStep(g, h, n, nd, reply.response.term);
    var now := HandleAppendReply(nd, Peers(g, n), reply.from, reply.request, reply.response);
    if nd.role == Leader && nd.currentTerm == reply.request.term && reply.response.term <= nd.currentTerm {
      if reply.response.success && reply.request.entries != [] {
        ReplyMatchOk(g, h, n, nd, reply);
        var last := reply.request.prevLogIndex + |reply.request.entries|;
        AdvanceOk(g, h, n, nd.(matchIndex := nd.matchIndex[reply.from := last], nextIndex := nd.nextIndex[reply.from := last + 1]));
        Swap(g, h, n, now);
      } else if !reply.response.success && reply.request.prevLogIndex >= 0 {
        BackOffOk(g, h, n, nd, reply);
        Swap(g, h, n, now);
      }
    }
  }

  lemma ApplyGroup(g: Group, h: Ghosts, n: NodeId, nd: NodeState)
    requires GroupInv(g, h) && n in g.members && nd == g.nodes[n]
    ensures var g' := WithNode(g, n, ApplyCommitted(nd)); GroupInv(g', h) && Evolves(g, h, g', h)
  {
    hide GroupInv, Past, Evolves;
    At(g, h, n);
    ApplyOk(nd);
    Swap(g, h, n, ApplyCommitted(nd));
  }

  /** The group after a completed action, whatever it is. */
  lemma ActionGroup(s: State, h: Ghosts, a: Action)
    requires Inv(s, h) && Enabled(s, a)
    ensures var g' := WithNode(s.group, a.node, NodeAfter(s, a));
      GroupInv(g', After(s, h, a)) && Evolves(s.group, h, g', After(s, h, a))
  {
    hide GroupInv, Evolves, VoteRequestOk, VoteReplyOk, TallyOk, AppendReplyOk, AppendOk, RoundOk, Elect, CastVote, Acknowledge, HandleRequestVote, HandleAppendEntries, HandleAppendReply, HandleVoteReply, CheckVotes;
    var g := s.group;
    var n := a.node;
    var nd := g.nodes[n];
    Same(g, h, n);
    match a
    case Timeout(_) => if nd.role != Leader { TimeoutGroup(g, h, n, nd); }
    case ReceiveVoteRequest(_, req) => ReceiveVoteGroup(g, h, n, nd, req);
    case ReceiveVoteReply(_, reply) => VoteReplyGroup(g, h, n, nd, reply.request.term, reply.response);
    case TryPromote(_, term) => PromoteGroup(g, h, n, nd, term, s.net.tallies[(n, term)]);
    case Write(_, operation, key, value) =>
      if nd.role == Leader { ExtendStep(g, h, n, nd, Entry(|nd.log|, nd.currentTerm, operation, key, value)); }
    case StartRound(_) =>
    case SendAppend(_, _) =>
    case ReceiveAppend(_, req) => ReceiveAppendGroup(g, h, n, nd, req);
    case ReceiveAppendReply(_, reply) => AppendReplyGroup(g, h, n, nd, reply);
    case ApplyEntries(_) => ApplyGroup(g, h, n, nd);
  }

  // ---------- messages ----------

  lemma SnapshotOk(g: Group, h: Ghosts, n: NodeId, nd: NodeState, r: Round)
    requires NodeOk(g, h, n, nd) && r in Snapshot(nd, Peers(g, n))
    ensures RoundOk(g, h, n, r)
  {
  }

  /** The leader ships its whole suffix, so what it announces as committed is in what it ships. */
  lemma BuildOk(g: Group, h: Ghosts, n: NodeId, nd: NodeState, r: Round)
    requires NodeOk(g, h, n, nd) && RoundOk(g, h, n, r) && BuildAppend(n, nd, r).Some?
    ensures AppendOk(g, h, BuildAppend(n, nd, r).value) && SentLog(h, BuildAppend(n, nd, r).value) == nd.log
  {
    var req := BuildAppend(n, nd, r).value;
    assert |req.entries| == |nd.log| - r.next;
    assert SentLog(h, req) == nd.log;
  }

  /** The votes side of the network after a completed action. */
  lemma VotesAfter(s: State, h: Ghosts, a: Action)
    requires Inv(s, h) && Enabled(s, a) && VotesInv(s.net, After(s, h, a))
    ensures VotesInv(NetAfter(s, a), After(s, h, a))
  {
    hide GroupInv, AppendsInv, Evolves, HandleAppendEntries, HandleAppendReply, CheckVotes, ApplyCommitted, Elect, Acknowledge;
    var g := s.group;
    var n := a.node;
    var nd := g.nodes[n];
    match a
    case Timeout(_) =>
      if nd.role != Leader { TimeoutGroup(g, h, n, nd); }
    case ReceiveVoteRequest(_, req) =>
      ReceiveVoteGroup(g, h, n, nd, req);
    case _ =>
  }

  lemma AppendsAfter(s: State, h: Ghosts, a: Action)
    requires Inv(s, h) && Enabled(s, a)
    requires var g' := WithNode(s.group, a.node, NodeAfter(s, a));
      Evolves(s.group, h, g', After(s, h, a)) && AppendsInv(g', s.net, After(s, h, a))
    ensures AppendsInv(WithNode(s.group, a.node, NodeAfter(s, a)), NetAfter(s, a), After(s, h, a))
  {
    hide GroupInv, Evolves, VotesInv, RoundOk, AppendOk, NodeOk, Past, Shape, HandleAppendEntries, Acknowledge, HandleRequestVote, HandleAppendReply, HandleVoteReply, CheckVotes, ApplyCommitted, Elect, CastVote;
    var g := s.group;
    var n := a.node;
    var nd := g.nodes[n];
    At(g, h, n);
    Same(g, h, n);
    match a
    case StartRound(_) =>
      forall r | r in Snapshot(nd, Peers(g, n)) ensures RoundOk(g, h, n, r) { SnapshotOk(g, h, n, nd, r); }
    case SendAppend(_, round) =>
      if BuildAppend(n, nd, round).Some? { SendOk(g, h, n, nd, round); }
    case ReceiveAppend(_, req) =>
      ReceiveAppendGroup(g, h, n, nd, req);
      AppendGrows(g, h, WithNode(g, n, NodeAfter(s, a)), After(s, h, a), req);
    case _ =>
  }

  lemma SendOk(g: Group, h: Ghosts, n: NodeId, nd: NodeState, r: Round)
    requires NodeOk(g, h, n, nd) && RoundOk(g, h, n, r) && BuildAppend(n, nd, r).Some?
    ensures AppendOk(g, h, BuildAppend(n, nd, r).value) && r.peer in g.members
    ensures r.peer != BuildAppend(n, nd, r).value.leaderId
  {
    BuildOk(g, h, n, nd, r);
  }

  // ---------- events ----------

  ghost predicate Preserves(s: State, h: Ghosts, s': State, h': Ghosts) {
    Inv(s', h') && Evolves(s.group, h, s'.group, h')
  }

  lemma ActionStep(s: State, h: Ghosts, a: Action)
    requires Inv(s, h) && Enabled(s, a)
    ensures Preserves(s, h, Step(s, Do(a)), After(s, h, a))
  {
    hide GroupInv, Evolves, VotesInv, AppendsInv, After, NodeAfter, NetAfter;
    var g' := WithNode(s.group, a.node, NodeAfter(s, a));
    ActionGroup(s, h, a);
    MessagesGrow(s.group, h, g', After(s, h, a), s.net);
    VotesAfter(s, h, a);
    AppendsAfter(s, h, a);
  }

  /** A crash strictly between two records of one handler; only two handlers write more than one. */
  lemma MidCrash(s: State, h: Ghosts, a: Action, cut: nat)
    requires Inv(s, h) && Enabled(s, a)
    requires |s.group.nodes[a.node].wal| < cut < |NodeAfter(s, a).wal|
    ensures var g' := WithNode(s.group, a.node, Recover(NodeAfter(s, a).wal[..cut]));
      GroupInv(g', h) && Evolves(s.group, h, g', h)
  {
    hide GroupInv, Evolves, VoteRequestOk, AppendOk, Recover;
    var g := s.group;
    var n := a.node;
    var nd := g.nodes[n];
    match a
    case ReceiveVoteRequest(_, req) => ReceiveVoteCut(g, h, n, nd, req, cut);
    case ReceiveAppend(_, req) => ReceiveAppendCut(g, h, n, nd, req, cut);
    case ApplyEntries(_) => ApplyGroup(g, h, n, nd); ApplyWal(g, h, n, nd);
    case _ =>
  }

  lemma ApplyWal(g: Group, h: Ghosts, n: NodeId, nd: NodeState)
    requires GroupInv(g, h) && n in g.members && nd == g.nodes[n]
    ensures ApplyCommitted(nd).wal == nd.wal
  {
    assert NodeOk(g, h, n, nd);
    ApplyOk(nd);
  }

  lemma CrashStep(s: State, h: Ghosts, a: Action, cut: nat)
    requires Inv(s, h) && CanHappen(s, Crash(a, cut))
    ensures Preserves(s, h, Step(s, Crash(a, cut)), AfterEvent(s, h, Crash(a, cut)))
  {
    hide GroupInv, Evolves, VotesInv, AppendsInv, After, NodeAfter, Recover;
    var g := s.group;
    var n := a.node;
    var after := NodeAfter(s, a);
    var dead := Recover(after.wal[..cut]);
    ActionGroup(s, h, a);
    var h' := AfterEvent(s, h, Crash(a, cut));
    if cut == |after.wal| {
      assert after.wal[..cut] == after.wal;
      ResetNext(g, h, WithNode(g, n, after), h', n, after);
    } else if cut == |g.nodes[n].wal| {
      WalPrefix(g, h, WithNode(g, n, after), After(s, h, a), n, after);
      Same(g, h, n);
      assert after.wal[..cut] == g.nodes[n].wal;
      ResetNext(g, h, g, h, n, g.nodes[n]);
    } else {
      MidCrash(s, h, a, cut);
    }
    MessagesGrow(g, h, WithNode(g, n, dead), h', s.net);
  }

  lemma WalPrefix(g: Group, h: Ghosts, g': Group, h': Ghosts, n: NodeId, nd: NodeState)
    requires Evolves(g, h, g', h') && n in g.members && g' == WithNode(g, n, nd)
    ensures g.nodes[n].wal <= nd.wal
  {
    assert g'.nodes[n] == nd;
  }

  lemma EventStep(s: State, h: Ghosts, e: Event)
    requires Inv(s, h) && CanHappen(s, e)
    ensures Preserves(s, h, Step(s, e), AfterEvent(s, h, e))
  {
    hide Inv, Evolves, After, Step;
    match e
    case Do(a) => ActionStep(s, h, a);
    case Crash(a, cut) => CrashStep(s, h, a, cut);
  }

  lemma InitInv(s: State)
    requires Init(s)
    ensures Inv(s, NO_HISTORY)
  {
    forall n | n in s.group.members ensures NodeOk(s.group, NO_HISTORY, n, s.group.nodes[n]) {
      assert s.group.nodes[n] == Recover([]);
    }
  }
}
