/**
 What each step must do, in every run: which answers are given, what they are about, and what they bring about.
 The safety theorems would allow a node to refuse or ignore; these do not.
 */
module Answers {
  import opened Storage
  import opened Kv
  import opened Replica
  import opened LogMerge
  import opened Cluster
  import opened History
  import opened Growth
  import opened NodeSteps
  import opened Steps
  import opened Theorems
  import opened Messages

  function Max(a: nat, b: nat): nat { if a < b then b else a }

  /** Event number `i` is the completed action `a`. */
  ghost predicate Happens(states: seq<State>, events: seq<Event>, i: nat, a: Action) {
    IsRun(states, events) && i < |events| && events[i] == Do(a)
  }

  lemma StepOf(states: seq<State>, events: seq<Event>, i: nat, a: Action)
    requires Happens(states, events, i, a)
    ensures Enabled(states[i], a) && states[i + 1] == Step(states[i], Do(a))
    ensures Here(states, i, a.node) && Here(states, i + 1, a.node) && NodeAt(states, i + 1, a.node) == NodeAfter(states[i], a)
  {
    assert CanHappen(states[i], events[i]);
  }

  ghost predicate Leads(nd: NodeState, term: nat) { nd.role == Leader && nd.currentTerm == term }

  // ---------- AppendEntries: what is answered ----------

  lemma {:induction false} AppendedAllFrame(nd: NodeState, entries: seq<Entry>)
    ensures var after := AppendedAll(nd, entries); after == nd.(log := after.log, wal := after.wal)
    decreases |entries|
  {
    if entries != [] {
      AppendedAllFrame(Appended(nd, entries[0]), entries[1..]);
    }
  }

  lemma {:induction false} MergedFrame(nd: NodeState, index: nat, entries: seq<Entry>)
    ensures var after := Merged(nd, index, entries); after == nd.(log := after.log, wal := after.wal)
    decreases |entries|
  {
    if entries != [] {
      if index >= |nd.log| {
        MergedFrame(Appended(nd, entries[0]), index + 1, entries[1..]);
      } else if nd.log[index].term != entries[0].term {
        AppendedAllFrame(Truncated(nd, index), entries);
      } else {
        MergedFrame(nd, index + 1, entries[1..]);
      }
    }
  }

  lemma CheckedFrame(now: NodeState, req: AppendRequest)
    requires req.prevLogIndex >= -1
    ensures var after := Checked(now, req); after == now.(log := after.log, wal := after.wal)
  {
    var base := if HeadConflicts(now.log, req) then Truncated(now, 0) else now;
    MergedFrame(base, req.prevLogIndex + 1, req.entries);
  }

  /** The log has the entry the request builds on. */
  predicate Fits(log: seq<Entry>, req: AppendRequest) {
    req.prevLogIndex == -1 || (0 <= req.prevLogIndex < |log| && log[req.prevLogIndex].term == req.prevLogTerm)
  }

  /** What a follower answers and becomes, the log of an accepted request apart (that is AcceptedAppend). */
  lemma AppendAnswer(nd: NodeState, req: AppendRequest)
    requires req.prevLogIndex >= -1
    ensures var (now, resp) := HandleAppendEntries(nd, req);
      && resp.term == now.currentTerm == Max(nd.currentTerm, req.term)
      && (resp.term > req.term <==> nd.currentTerm > req.term)
      && (resp.success <==> nd.currentTerm <= req.term && Fits(nd.log, req))
      && resp.matchIndex == (if resp.success then |now.log| - 1 else 0)
      && (nd.currentTerm > req.term ==> now == nd)
      && (nd.currentTerm <= req.term ==>
            && now.role == Follower
            && now.votedFor == (if nd.currentTerm < req.term then NO_VOTE else nd.votedFor)
            && now.lastApplied == nd.lastApplied && now.data == nd.data)
      && (nd.currentTerm <= req.term && !resp.success ==>
            && now.log == nd.log[..Min(req.prevLogIndex, |nd.log|)]
            && now.commitIndex == nd.commitIndex)
  {
    hide Stored;
    CheckedFrame(Yield(nd, req.term), req);
  }

  lemma AnsweredNow(s: State, e: Event, reply: AppendReply)
    requires CanHappen(s, e) && reply in Step(s, e).net.appendReplies && reply !in s.net.appendReplies
    ensures e == Do(ReceiveAppend(reply.from, reply.request)) && reply.from in s.group.nodes && reply.request.prevLogIndex >= -1
    ensures reply.response == HandleAppendEntries(s.group.nodes[reply.from], reply.request).1
  {
    hide HandleAppendEntries;
  }

  /**
   Every reply of a run goes back to the moment it was given. Its term is the answering node's term right after, and it
   exceeds the request's term exactly when the node was already in a later one; it reports success exactly when the
   request was not stale and fitted the log.
   */
  lemma {:induction false} AppendReplyGiven(states: seq<State>, events: seq<Event>, i: nat, reply: AppendReply) returns (w: nat)
    requires IsRun(states, events) && i < |states| && reply in states[i].net.appendReplies
    ensures w < i && Happens(states, events, w, ReceiveAppend(reply.from, reply.request))
    ensures Here(states, w, reply.from) && Here(states, w + 1, reply.from)
    ensures var req, resp := reply.request, reply.response;
      var before, after := NodeAt(states, w, reply.from), NodeAt(states, w + 1, reply.from);
      && resp.term == after.currentTerm
      && (resp.term > req.term <==> before.currentTerm > req.term)
      && (resp.success <==> before.currentTerm <= req.term && Fits(before.log, req))
      && resp.matchIndex == (if resp.success then |after.log| - 1 else 0)
    decreases i
  {
    hide Init, CanHappen, Step, HandleAppendEntries;
    if i == 0 {
      NothingSent(states[0]);
    } else if reply in states[i - 1].net.appendReplies {
      w := AppendReplyGiven(states, events, i - 1, reply);
    } else {
      w := i - 1;
      AnsweredNow(states[w], events[w], reply);
      StepOf(states, events, w, ReceiveAppend(reply.from, reply.request));
      AppendAnswer(NodeAt(states, w, reply.from), reply.request);
    }
  }

  lemma NothingSent(s: State)
    requires Init(s)
    ensures s.net == Net({}, {}, map[], {}, {}, {})
  {
  }

  // ---------- votes: what is answered ----------

  /** The vote request a candidate with this log sends in term `t`, by position in the log. */
  function Ask(t: nat, id: NodeId, log: seq<Entry>): VoteRequest {
    VoteRequest(t, id, |log| - 1, if log == [] then 0 else log[|log| - 1].term)
  }

  /** A term not older, no other vote in it, and a last entry not behind: by term first, then by position. */
  ghost predicate Grants(nd: NodeState, req: VoteRequest) {
    && req.term >= nd.currentTerm
    && (req.term == nd.currentTerm ==> nd.votedFor == NO_VOTE || nd.votedFor == req.candidateId)
    && (nd.log == []
        || req.lastLogTerm > nd.log[|nd.log| - 1].term
        || (req.lastLogTerm == nd.log[|nd.log| - 1].term && req.lastLogIndex >= |nd.log| - 1))
  }

  lemma VoteAnswer(nd: NodeState, req: VoteRequest)
    requires nd.log != [] ==> nd.log[|nd.log| - 1].index == |nd.log| - 1
    requires req.lastLogIndex >= -1
    ensures var (now, resp) := HandleRequestVote(nd, req);
      && (resp.voteGranted <==> Grants(nd, req))
      && resp.term == now.currentTerm == Max(nd.currentTerm, req.term)
      && now.role == (if req.term > nd.currentTerm then Follower else nd.role)
      && now.votedFor == (if resp.voteGranted then req.candidateId else if req.term > nd.currentTerm then NO_VOTE else nd.votedFor)
      && now == nd.(role := now.role, currentTerm := now.currentTerm, votedFor := now.votedFor, wal := now.wal)
  {
  }

  lemma LastPosition(states: seq<State>, events: seq<Event>, i: nat, n: NodeId)
    requires IsRun(states, events) && Here(states, i, n)
    ensures var log := NodeAt(states, i, n).log;
      log != [] ==> log[|log| - 1].index == |log| - 1 && log[|log| - 1].term >= 1
  {
    hide IsRun;
    var log := NodeAt(states, i, n).log;
    if log != [] {
      LogShape(states, events, i, n, |log| - 1, |log| - 1);
    }
  }

  lemma LastIndexBound(h: Ghosts, log: seq<Entry>)
    requires LogOk(h, log)
    ensures LastIndex(log) >= -1
  {
  }

  lemma AskedInRange(states: seq<State>, events: seq<Event>, i: nat, req: VoteRequest)
    requires IsRun(states, events) && i < |states| && req in states[i].net.voteRequests
    ensures req.lastLogIndex >= -1
  {
    hide IsRun, NodeOk, AppendsInv, LogOk, Keeps, Complete;
    var h := HistoryAt(states, events, i);
    RunInv(states, events, i);
    assert VoteRequestOk(h, req);
    assert BallotOk(states[i].group, h, req.candidateId, req.term);
    LastIndexBound(h, h.ballots[(req.candidateId, req.term)].log);
  }

  /** In every run, whoever is asked grants exactly what the rules say, and answers with its own term. */
  lemma VoteGivenExactly(states: seq<State>, events: seq<Event>, i: nat, n: NodeId, req: VoteRequest)
    requires IsRun(states, events) && Here(states, i, n) && req in states[i].net.voteRequests
    ensures var nd := NodeAt(states, i, n); var (now, resp) := HandleRequestVote(nd, req);
      && (resp.voteGranted <==> Grants(nd, req))
      && resp.term == now.currentTerm == Max(nd.currentTerm, req.term)
      && now.role == (if req.term > nd.currentTerm then Follower else nd.role)
      && now.votedFor == (if resp.voteGranted then req.candidateId else if req.term > nd.currentTerm then NO_VOTE else nd.votedFor)
      && now == nd.(role := now.role, currentTerm := now.currentTerm, votedFor := now.votedFor, wal := now.wal)
  {
    hide IsRun, Grants, HandleRequestVote;
    LastPosition(states, events, i, n);
    AskedInRange(states, events, i, req);
    VoteAnswer(NodeAt(states, i, n), req);
  }

  /**
   Of any two nodes of a reachable state, asked in a term newer than both, at least one grants the other; both grant
   exactly when their logs are the same.
   */
  lemma SomeoneGrants(states: seq<State>, events: seq<Event>, i: nat, a: NodeId, b: NodeId, t: nat)
    requires IsRun(states, events) && Here(states, i, a) && Here(states, i, b)
    requires t > NodeAt(states, i, a).currentTerm && t > NodeAt(states, i, b).currentTerm
    ensures var x, y := NodeAt(states, i, a), NodeAt(states, i, b);
      var byB, byA := HandleRequestVote(y, Ask(t, a, x.log)).1.voteGranted, HandleRequestVote(x, Ask(t, b, y.log)).1.voteGranted;
      (byA || byB) && (byA && byB <==> x.log == y.log)
  {
    hide IsRun, HandleRequestVote, Match;
    var x, y := NodeAt(states, i, a), NodeAt(states, i, b);
    LastPosition(states, events, i, a);
    LastPosition(states, events, i, b);
    VoteAnswer(y, Ask(t, a, x.log));
    VoteAnswer(x, Ask(t, b, y.log));
    LogMatching(states, events, i, i, a, b);
    SameEnd(x.log, y.log);
  }

  lemma SameEnd(a: seq<Entry>, b: seq<Entry>)
    requires Match(a, b)
    ensures |a| == |b| && (a != [] ==> a[|a| - 1].term == b[|a| - 1].term) ==> a == b
  {
    if |a| == |b| && a != [] && a[|a| - 1].term == b[|a| - 1].term {
      assert a[..|a| - 1 + 1] == b[..|a| - 1 + 1];
    }
  }

  lemma VoteAnsweredNow(s: State, e: Event, reply: VoteReply)
    requires CanHappen(s, e) && reply in Step(s, e).net.voteReplies && reply !in s.net.voteReplies
    ensures e == Do(ReceiveVoteRequest(reply.from, reply.request)) && reply.from in s.group.nodes
    ensures reply.request in s.net.voteRequests
    ensures reply.response == HandleRequestVote(s.group.nodes[reply.from], reply.request).1
  {
    hide HandleRequestVote;
  }

  /** Every vote reply of a run goes back to the moment it was given; a granted one is of the term asked for. */
  lemma {:induction false} VoteReplyGiven(states: seq<State>, events: seq<Event>, i: nat, reply: VoteReply) returns (w: nat)
    requires IsRun(states, events) && i < |states| && reply in states[i].net.voteReplies
    ensures w < i && Happens(states, events, w, ReceiveVoteRequest(reply.from, reply.request))
    ensures Here(states, w, reply.from) && Here(states, w + 1, reply.from)
    ensures var before, after := NodeAt(states, w, reply.from), NodeAt(states, w + 1, reply.from);
      && reply.response.term == after.currentTerm
      && (reply.response.term > reply.request.term <==> before.currentTerm > reply.request.term)
      && (reply.response.voteGranted <==> Grants(before, reply.request))
    decreases i
  {
    hide Init, CanHappen, Step, HandleRequestVote;
    if i == 0 {
      NothingSent(states[0]);
    } else if reply in states[i - 1].net.voteReplies {
      w := VoteReplyGiven(states, events, i - 1, reply);
    } else {
      w := i - 1;
      VoteAnsweredNow(states[w], events[w], reply);
      StepOf(states, events, w, ReceiveVoteRequest(reply.from, reply.request));
      VoteGivenExactly(states, events, w, reply.from, reply.request);
    }
  }

  // ---------- elections ----------

  /** A timeout starts a candidacy in the very next term, unless the node leads. */
  lemma CampaignStarts(states: seq<State>, events: seq<Event>, i: nat, n: NodeId)
    requires Happens(states, events, i, Timeout(n))
    ensures Here(states, i, n) && Here(states, i + 1, n)
    ensures var x, y := NodeAt(states, i, n), NodeAt(states, i + 1, n); var t := x.currentTerm + 1;
      if x.role == Leader then states[i + 1] == states[i]
      else
        && y == x.(role := Candidate, currentTerm := t, votedFor := n, wal := y.wal)
        && Ask(t, n, x.log) in states[i + 1].net.voteRequests
        && (n, t) in states[i + 1].net.tallies && states[i + 1].net.tallies[(n, t)] == {}
  {
    StepOf(states, events, i, Timeout(n));
    hide IsRun;
    LastPosition(states, events, i, n);
    var nodes := states[i].group.nodes;
    assert nodes[n := nodes[n]] == nodes;
  }

  lemma FileReplays(states: seq<State>, events: seq<Event>, i: nat, n: NodeId)
    requires IsRun(states, events) && Here(states, i, n)
    ensures Replay(NodeAt(states, i, n).wal) == DurableOf(NodeAt(states, i, n))
  {
    hide IsRun, NodeOk, Past, Shape;
    var h := Facts(states, events, i, n);
    SyncedOf(states[i].group, h, n, NodeAt(states, i, n));
  }

  /** What a node is after it has learnt of a later term. */
  ghost predicate Deposed(before: NodeState, after: NodeState, term: nat) {
    && after == before.(role := Follower, currentTerm := term, votedFor := NO_VOTE, wal := after.wal)
    && Replay(after.wal) == Durable(term, NO_VOTE, before.log, before.commitIndex)
  }

  /**
   A vote reply: a candidate of the term asked for counts a granted vote and nothing else; a higher term deposes it, on
   disk too; anybody else ignores the reply.
   */
  lemma VoteReplyTaken(states: seq<State>, events: seq<Event>, i: nat, n: NodeId, reply: VoteReply)
    requires Happens(states, events, i, ReceiveVoteReply(n, reply))
    ensures Here(states, i, n) && Here(states, i + 1, n) && (n, reply.request.term) in states[i].net.tallies
    ensures var x, y := NodeAt(states, i, n), NodeAt(states, i + 1, n);
      var key := (n, reply.request.term); var running := x.role == Candidate && x.currentTerm == reply.request.term;
      && (running && reply.response.term > x.currentTerm ==> Deposed(x, y, reply.response.term))
      && (!running || reply.response.term <= x.currentTerm ==> y == x)
      && states[i + 1].net.tallies == (if running && reply.response.voteGranted
                                       then states[i].net.tallies[key := states[i].net.tallies[key] + {reply.from}]
                                       else states[i].net.tallies)
  {
    StepOf(states, events, i, ReceiveVoteReply(n, reply));
    hide IsRun, Grants;
    FileReplays(states, events, i + 1, n);
    var w := VoteReplyGiven(states, events, i, reply);
    GrantedIsCurrent(NodeAt(states, w, reply.from), reply);
  }

  lemma GrantedIsCurrent(before: NodeState, reply: VoteReply)
    requires reply.response.voteGranted <==> Grants(before, reply.request)
    requires reply.response.term > reply.request.term <==> before.currentTerm > reply.request.term
    ensures reply.response.voteGranted ==> reply.response.term <= reply.request.term
  {
  }

  lemma TallyMajority(g: Group, h: Ghosts, n: NodeId, t: nat, tally: set<NodeId>)
    requires Past(g, h) && n in g.members && TallyOk(h, n, t, tally)
    ensures 1 + |tally| > (|Peers(g, n)| + 1) / 2 <==> Majority(tally + {n}, g.members)
  {
    hide LogOk, Keeps, Complete;
    var voters := tally + {n};
    forall p | p in voters ensures p in g.members {
      assert VotedIn(h, p, t, n);
      assert BallotOk(g, h, p, t);
    }
    assert |voters| == |tally| + 1;
    assert |g.members| == |Peers(g, n)| + 1 by { assert g.members == Peers(g, n) + {n}; }
  }

  /**
   The promotion test: a candidate whose counted votes and its own are a majority leads from here, with every peer's
   progress reset; a candidate without a majority, and anybody else, stays as it is.
   */
  lemma PromotedExactly(states: seq<State>, events: seq<Event>, i: nat, n: NodeId, t: nat)
    requires Happens(states, events, i, TryPromote(n, t))
    ensures Here(states, i, n) && Here(states, i + 1, n) && (n, t) in states[i].net.tallies
    ensures var x, y := NodeAt(states, i, n), NodeAt(states, i + 1, n); var g := states[i].group;
      if x.role == Candidate && x.currentTerm == t && Majority(states[i].net.tallies[(n, t)] + {n}, g.members)
      then y == x.(role := Leader, nextIndex := (map p | p in Peers(g, n) :: |x.log|), matchIndex := (map p | p in Peers(g, n) :: -1))
      else y == x
  {
    StepOf(states, events, i, TryPromote(n, t));
    hide IsRun, NodeOk, AppendsInv, Past, Majority;
    var h := HistoryAt(states, events, i);
    RunInv(states, events, i);
    var x := NodeAt(states, i, n);
    var tally := states[i].net.tallies[(n, t)];
    assert TallyOk(h, n, t, tally);
    TallyMajority(states[i].group, h, n, t, tally);
    if x.role == Candidate {
      CandidateKeys(states[i].group, h, n, x);
      FilledAll(x.nextIndex, Peers(states[i].group, n), |x.log|);
      FilledAll(x.matchIndex, Peers(states[i].group, n), -1);
    }
  }

  lemma CandidateKeys(g: Group, h: Ghosts, n: NodeId, nd: NodeState)
    requires NodeOk(g, h, n, nd) && nd.role == Candidate
    ensures nd.matchIndex.Keys <= Peers(g, n) && nd.nextIndex.Keys <= Peers(g, n)
  {
  }

  lemma FilledAll(m: map<NodeId, int>, keys: set<NodeId>, v: int)
    requires m.Keys <= keys
    ensures Filled(m, keys, v) == (map k | k in keys :: v)
  {
  }

  // ---------- rounds ----------

  /** A leader's round is for every peer, with that peer's next index and the leader's commit index. */
  lemma RoundCoversPeers(states: seq<State>, events: seq<Event>, i: nat, n: NodeId, p: NodeId)
    requires Happens(states, events, i, StartRound(n))
    ensures Here(states, i, n) && states[i + 1].group == states[i].group
    ensures var nd := NodeAt(states, i, n);
      nd.role == Leader && p in Peers(states[i].group, n) ==>
        p in nd.nextIndex && LeaderRound(n, Round(p, nd.nextIndex[p], nd.currentTerm, nd.commitIndex)) in states[i + 1].net.rounds
  {
    StepOf(states, events, i, StartRound(n));
    hide IsRun, NodeOk, Past, Shape;
    var nd := NodeAt(states, i, n);
    var nodes := states[i].group.nodes;
    assert nodes[n := nodes[n]] == nodes;
    var h := Facts(states, events, i, n);
    if nd.role == Leader && p in Peers(states[i].group, n) {
      NextKnown(states[i].group, h, n, nd, p);
      assert Round(p, NextFor(nd, p), nd.currentTerm, nd.commitIndex) in Snapshot(nd, Peers(states[i].group, n));
    }
  }

  lemma NextKnown(g: Group, h: Ghosts, n: NodeId, nd: NodeState, p: NodeId)
    requires NodeOk(g, h, n, nd) && nd.role == Leader && p in Peers(g, n)
    ensures p in nd.nextIndex && p in nd.matchIndex && 0 <= nd.nextIndex[p] <= |nd.log|
  {
  }

  /** Every round goes back to the moment it was started: its sender led, and these were its indexes. */
  ghost predicate StartedAt(states: seq<State>, events: seq<Event>, w: nat, leader: NodeId, r: Round) {
    && Happens(states, events, w, StartRound(leader)) && Here(states, w, leader)
    && var nd := NodeAt(states, w, leader);
      && Leads(nd, r.term) && nd.commitIndex == r.commitIndex
      && r.peer in nd.nextIndex && nd.nextIndex[r.peer] == r.next
  }

  lemma RoundNow(s: State, e: Event, lr: LeaderRound)
    requires CanHappen(s, e) && lr in Step(s, e).net.rounds && lr !in s.net.rounds
    ensures e == Do(StartRound(lr.leader)) && lr.leader in s.group.nodes
    ensures lr.round in Snapshot(s.group.nodes[lr.leader], Peers(s.group, lr.leader))
  {
    hide Snapshot;
  }

  lemma {:induction false} RoundStarted(states: seq<State>, events: seq<Event>, i: nat, lr: LeaderRound) returns (w: nat)
    requires IsRun(states, events) && i < |states| && lr in states[i].net.rounds
    ensures w < i && StartedAt(states, events, w, lr.leader, lr.round)
    decreases i
  {
    hide Init, CanHappen, Step, NodeOk, Past, Shape, HistoryAt;
    if i == 0 {
      NothingSent(states[0]);
    } else if lr in states[i - 1].net.rounds {
      w := RoundStarted(states, events, i - 1, lr);
    } else {
      w := i - 1;
      RoundNow(states[w], events[w], lr);
      StepOf(states, events, w, StartRound(lr.leader));
      var h := Facts(states, events, w, lr.leader);
      NextKnown(states[w].group, h, lr.leader, NodeAt(states, w, lr.leader), lr.round.peer);
    }
  }

  lemma ShippedNow(s: State, e: Event, m: AppendMessage) returns (r: Round)
    requires CanHappen(s, e) && m in Step(s, e).net.appends && m !in s.net.appends
    ensures LeaderRound(m.request.leaderId, r) in s.net.rounds
    ensures r == Round(m.to, m.request.prevLogIndex + 1, m.request.term, m.request.leaderCommit)
  {
    r := e.action.round;
  }

  /**
   Every request in flight belongs to a round: earlier, its sender led that term, had that commit index, and had that
   next index for this very peer.
   */
  lemma {:induction false} RequestOfRound(states: seq<State>, events: seq<Event>, i: nat, m: AppendMessage) returns (w: nat)
    requires IsRun(states, events) && i < |states| && m in states[i].net.appends
    ensures var req := m.request;
      w < i && StartedAt(states, events, w, req.leaderId, Round(m.to, req.prevLogIndex + 1, req.term, req.leaderCommit))
    decreases i
  {
    hide Init, CanHappen, Step, StartedAt;
    if i == 0 {
      NothingSent(states[0]);
    } else if m in states[i - 1].net.appends {
      w := RequestOfRound(states, events, i - 1, m);
    } else {
      var r := ShippedNow(states[i - 1], events[i - 1], m);
      w := RoundStarted(states, events, i - 1, LeaderRound(m.request.leaderId, r));
    }
  }

  /** A follower that accepts a request has, from then on, at least the commit index the leader had when the round began. */
  lemma CommitSpreads(states: seq<State>, events: seq<Event>, i: nat, n: NodeId, req: AppendRequest) returns (w: nat)
    requires Happens(states, events, i, ReceiveAppend(n, req))
    ensures Here(states, i, n) && Here(states, i + 1, n) && req.prevLogIndex >= -1
    ensures var round := Round(n, req.prevLogIndex + 1, req.term, req.leaderCommit);
      w < i && StartedAt(states, events, w, req.leaderId, round)
    ensures var x, y := NodeAt(states, i, n), NodeAt(states, i + 1, n);
      x.currentTerm <= req.term && Fits(x.log, req) ==> y.commitIndex >= NodeAt(states, w, req.leaderId).commitIndex
  {
    StepOf(states, events, i, ReceiveAppend(n, req));
    hide IsRun, Fits, HandleAppendEntries, BuiltAt;
    w := RequestOfRound(states, events, i, AppendMessage(n, req));
    var x := NodeAt(states, i, n);
    AppendAnswer(x, req);
    if x.currentTerm <= req.term && Fits(x.log, req) {
      var b := AcceptedAppend(states, events, i, n, req);
    }
  }

  // ---------- replies at the leader ----------

  /** A commit index a leader may take: the greatest index of its term that it knows a strict majority to hold. */
  ghost predicate Furthest(nd: NodeState, peers: set<NodeId>, was: int, now: int) {
    && (now == was || (was < now && Committable(nd, peers, now)))
    && (forall k :: now < k < |nd.log| && was < k ==> !Committable(nd, peers, k))
  }

  /**
   A reply at the leader of the term it was asked in. A higher term deposes it, on disk too. Success with entries moves
   that peer's indexes behind them and the commit index as far as it goes; success without entries changes nothing;
   failure moves that peer's next index one back. Anybody else ignores the reply.
   */
  lemma AppendReplyTaken(states: seq<State>, events: seq<Event>, i: nat, n: NodeId, reply: AppendReply)
    requires Happens(states, events, i, ReceiveAppendReply(n, reply))
    ensures Here(states, i, n) && Here(states, i + 1, n)
    ensures var x, y := NodeAt(states, i, n), NodeAt(states, i + 1, n); var req, resp := reply.request, reply.response;
      var end := req.prevLogIndex + |req.entries|;
      && (!Leads(x, req.term) ==> y == x)
      && (Leads(x, req.term) ==> y.currentTerm >= resp.term)
      && (Leads(x, req.term) && resp.term > req.term ==> Deposed(x, y, resp.term))
      && (Leads(x, req.term) && resp.term <= req.term && resp.success && req.entries == [] ==> y == x)
      && (Leads(x, req.term) && resp.term <= req.term && resp.success && req.entries != [] ==>
            && y == x.(matchIndex := x.matchIndex[reply.from := end], nextIndex := x.nextIndex[reply.from := end + 1],
                       commitIndex := y.commitIndex, wal := y.wal)
            && Furthest(y.(commitIndex := x.commitIndex), Peers(states[i].group, n), x.commitIndex, y.commitIndex))
      && (Leads(x, req.term) && resp.term <= req.term && !resp.success ==>
            req.prevLogIndex >= 0 && y == x.(nextIndex := x.nextIndex[reply.from := req.prevLogIndex]))
  {
    StepOf(states, events, i, ReceiveAppendReply(n, reply));
    hide IsRun;
    FileReplays(states, events, i + 1, n);
    var w := AppendReplyGiven(states, events, i, reply);
    StepOf(states, events, w, ReceiveAppend(reply.from, reply.request));
    var x := NodeAt(states, i, n);
    if Leads(x, reply.request.term) && reply.response.term <= reply.request.term && reply.response.success && reply.request.entries != [] {
      TakenFurthest(x, Peers(states[i].group, n), reply);
    }
  }

  lemma TakenFurthest(x: NodeState, peers: set<NodeId>, reply: AppendReply)
    requires Leads(x, reply.request.term) && reply.response.term <= reply.request.term
    requires reply.response.success && reply.request.entries != []
    ensures var y := HandleAppendReply(x, peers, reply.from, reply.request, reply.response);
      Furthest(y.(commitIndex := x.commitIndex), peers, x.commitIndex, y.commitIndex)
  {
    var req := reply.request;
    var last := req.prevLogIndex + |req.entries|;
    var mid := x.(matchIndex := x.matchIndex[reply.from := last], nextIndex := x.nextIndex[reply.from := last + 1]);
    var y := HandleAppendReply(x, peers, reply.from, req, reply.response);
    forall k ensures Committable(y.(commitIndex := x.commitIndex), peers, k) <==> Committable(mid, peers, k) {}
  }

  /** A leader that hears from a peer already in a later term gives up and follows that peer's term. */
  lemma StaleLeaderIsDeposed(states: seq<State>, events: seq<Event>, i: nat, n: NodeId, reply: AppendReply) returns (w: nat)
    requires Happens(states, events, i, ReceiveAppendReply(n, reply))
    requires Here(states, i, n) && Leads(NodeAt(states, i, n), reply.request.term)
    ensures w < i && Happens(states, events, w, ReceiveAppend(reply.from, reply.request)) && Here(states, w, reply.from)
    ensures Here(states, i + 1, n)
    ensures NodeAt(states, w, reply.from).currentTerm > reply.request.term ==>
      Deposed(NodeAt(states, i, n), NodeAt(states, i + 1, n), NodeAt(states, w, reply.from).currentTerm)
  {
    hide Deposed, Furthest, Fits, HandleAppendEntries;
    StepOf(states, events, i, ReceiveAppendReply(n, reply));
    w := AppendReplyGiven(states, events, i, reply);
    StepOf(states, events, w, ReceiveAppend(reply.from, reply.request));
    AppendAnswer(NodeAt(states, w, reply.from), reply.request);
    AppendReplyTaken(states, events, i, n, reply);
  }

  // ---------- waiting for a write, and applying ----------

  lemma StillCandidate(g: Group, h: Ghosts, n: NodeId, nd: NodeState)
    requires NodeOk(g, h, n, nd) && nd.role == Candidate
    ensures !(nd.currentTerm in h.leaderOf && h.leaderOf[nd.currentTerm] == n)
  {
  }

  /** Only a candidate's promotion makes a leader. */
  lemma PromotionOnly(s: State, e: Event, n: NodeId)
    requires CanHappen(s, e) && n in s.group.nodes && s.group.nodes[n].role != Leader
    requires n in Step(s, e).group.nodes && Step(s, e).group.nodes[n].role == Leader
    ensures s.group.nodes[n].role == Candidate && Step(s, e).group.nodes[n].currentTerm == s.group.nodes[n].currentTerm
  {
    hide HandleAppendEntries, ApplyCommitted, CommitTarget;
    var a := e.action;
    if a.ReceiveAppend? {
      AppendAnswer(s.group.nodes[a.node], a.append);
    } else if a.ApplyEntries? {
      ApplyFrame(s.group.nodes[a.node]);
    }
  }

  lemma {:induction false} ApplyFrame(nd: NodeState)
    ensures var now := ApplyCommitted(nd); now == nd.(lastApplied := now.lastApplied, data := now.data)
    decreases |nd.log| - nd.lastApplied
  {
    if -1 <= nd.lastApplied < nd.commitIndex && nd.lastApplied < |nd.log| - 1 {
      ApplyFrame(nd.(lastApplied := nd.lastApplied + 1, data := ApplyEntry(nd.data, nd.log[nd.lastApplied + 1])));
    }
  }

  /** Once a node has led a term and leads it no more, it never leads it again. */
  lemma {:induction false} LeadershipIsUnbroken(states: seq<State>, events: seq<Event>, i: nat, j: nat, k: nat, n: NodeId, t: nat)
    requires IsRun(states, events) && i <= j <= k && Here(states, i, n) && Here(states, j, n) && Here(states, k, n)
    requires Leads(NodeAt(states, i, n), t) && Leads(NodeAt(states, k, n), t)
    ensures Leads(NodeAt(states, j, n), t)
    decreases k - j
  {
    hide Init, CanHappen, Step, NodeOk, Past, AfterEvent, AcksGrow, HistoryAt, Shape;
    if j < k {
      RunEvolves(states, events, i, j);
      RunEvolves(states, events, j, j + 1);
      RunEvolves(states, events, j + 1, k);
      var hi := Facts(states, events, i, n);
      var hj := Facts(states, events, j, n);
      LeaderKnown(states[i].group, hi, n, NodeAt(states, i, n));
      LeadershipIsUnbroken(states, events, i, j + 1, k, n, t);
      if NodeAt(states, j, n).role != Leader {
        PromotionOnly(states[j], events[j], n);
        StillCandidate(states[j].group, hj, n, NodeAt(states, j, n));
      }
    }
  }

  /**
   The three outcomes of waiting for a write. Success: the entry is committed at its index. Waiting: the node still leads
   the term and holds the entry there, uncommitted. Lost leadership: it will never lead that term again.
   */
  lemma PollOutcome(states: seq<State>, events: seq<Event>, i: nat, j: nat, n: NodeId, operation: string, key: string, value: string)
    requires Happens(states, events, i, Write(n, operation, key, value)) && i < j < |states|
    requires Here(states, i, n) && NodeAt(states, i, n).role == Leader && Here(states, j, n)
    ensures var x, y := NodeAt(states, i, n), NodeAt(states, j, n); var outcome := PollWrite(y, x.currentTerm, |x.log|);
      var stored := |x.log| < |y.log| && y.log[|x.log|] == Entry(|x.log|, x.currentTerm, operation, key, value);
      && (outcome == Answered <==> Leads(y, x.currentTerm) && stored && y.commitIndex >= |x.log|)
      && (outcome == Waiting <==> Leads(y, x.currentTerm) && stored && y.commitIndex < |x.log|)
      && (outcome == LostLeadership <==>
            forall k :: j <= k < |states| && Here(states, k, n) ==> !Leads(NodeAt(states, k, n), x.currentTerm))
  {
    var x, y := NodeAt(states, i, n), NodeAt(states, j, n);
    WriteLands(states, events, i, n, operation, key, value);
    hide IsRun;
    if Leads(y, x.currentTerm) {
      LeaderAppendOnly(states, events, i + 1, j, n);
    } else {
      forall k | j <= k < |states| && Here(states, k, n) ensures !Leads(NodeAt(states, k, n), x.currentTerm) {
        if Leads(NodeAt(states, k, n), x.currentTerm) {
          LeadershipIsUnbroken(states, events, i, j, k, n, x.currentTerm);
        }
      }
    }
  }

  /** Applying goes all the way to the commit index and touches nothing else. */
  lemma AppliedExactly(states: seq<State>, events: seq<Event>, i: nat, n: NodeId)
    requires Happens(states, events, i, ApplyEntries(n))
    ensures Here(states, i, n) && Here(states, i + 1, n)
    ensures var x, y := NodeAt(states, i, n), NodeAt(states, i + 1, n);
      && 0 <= x.commitIndex + 1 <= |x.log|
      && y == x.(lastApplied := x.commitIndex, data := Fold(x.log[..x.commitIndex + 1]))
  {
    StepOf(states, events, i, ApplyEntries(n));
    hide IsRun, Past, Shape, LogOk, StoredOk, Committed, RoleOk, VoteOk, VoteRecordsOk;
    var h := Facts(states, events, i, n);
    ApplyOk(NodeAt(states, i, n));
  }
}
