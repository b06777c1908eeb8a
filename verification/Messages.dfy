/** What holds of every message of every run, and of a leader's bookkeeping about its peers. */
module Messages {
  import opened Storage
  import opened Replica
  import opened LogMerge
  import opened Cluster
  import opened History
  import opened Growth
  import opened NodeSteps
  import opened AppendSteps
  import opened Steps
  import opened Theorems

  lemma AppendKnown(states: seq<State>, events: seq<Event>, i: nat, m: AppendMessage)
    requires IsRun(states, events) && i < |states| && m in states[i].net.appends
    ensures AppendOk(states[i].group, HistoryAt(states, events, i), m.request)
    ensures m.to in states[i].group.nodes && m.to != m.request.leaderId
  {
    hide IsRun, NodeOk, Past, VotesInv, AppendOk;
    RunInv(states, events, i);
  }

  /** A leader never announces as committed what it does not ship, so the follower's own last index never matters. */
  lemma CommitIsShipped(states: seq<State>, events: seq<Event>, i: nat, m: AppendMessage)
    requires IsRun(states, events) && i < |states| && m in states[i].net.appends
    ensures -1 <= m.request.prevLogIndex
    ensures -1 <= m.request.leaderCommit <= m.request.prevLogIndex + |m.request.entries|
  {
    hide IsRun, Committed;
    AppendKnown(states, events, i, m);
  }

  /** Log Matching between any log of a run and the entries of any request in flight. */
  lemma MatchingInFlight(states: seq<State>, events: seq<Event>, i: nat, n: NodeId, m: AppendMessage, k: nat)
    requires IsRun(states, events) && Here(states, i, n) && m in states[i].net.appends && k < |m.request.entries|
    requires var at := m.request.prevLogIndex + 1 + k;
      0 <= at < |NodeAt(states, i, n).log| && NodeAt(states, i, n).log[at].term == m.request.entries[k].term
    ensures var req := m.request; var log := NodeAt(states, i, n).log;
      && 0 <= req.prevLogIndex + 1 && req.prevLogIndex + 1 + k < |log|
      && (forall l :: 0 <= l <= k ==> log[req.prevLogIndex + 1 + l] == req.entries[l])
      && (req.prevLogIndex >= 0 ==> log[req.prevLogIndex].term == req.prevLogTerm)
  {
    hide IsRun, Past, Committed, GroupInv, VotesInv, AppendsInv, AppendOk, HistoryAt, Match, Carries, NodeOk, SentLog;
    var req := m.request;
    var h := HistoryAt(states, events, i);
    AppendKnown(states, events, i, m);
    CommitIsShipped(states, events, i, m);
    RunInv(states, events, i);
    var f := Facts(states, events, i, n);
    SentMatches(states[i].group, h, n, req);
    MatchingEntries(NodeAt(states, i, n).log, req, SentLog(h, req), k);
  }

  lemma MatchingEntries(log: seq<Entry>, req: AppendRequest, sent: seq<Entry>, k: nat)
    requires Match(log, sent) && Carries(req, sent) && k < |req.entries| && req.prevLogIndex >= -1
    requires req.prevLogIndex + 1 + k < |log| && log[req.prevLogIndex + 1 + k].term == req.entries[k].term
    ensures forall l :: 0 <= l <= k ==> log[req.prevLogIndex + 1 + l] == req.entries[l]
    ensures req.prevLogIndex >= 0 ==> log[req.prevLogIndex].term == req.prevLogTerm
  {
    hide Match, Carries;
    var at := req.prevLogIndex + 1 + k;
    EntryAt(req, sent, k);
    MatchAt(log, sent, at);
    forall l | 0 <= l <= k ensures log[req.prevLogIndex + 1 + l] == req.entries[l] {
      EntryAt(req, sent, l);
      BelowEqual(log, sent, at + 1, req.prevLogIndex + 1 + l);
    }
    if req.prevLogIndex >= 0 {
      BelowEqual(log, sent, at + 1, req.prevLogIndex);
    }
  }

  lemma EntryAt(req: AppendRequest, sent: seq<Entry>, k: nat)
    requires Carries(req, sent) && k < |req.entries|
    ensures req.prevLogIndex + 1 + k < |sent| && sent[req.prevLogIndex + 1 + k] == req.entries[k]
    ensures req.prevLogIndex >= 0 ==> sent[req.prevLogIndex].term == req.prevLogTerm
  {
  }

  lemma MatchAt(a: seq<Entry>, b: seq<Entry>, i: nat)
    requires Match(a, b) && i < |a| && i < |b| && a[i].term == b[i].term
    ensures a[..i + 1] == b[..i + 1]
  {
  }

  lemma BelowEqual(a: seq<Entry>, b: seq<Entry>, k: nat, x: nat)
    requires x < k <= |a| && k <= |b| && a[..k] == b[..k]
    ensures a[x] == b[x]
  {
    assert a[..k][x] == b[..k][x];
  }

  /** `req` is what its sender, leading `req.term` in state `w`, built from its whole log there. */
  ghost predicate BuiltAt(states: seq<State>, w: nat, req: AppendRequest) {
    && Here(states, w, req.leaderId)
    && var sender := NodeAt(states, w, req.leaderId);
      && sender.role == Leader && sender.currentTerm == req.term
      && Carries(req, sender.log)
  }

  lemma BuildCarries(g: Group, h: Ghosts, id: NodeId, nd: NodeState, round: Round, req: AppendRequest)
    requires NodeOk(g, h, id, nd) && RoundOk(g, h, id, round) && BuildAppend(id, nd, round) == Some(req)
    ensures req.leaderId == id && nd.role == Leader && nd.currentTerm == req.term && Carries(req, nd.log)
  {
    hide LogOk, Committed, LocalOk, StoredOk;
  }

  /** A message that one event put there. */
  lemma SentNow(s: State, h: Ghosts, e: Event, m: AppendMessage)
    requires Inv(s, h) && CanHappen(s, e) && m in Step(s, e).net.appends && m !in s.net.appends
    ensures m.request.leaderId in s.group.nodes
    ensures var sender := s.group.nodes[m.request.leaderId];
      sender.role == Leader && sender.currentTerm == m.request.term && Carries(m.request, sender.log)
  {
    hide NodeOk, RoundOk, VotesInv, Past, Carries, BuildAppend;
    var a := e.action;
    assert a.SendAppend?;
    BuildCarries(s.group, h, a.node, s.group.nodes[a.node], a.round, m.request);
  }

  /** Every request of a run was built from its sender's whole log at some earlier moment. */
  lemma {:induction false} BuiltFrom(states: seq<State>, events: seq<Event>, i: nat, m: AppendMessage) returns (w: nat)
    requires IsRun(states, events) && i < |states| && m in states[i].net.appends
    ensures w < i && BuiltAt(states, w, m.request)
    decreases i
  {
    hide Inv, AfterEvent, Step, Carries;
    if i == 0 {
      assert false;
    }
    if m in states[i - 1].net.appends {
      w := BuiltFrom(states, events, i - 1, m);
    } else {
      w := i - 1;
      RunInv(states, events, w);
      SentNow(states[w], HistoryAt(states, events, w), events[w], m);
    }
  }

  /** The log the history says was sent is the one the sender had. */
  lemma SentIsBuilt(states: seq<State>, events: seq<Event>, i: nat, m: AppendMessage, w: nat)
    requires IsRun(states, events) && i < |states| && m in states[i].net.appends && w <= i && BuiltAt(states, w, m.request)
    ensures SentLog(HistoryAt(states, events, i), m.request) == NodeAt(states, w, m.request.leaderId).log
  {
    hide IsRun, NodeOk, Past, Shape, NodesGrow, AcksGrow, HistoryAt;
    var req := m.request;
    var hw := Facts(states, events, w, req.leaderId);
    LeaderKnown(states[w].group, hw, req.leaderId, NodeAt(states, w, req.leaderId));
    RunEvolves(states, events, w, i);
  }

  /**
   An accepted request, however late or repeated: the follower keeps its log if that already extends the log its sender
   had when it built the request, and otherwise holds exactly that log. The commit index becomes the greater of its own
   and the leader's, and nothing beyond the sender's log is newly committed.
   */
  lemma AcceptedAppend(states: seq<State>, events: seq<Event>, i: nat, n: NodeId, req: AppendRequest) returns (w: nat)
    requires IsRun(states, events) && i < |states| && AppendMessage(n, req) in states[i].net.appends
    requires n in states[i].group.nodes && req.prevLogIndex >= -1
    requires HandleAppendEntries(NodeAt(states, i, n), req).1.success
    ensures w < i && BuiltAt(states, w, req)
    ensures var nd := NodeAt(states, i, n); var now := HandleAppendEntries(nd, req).0; var sent := NodeAt(states, w, req.leaderId).log;
      && now.log == (if sent <= nd.log then nd.log else sent)
      && req.leaderCommit < |sent|
      && now.commitIndex == (if req.leaderCommit > nd.commitIndex then req.leaderCommit else nd.commitIndex)
  {
    hide IsRun, Past, Committed, GroupInv, VotesInv, AppendsInv, AppendOk, HistoryAt, Passage, Match, BuiltAt;
    var h := HistoryAt(states, events, i);
    var g := states[i].group;
    var nd := NodeAt(states, i, n);
    AppendKnown(states, events, i, AppendMessage(n, req));
    RunInv(states, events, i);
    w := BuiltFrom(states, events, i, AppendMessage(n, req));
    SentIsBuilt(states, events, i, AppendMessage(n, req), w);
    var f := Facts(states, events, i, n);
    SentMatches(g, h, n, req);
    var now := Yield(nd, req.term);
    YieldStep(g, h, n, nd, req.term);
    YieldSynced(g, h, n, now);
    CheckPassage(now, req, SentLog(h, req));
    AcceptedShape(now, req, SentLog(h, req));
  }

  lemma AcceptedShape(now: NodeState, req: AppendRequest, sent: seq<Entry>)
    requires Carries(req, sent) && Checked(now, req).log == MergeResult(now.log, sent) && Passage(now, Checked(now, req), sent)
    ensures var done := FollowerCommit(Checked(now, req), req.leaderCommit);
      && done.log == MergeResult(now.log, sent)
      && done.commitIndex == (if req.leaderCommit > now.commitIndex then req.leaderCommit else now.commitIndex)
  {
    hide Passage, Checked;
    PassageEnd(now, Checked(now, req), sent);
  }

  // ---------- match indexes ----------

  /** Acknowledgements are only ever raised for the term the node is in. */
  lemma AckedNow(s: State, h: Ghosts, e: Event, p: NodeId, t: nat)
    requires Inv(s, h) && CanHappen(s, e)
    requires Acked(h, p, t) < Acked(AfterEvent(s, h, e), p, t)
    ensures p == e.action.node && NodeAfter(s, e.action).currentTerm == t && (e.Crash? ==> e.cut == |NodeAfter(s, e.action).wal|)
  {
    hide GroupInv, VotesInv, AppendOk;
    var a := e.action;
    if a.ReceiveAppend? {
      ReceiveAppendGroup(s.group, h, a.node, s.group.nodes[a.node], a.append);
    }
  }

  lemma RaisedNow(s: State, h: Ghosts, e: Event, p: NodeId, t: nat)
    requires Inv(s, h) && CanHappen(s, e) && p in s.group.members
    requires Acked(h, p, t) < Acked(AfterEvent(s, h, e), p, t)
    ensures p in Step(s, e).group.nodes && Step(s, e).group.nodes[p].currentTerm == t
  {
    hide GroupInv, VotesInv, AppendsInv, NodeAfter, NetAfter, Acked, After, Recover, Evolves;
    AckedNow(s, h, e, p, t);
    if e.Crash? {
      var g := s.group;
      var after := NodeAfter(s, e.action);
      ActionGroup(s, h, e.action);
      RecoveredTerm(WithNode(g, p, after), After(s, h, e.action), p, after);
      assert after.wal[..e.cut] == after.wal;
    }
  }

  lemma RecoveredTerm(g: Group, h: Ghosts, n: NodeId, nd: NodeState)
    requires GroupInv(g, h) && n in g.members && g.nodes[n] == nd
    ensures Recover(nd.wal).currentTerm == nd.currentTerm
  {
    assert NodeOk(g, h, n, nd);
  }

  /** An acknowledgement in term `t` goes back to a moment when the node was in `t` and had stored that much. */
  lemma {:induction false} AckWitness(states: seq<State>, events: seq<Event>, i: nat, p: NodeId, t: nat, len: nat)
    returns (w: nat)
    requires IsRun(states, events) && Here(states, i, p) && 1 <= len <= Acked(HistoryAt(states, events, i), p, t)
    ensures w <= i && Here(states, w, p) && NodeAt(states, w, p).currentTerm == t
    ensures Acked(HistoryAt(states, events, w), p, t) >= len
    decreases i
  {
    hide Init, Step, AfterEvent, GroupInv, VotesInv, AppendsInv, Acked;
    RunInv(states, events, i);
    if i == 0 {
      NothingAcked(p, t);
      assert false;
    }
    RunInv(states, events, i - 1);
    RunEvolves(states, events, i - 1, i);
    var h := HistoryAt(states, events, i - 1);
    if Acked(h, p, t) >= len {
      w := AckWitness(states, events, i - 1, p, t, len);
    } else {
      w := i;
      RaisedNow(states[i - 1], h, events[i - 1], p, t);
    }
  }

  lemma NothingAcked(p: NodeId, t: nat)
    ensures Acked(NO_HISTORY, p, t) == 0
  {
  }

  lemma StoredNow(g: Group, h: Ghosts, n: NodeId, nd: NodeState, len: nat)
    requires NodeOk(g, h, n, nd) && 1 <= len <= Acked(h, n, nd.currentTerm)
    ensures nd.currentTerm in h.termLog && len <= |h.termLog[nd.currentTerm]| && h.termLog[nd.currentTerm][..len] <= nd.log
  {
  }

  lemma MatchKnown(g: Group, h: Ghosts, n: NodeId, nd: NodeState, p: NodeId)
    requires NodeOk(g, h, n, nd) && nd.role == Leader && p in nd.matchIndex
    ensures -1 <= nd.matchIndex[p] && nd.matchIndex[p] + 1 <= Acked(h, p, nd.currentTerm)
    ensures p in g.members && p in nd.nextIndex && 0 <= nd.nextIndex[p] <= |nd.log|
  {
  }

  /**
   A leader's match index for a peer is backed by a moment of the run at which the peer, in the leader's term, held the
   leader's log up to that index; and as long as the peer is in that term it still does. Next indexes stay in range.
   */
  lemma MatchIndexSound(states: seq<State>, events: seq<Event>, i: nat, n: NodeId, p: NodeId) returns (w: nat)
    requires IsRun(states, events) && Here(states, i, n) && NodeAt(states, i, n).role == Leader
    requires p in NodeAt(states, i, n).matchIndex
    ensures var nd := NodeAt(states, i, n); var k := nd.matchIndex[p];
      && -1 <= k < |nd.log| && p in nd.nextIndex && 0 <= nd.nextIndex[p] <= |nd.log|
      && w <= i && Here(states, w, p) && Here(states, i, p)
      && (k >= 0 ==> NodeAt(states, w, p).currentTerm == nd.currentTerm && nd.log[..k + 1] <= NodeAt(states, w, p).log)
      && (k >= 0 && NodeAt(states, i, p).currentTerm == nd.currentTerm ==> nd.log[..k + 1] <= NodeAt(states, i, p).log)
  {
    hide IsRun, NodeOk, Past, HistoryAt, Acked, AcksGrow;
    var nd := NodeAt(states, i, n);
    var h := Facts(states, events, i, n);
    MatchKnown(states[i].group, h, n, nd, p);
    LeaderKnown(states[i].group, h, n, nd);
    var hp := Facts(states, events, i, p);
    var k := nd.matchIndex[p];
    w := i;
    if k >= 0 {
      w := AckWitness(states, events, i, p, nd.currentTerm, k + 1);
      var hw := Facts(states, events, w, p);
      StoredNow(states[w].group, hw, p, NodeAt(states, w, p), k + 1);
      RunEvolves(states, events, w, i);
      if NodeAt(states, i, p).currentTerm == nd.currentTerm {
        StoredNow(states[i].group, h, p, NodeAt(states, i, p), k + 1);
      }
    }
  }
}
