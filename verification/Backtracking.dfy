/** A leader finds the point where a follower's log meets its own. */
module Backtracking {
  import opened Storage
  import opened Replica
  import opened LogMerge
  import opened Cluster
  import opened History
  import opened Theorems
  import opened Messages

  /** Leader `l` and follower `f` of no higher term, with matching logs. */
  ghost predicate Pair(p: NodeId, l: NodeState, f: NodeState) {
    && l.role == Leader && p in l.nextIndex && 0 <= l.nextIndex[p] <= |l.log| && l.commitIndex < |l.log|
    && f.currentTerm <= l.currentTerm && Match(f.log, l.log) && Synced(f)
  }

  function Request(id: NodeId, p: NodeId, l: NodeState): (req: AppendRequest)
    requires l.role == Leader && p in l.nextIndex && 0 <= l.nextIndex[p]
    ensures req.prevLogIndex == l.nextIndex[p] - 1 && req.term == l.currentTerm && req.leaderCommit == l.commitIndex
  {
    BuildAppend(id, l, Round(p, l.nextIndex[p], l.currentTerm, l.commitIndex)).value
  }

  /** One request, its handling, and the handling of the reply: the two new states and the outcome. */
  function Exchange(id: NodeId, peers: set<NodeId>, p: NodeId, l: NodeState, f: NodeState): (NodeState, NodeState, bool)
    requires l.role == Leader && p in l.nextIndex && 0 <= l.nextIndex[p]
  {
    var req := Request(id, p, l);
    var (f', resp) := HandleAppendEntries(f, req);
    (HandleAppendReply(l, peers, p, req, resp), f', resp.success)
  }

  lemma RequestCarries(id: NodeId, p: NodeId, l: NodeState, f: NodeState)
    requires Pair(p, l, f)
    ensures Carries(Request(id, p, l), l.log)
  {
  }

  /** The check fails: the follower cuts its log and says no. */
  lemma FollowerRejects(id: NodeId, p: NodeId, l: NodeState, f: NodeState)
    requires Pair(p, l, f) && CheckFails(f.log, Request(id, p, l))
    ensures var req := Request(id, p, l);
      var (f', resp) := HandleAppendEntries(f, req);
      && !resp.success && resp.term == f'.currentTerm == l.currentTerm && Synced(f')
      && f'.log <= f.log && req.prevLogIndex >= 0
  {
    hide Carries, Match, Checked, Synced, Request, FollowerCommit, Min;
    var req := Request(id, p, l);
    RequestCarries(id, p, l, f);
    YieldSync(f, req.term);
    Rejecting(Yield(f, req.term), req, l.log);
  }

  /** The check passes: the follower's log extends the leader's. */
  lemma FollowerAccepts(id: NodeId, p: NodeId, l: NodeState, f: NodeState)
    requires Pair(p, l, f) && !CheckFails(f.log, Request(id, p, l))
    ensures var (f', resp) := HandleAppendEntries(f, Request(id, p, l));
      resp.success && resp.term == l.currentTerm && f'.log == MergeResult(f.log, l.log)
  {
    hide Carries, Match, Checked, Synced, MergeResult, Request, FollowerCommit, Min;
    var req := Request(id, p, l);
    RequestCarries(id, p, l, f);
    YieldSync(f, req.term);
    var now := Yield(f, req.term);
    assert now.log == f.log;
    Accepting(now, req, l.log);
  }

  lemma Rejecting(now: NodeState, req: AppendRequest, sent: seq<Entry>)
    requires Synced(now) && Match(now.log, sent) && Carries(req, sent) && CheckFails(now.log, req)
    ensures var after := Checked(now, req);
      Synced(after) && after.log <= now.log && after.currentTerm == now.currentTerm && req.prevLogIndex >= 0
  {
    CheckPassage(now, req, sent);
  }

  lemma Accepting(now: NodeState, req: AppendRequest, sent: seq<Entry>)
    requires Synced(now) && Match(now.log, sent) && Carries(req, sent) && !CheckFails(now.log, req)
    ensures var done := FollowerCommit(Checked(now, req), req.leaderCommit);
      Synced(done) && done.log == MergeResult(now.log, sent) && done.currentTerm == now.currentTerm
  {
    hide Checked, Match, Synced;
    CheckPassage(now, req, sent);
    MergeLength(now.log, sent);
    CommitSync(Checked(now, req), req.leaderCommit);
  }

  lemma YieldSync(f: NodeState, term: nat)
    requires Synced(f)
    ensures Synced(Yield(f, term))
  {
    ReplayAppend(f.wal, StateRecord(term, NO_VOTE));
  }

  lemma CommitSync(nd: NodeState, leaderCommit: int)
    requires Synced(nd) && leaderCommit < |nd.log|
    ensures Synced(FollowerCommit(nd, leaderCommit))
  {
    ReplayAppend(nd.wal, CommitRecord(leaderCommit));
  }

  lemma MergeLength(log: seq<Entry>, sent: seq<Entry>)
    ensures |MergeResult(log, sent)| >= |sent|
  {
  }

  /** A failed exchange moves the next index one step back and leaves a matching pair. */
  lemma Failed(id: NodeId, peers: set<NodeId>, p: NodeId, l: NodeState, f: NodeState)
    requires Pair(p, l, f) && !Exchange(id, peers, p, l, f).2
    ensures var (l', f', ok) := Exchange(id, peers, p, l, f);
      Pair(p, l', f') && l'.log == l.log && l.nextIndex[p] >= 1 && l'.nextIndex[p] == l.nextIndex[p] - 1
  {
    hide HandleAppendEntries, AdvanceCommit;
    if CheckFails(f.log, Request(id, p, l)) {
      FollowerRejects(id, p, l, f);
    } else {
      FollowerAccepts(id, p, l, f);
    }
    var f' := Exchange(id, peers, p, l, f).1;
    MatchPrefix(f.log, f'.log, l.log);
  }

  lemma MatchPrefix(log: seq<Entry>, shorter: seq<Entry>, other: seq<Entry>)
    requires Match(log, other) && shorter <= log
    ensures Match(shorter, other)
  {
    forall i | 0 <= i < |shorter| && i < |other| && shorter[i].term == other[i].term ensures shorter[..i + 1] == other[..i + 1] {
      assert shorter[i] == log[i];
      assert shorter[..i + 1] == log[..i + 1];
    }
  }

  /** A successful exchange: the follower holds the leader's log, and the leader knows it if it shipped anything. */
  lemma Succeeded(id: NodeId, peers: set<NodeId>, p: NodeId, l: NodeState, f: NodeState)
    requires Pair(p, l, f) && Exchange(id, peers, p, l, f).2
    ensures l.log <= Exchange(id, peers, p, l, f).1.log
    ensures l.nextIndex[p] < |l.log| ==>
      var l' := Exchange(id, peers, p, l, f).0;
      p in l'.matchIndex && p in l'.nextIndex && l'.matchIndex[p] == |l.log| - 1 && l'.nextIndex[p] == |l.log|
  {
    hide HandleAppendEntries, CommitTarget;
    if CheckFails(f.log, Request(id, p, l)) {
      FollowerRejects(id, p, l, f);
    } else {
      FollowerAccepts(id, p, l, f);
    }
  }

  /** Exchanges repeated until one succeeds: how many it took, and the follower then. */
  ghost function Settle(id: NodeId, peers: set<NodeId>, p: NodeId, l: NodeState, f: NodeState): (r: (nat, NodeState))
    requires Pair(p, l, f)
    ensures 1 <= r.0 <= l.nextIndex[p] + 1
    ensures l.log <= r.1.log
    decreases l.nextIndex[p]
  {
    var (l', f', ok) := Exchange(id, peers, p, l, f);
    if ok then
      Succeeded(id, peers, p, l, f);
      (1, f')
    else
      Failed(id, peers, p, l, f);
      var (count, last) := Settle(id, peers, p, l', f');
      (count + 1, last)
  }

  /** In every run: a leader left alone with a peer of no higher term needs at most nextIndex + 1 exchanges. */
  lemma BacktrackingTerminates(states: seq<State>, events: seq<Event>, i: nat, n: NodeId, p: NodeId)
    requires IsRun(states, events) && Here(states, i, n) && Here(states, i, p)
    requires NodeAt(states, i, n).role == Leader && p in NodeAt(states, i, n).matchIndex
    requires NodeAt(states, i, p).currentTerm <= NodeAt(states, i, n).currentTerm
    ensures var l, f := NodeAt(states, i, n), NodeAt(states, i, p);
      && Pair(p, l, f)
      && (forall peers :: Settle(n, peers, p, l, f).0 <= l.nextIndex[p] + 1 && l.log <= Settle(n, peers, p, l, f).1.log)
  {
    hide IsRun, NodeOk, Past, Match;
    var w := MatchIndexSound(states, events, i, n, p);
    StateMachineSafety(states, events, i, i, n, p);
    LogMatching(states, events, i, i, p, n);
    var h := Facts(states, events, i, p);
    SyncedOf(states[i].group, h, p, NodeAt(states, i, p));
  }
}
