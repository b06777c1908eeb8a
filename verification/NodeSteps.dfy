/** Steps that change one node and leave the history alone. */
module NodeSteps {
  import opened Storage
  import opened Kv
  import opened Replica
  import opened LogMerge
  import opened Cluster
  import opened History
  import opened Growth

  /** Replacing one node by a state that keeps its promises. */
  lemma Swap(g: Group, h: Ghosts, n: NodeId, nd: NodeState)
    requires GroupInv(g, h) && n in g.members && NodeOk(g, h, n, nd)
    requires g.nodes[n].currentTerm <= nd.currentTerm && g.nodes[n].wal <= nd.wal
    ensures var g' := WithNode(g, n, nd); GroupInv(g', h) && Evolves(g, h, g', h)
  {
    SwapAdvanced(g, h, n, nd);
    GroupFrame(g, h, WithNode(g, n, nd), h, n);
  }

  lemma SwapAdvanced(g: Group, h: Ghosts, n: NodeId, nd: NodeState)
    requires Shape(g, h) && Past(g, h) && n in g.members && NodeOk(g, h, n, nd)
    requires g.nodes[n].currentTerm <= nd.currentTerm && g.nodes[n].wal <= nd.wal
    ensures Advanced(g, h, WithNode(g, n, nd), h, n)
  {
    hide NodesGrow, AcksGrow, RecordsGrow, OnlyAbout, Past, NodeOk;
    var g' := WithNode(g, n, nd);
    NodeGrows(g, n, nd);
    Unchanged(g, h, n);
    SwapNodeOk(g, h, g', n, nd);
    SwapPast(g, h, g', n);
  }

  lemma Unchanged(g: Group, h: Ghosts, n: NodeId)
    requires Shape(g, h)
    ensures OnlyAbout(h, h, n) && RecordsGrow(h, h) && AcksGrow(g, h, h)
  {
  }

  lemma SwapPast(g: Group, h: Ghosts, g': Group, n: NodeId)
    requires Past(g, h) && Evolves(g, h, g', h) && OnlyNode(g, h, g', h, n)
    ensures Past(g', h)
  {
    CompleteFrame(g, h, g', h);
    forall t | (n, t) in h.acks ensures AckOk(g', h, n, t) {
      assert AckOk(g, h, n, t);
    }
    PastFrame(g, h, g', h, n);
  }

  lemma SwapNodeOk(g: Group, h: Ghosts, g': Group, n: NodeId, nd: NodeState)
    requires Past(g, h) && Evolves(g, h, g', h) && NodeOk(g, h, n, nd)
    ensures NodeOk(g', h, n, nd)
  {
    assert StoredOk(g', h, n, nd.currentTerm, nd.log) by {
      forall t: nat, len: nat | t < nd.currentTerm && len <= Acked(h, n, t) && Live(g', h, t, len)
        ensures h.termLog[t][..len] <= nd.log
      {
        LiveShrinks(g, h, g', h, t, len);
      }
    }
    CommittedGrows(g, h, g', h, nd.log[..nd.commitIndex + 1], nd.currentTerm, nd.currentTerm);
  }

  lemma VoteRecordsGrow(h: Ghosts, n: NodeId, wal: seq<Record>, longer: seq<Record>)
    requires VoteRecordsOk(h, n, wal) && wal <= longer
    requires forall i :: |wal| <= i < |longer| ==> !(longer[i].StateRecord? && longer[i].votedFor != NO_VOTE)
    ensures VoteRecordsOk(h, n, longer)
  {
  }

  /** A node has neither voted nor acknowledged in a term it has not reached. */
  lemma Untouched(g: Group, h: Ghosts, n: NodeId, term: nat)
    requires Past(g, h) && n in g.nodes && term > g.nodes[n].currentTerm
    ensures (n, term) !in h.ballots && (n, term) !in h.acks
  {
  }

  /** Moving to a later term: what was stored in the term left behind is now an old promise. */
  lemma KeepsLater(g: Group, h: Ghosts, n: NodeId, term: nat, log: seq<Entry>)
    requires Past(g, h) && n in g.nodes && StoredOk(g, h, n, g.nodes[n].currentTerm, log)
    ensures Keeps(g, h, n, term, log)
  {
    forall t: nat, len: nat | t < term && len <= Acked(h, n, t) && Live(g, h, t, len)
      ensures h.termLog[t][..len] <= log
    {
      assert AckOk(g, h, n, t);
      if t == g.nodes[n].currentTerm {
        assert h.termLog[t][..len] <= h.termLog[t][..Acked(h, n, t)];
      }
    }
  }

  lemma StepDownOk(g: Group, h: Ghosts, n: NodeId, nd: NodeState, term: nat)
    requires Shape(g, h) && Past(g, h) && n in g.members && nd == g.nodes[n] && NodeOk(g, h, n, nd) && term > nd.currentTerm
    ensures NodeOk(g, h, n, StepDown(nd, term))
  {
    Untouched(g, h, n, term);
    KeepsLater(g, h, n, term, nd.log);
    LaterTerm(g, h, n, nd, term);
  }

  /** A higher term without a vote. */
  lemma LaterTerm(g: Group, h: Ghosts, n: NodeId, nd: NodeState, term: nat)
    requires NodeOk(g, h, n, nd) && term > nd.currentTerm
    requires Keeps(g, h, n, term, nd.log) && (n, term) !in h.ballots && (n, term) !in h.acks
    ensures NodeOk(g, h, n, StepDown(nd, term))
  {
    ReplayAppend(nd.wal, StateRecord(term, NO_VOTE));
    VoteRecordsGrow(h, n, nd.wal, StepDown(nd, term).wal);
  }

  /** Losing the volatile state. */
  lemma ResetOk(g: Group, h: Ghosts, n: NodeId, nd: NodeState)
    requires NodeOk(g, h, n, nd)
    ensures NodeOk(g, h, n, Recover(nd.wal))
    ensures DurableOf(Recover(nd.wal)) == DurableOf(nd)
  {
    var now := Recover(nd.wal);
    assert now.lastApplied == nd.commitIndex;
    assert nd.commitIndex < 0 ==> now.log[..now.lastApplied + 1] == [];
  }

  lemma {:induction false} ApplyOk(nd: NodeState)
    requires LocalOk(nd)
    ensures var now := ApplyCommitted(nd);
      && now == nd.(lastApplied := nd.commitIndex, data := Fold(nd.log[..nd.commitIndex + 1])) && LocalOk(now)
    decreases |nd.log| - nd.lastApplied
  {
    if nd.lastApplied < nd.commitIndex {
      FoldStep(nd.log, nd.lastApplied + 1);
      ApplyOk(nd.(lastApplied := nd.lastApplied + 1, data := ApplyEntry(nd.data, nd.log[nd.lastApplied + 1])));
    }
  }

  // ---------- a follower hears from the leader of its term ----------

  /** The follower's log and the sender's log match. */
  lemma LogsMatch(h: Ghosts, a: seq<Entry>, b: seq<Entry>)
    requires LogOk(h, a) && LogOk(h, b)
    ensures Match(a, b)
  {
    forall i | 0 <= i < |a| && i < |b| && a[i].term == b[i].term ensures a[..i + 1] == b[..i + 1] {
      var leaders := h.termLog[a[i].term];
      assert a[..i + 1] == leaders[..i + 1] == b[..i + 1];
    }
  }

  /** Any move towards the sender's log keeps every promise of the follower. */
  lemma MoveOk(g: Group, h: Ghosts, n: NodeId, nd: NodeState, req: AppendRequest, now: NodeState)
    requires g.nodes.Keys == g.members && TermOk(g, h, req.term) && Complete(g, h) && NodeOk(g, h, n, nd)
    requires AppendOk(g, h, req) && nd.currentTerm == req.term
    requires now == nd.(role := Follower, log := now.log, wal := now.wal) && Synced(now) && VoteRecordsOk(h, n, now.wal)
    requires Moves(nd.log, now.log, SentLog(h, req)) && RoleOk(g, h, n, now)
    ensures NodeOk(g, h, n, now)
    ensures nd.log[..nd.commitIndex + 1] <= now.log
  {
    hide LogOk, Bounded, StoredOk, Committed, Moves, VoteOk, VoteRecordsOk, RoleOk, Complete, TermOk, AppendOk, SentLog;
    SentPrefix(g, h, req);
    MoveLogOk(g, h, nd, req, now);
    MoveStored(g, h, n, req, nd.log, now.log);
    CommittedIn(g, h, nd.log[..nd.commitIndex + 1], nd.currentTerm, req.term);
    MovesKeep(nd.log, now.log, SentLog(h, req), nd.log[..nd.commitIndex + 1]);
    Moved(g, h, n, nd, now);
  }

  lemma SentPrefix(g: Group, h: Ghosts, req: AppendRequest)
    requires AppendOk(g, h, req)
    ensures req.term in h.termLog && SentLog(h, req) <= h.termLog[req.term]
  {
  }

  lemma Moved(g: Group, h: Ghosts, n: NodeId, nd: NodeState, now: NodeState)
    requires LocalOk(nd) && now == nd.(role := Follower, log := now.log, wal := now.wal) && Synced(now)
    requires nd.log[..nd.commitIndex + 1] <= now.log
    requires Committed(g, h, nd.log[..nd.commitIndex + 1], nd.currentTerm)
    ensures LocalOk(now) && Committed(g, h, now.log[..now.commitIndex + 1], now.currentTerm)
  {
    assert now.log[..nd.commitIndex + 1] == nd.log[..nd.commitIndex + 1];
    assert now.log[..nd.lastApplied + 1] == nd.log[..nd.lastApplied + 1];
  }

  lemma MoveLogOk(g: Group, h: Ghosts, nd: NodeState, req: AppendRequest, now: NodeState)
    requires AppendOk(g, h, req) && TermOk(g, h, req.term) && nd.currentTerm == req.term
    requires LogOk(h, nd.log) && Bounded(nd.log, nd.currentTerm) && Moves(nd.log, now.log, SentLog(h, req))
    ensures LogOk(h, now.log) && Bounded(now.log, nd.currentTerm)
  {
    if now.log <= nd.log {
      LogOkPrefix(h, nd.log, now.log);
    } else {
      LogOkPrefix(h, h.termLog[req.term], now.log);
    }
  }

  lemma MoveStored(g: Group, h: Ghosts, n: NodeId, req: AppendRequest, log: seq<Entry>, after: seq<Entry>)
    requires Complete(g, h) && AppendOk(g, h, req) && StoredOk(g, h, n, req.term, log)
    requires Moves(log, after, SentLog(h, req))
    ensures StoredOk(g, h, n, req.term, after)
  {
    var sent := SentLog(h, req);
    forall t: nat, len: nat | t < req.term && len <= Acked(h, n, t) && Live(g, h, t, len)
      ensures h.termLog[t][..len] <= after
    {
      assert h.termLog[t][..len] <= h.termLog[req.term];
      MovesKeep(log, after, sent, h.termLog[t][..len]);
    }
    if (n, req.term) in h.acks {
      MovesKeep(log, after, sent, h.termLog[req.term][..h.acks[(n, req.term)]]);
    }
  }

  /** The commit index a follower takes from a request covers only entries the sender announced. */
  lemma FollowerCommitOk(g: Group, h: Ghosts, n: NodeId, nd: NodeState, req: AppendRequest)
    requires NodeOk(g, h, n, nd) && nd.role == Follower
    requires AppendOk(g, h, req) && nd.currentTerm == req.term && SentLog(h, req) <= nd.log
    ensures NodeOk(g, h, n, FollowerCommit(nd, req.leaderCommit))
    ensures FollowerCommit(nd, req.leaderCommit).commitIndex ==
            if req.leaderCommit > nd.commitIndex then req.leaderCommit else nd.commitIndex
  {
    hide LogOk, Bounded, StoredOk, VoteOk, VoteRecordsOk, Chosen;
    if req.leaderCommit > nd.commitIndex {
      var now := FollowerCommit(nd, req.leaderCommit);
      ReplayAppend(nd.wal, CommitRecord(req.leaderCommit));
      VoteRecordsGrow(h, n, nd.wal, now.wal);
      assert nd.log[..req.leaderCommit + 1] == h.termLog[req.term][..req.leaderCommit + 1];
    }
  }

  // ---------- the leader hears from a peer ----------

  lemma ReplyMatchOk(g: Group, h: Ghosts, n: NodeId, nd: NodeState, reply: AppendReply)
    requires NodeOk(g, h, n, nd) && nd.role == Leader
    requires AppendReplyOk(g, h, reply) && reply.request.leaderId == n && reply.request.term == nd.currentTerm
    requires reply.response.success
    ensures var last := reply.request.prevLogIndex + |reply.request.entries|;
      NodeOk(g, h, n, nd.(matchIndex := nd.matchIndex[reply.from := last], nextIndex := nd.nextIndex[reply.from := last + 1]))
  {
    hide LogOk, Bounded, StoredOk, VoteOk, VoteRecordsOk, Committed, Carries;
  }

  lemma BackOffOk(g: Group, h: Ghosts, n: NodeId, nd: NodeState, reply: AppendReply)
    requires NodeOk(g, h, n, nd) && nd.role == Leader
    requires AppendReplyOk(g, h, reply) && reply.request.leaderId == n && reply.request.term == nd.currentTerm
    requires reply.request.prevLogIndex >= 0
    ensures NodeOk(g, h, n, nd.(nextIndex := nd.nextIndex[reply.from := reply.request.prevLogIndex]))
  {
    hide LogOk, Bounded, StoredOk, VoteOk, VoteRecordsOk, Committed, Carries;
  }

  /** The commit rule: a majority of match indexes over a current-term entry means the entry is chosen. */
  lemma CommittableIsChosen(g: Group, h: Ghosts, n: NodeId, nd: NodeState, index: int)
    requires n in g.members && RoleOk(g, h, n, nd) && nd.role == Leader && Committable(nd, Peers(g, n), index)
    ensures Chosen(g, h, nd.currentTerm, index + 1)
  {
    var holders := Holders(g, h, nd.currentTerm, index + 1);
    var matching := Matching(nd.matchIndex, index);
    assert matching + {n} <= holders;
    assert |matching + {n}| == |matching| + 1;
    SubsetSize(matching + {n}, holders);
    assert |g.members| == |Peers(g, n)| + 1 by { assert g.members == Peers(g, n) + {n}; }
    assert holders <= g.members;
  }

  lemma AdvanceOk(g: Group, h: Ghosts, n: NodeId, nd: NodeState)
    requires n in g.members && NodeOk(g, h, n, nd) && nd.role == Leader
    ensures NodeOk(g, h, n, AdvanceCommit(nd, Peers(g, n)))
  {
    hide LogOk, Bounded, StoredOk, VoteOk, VoteRecordsOk, MatchOk, NextOk, Matching;
    var target := CommitTarget(nd, Peers(g, n), |nd.log|);
    if target != nd.commitIndex {
      CommittableIsChosen(g, h, n, nd, target);
      ReplayAppend(nd.wal, CommitRecord(target));
      VoteRecordsGrow(h, n, nd.wal, AdvanceCommit(nd, Peers(g, n)).wal);
      assert nd.log[..target + 1] <= h.termLog[nd.currentTerm][..target + 1];
    }
  }
}
