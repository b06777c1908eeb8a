/** A follower receives AppendEntries, completely or cut short by a crash. */
module AppendSteps {
  import opened Storage
  import opened Replica
  import opened LogMerge
  import opened Cluster
  import opened History
  import opened Growth
  import opened NodeSteps
  import opened HistorySteps

  lemma Twice(g: Group, n: NodeId, a: NodeState, b: NodeState)
    ensures WithNode(WithNode(g, n, a), n, b) == WithNode(g, n, b)
  {
  }

  /** What the invariant says about one node. */
  lemma At(g: Group, h: Ghosts, n: NodeId)
    requires GroupInv(g, h) && n in g.members
    ensures Shape(g, h) && Past(g, h) && n in g.nodes && NodeOk(g, h, n, g.nodes[n])
  {
  }

  lemma TermAt(g: Group, h: Ghosts, t: nat)
    requires Past(g, h) && t in h.termLog
    ensures TermOk(g, h, t) && Complete(g, h)
  {
  }

  /** Swap again the node that was swapped before. */
  lemma SwapNext(g: Group, h: Ghosts, n: NodeId, a: NodeState, b: NodeState)
    requires n in g.members && GroupInv(WithNode(g, n, a), h) && Evolves(g, h, WithNode(g, n, a), h)
    requires NodeOk(WithNode(g, n, a), h, n, b) && a.currentTerm <= b.currentTerm && a.wal <= b.wal
    ensures GroupInv(WithNode(g, n, b), h) && Evolves(g, h, WithNode(g, n, b), h)
  {
    var g1 := WithNode(g, n, a);
    Swap(g1, h, n, b);
    Twice(g, n, a, b);
    EvolvesTrans(g, h, g1, h, WithNode(g, n, b), h);
  }

  /** Crashing right after a consistent state. */
  lemma ResetNext(g: Group, h: Ghosts, g': Group, h': Ghosts, n: NodeId, nd: NodeState)
    requires n in g.members && g' == WithNode(g, n, nd) && GroupInv(g', h') && Evolves(g, h, g', h')
    ensures GroupInv(WithNode(g, n, Recover(nd.wal)), h') && Evolves(g, h, WithNode(g, n, Recover(nd.wal)), h')
  {
    assert NodeOk(g', h', n, nd);
    ResetOk(g', h', n, nd);
    Swap(g', h', n, Recover(nd.wal));
    Twice(g, n, nd, Recover(nd.wal));
    EvolvesTrans(g, h, g', h', WithNode(g, n, Recover(nd.wal)), h');
  }

  lemma YieldSame(g: Group, h: Ghosts, n: NodeId, nd: NodeState)
    requires NodeOk(g, h, n, nd)
    ensures NodeOk(g, h, n, nd.(role := Follower))
  {
  }

  lemma YieldStep(g: Group, h: Ghosts, n: NodeId, nd: NodeState, term: nat)
    requires GroupInv(g, h) && n in g.members && nd == g.nodes[n] && term >= nd.currentTerm
    ensures var g' := WithNode(g, n, Yield(nd, term)); GroupInv(g', h) && Evolves(g, h, g', h)
    ensures Yield(nd, term).role == Follower && Yield(nd, term).currentTerm == term && Yield(nd, term).log == nd.log
  {
    hide GroupInv, Past, Evolves, NodeOk;
    At(g, h, n);
    if term > nd.currentTerm {
      StepDownOk(g, h, n, nd, term);
    } else {
      YieldSame(g, h, n, nd);
    }
    Swap(g, h, n, Yield(nd, term));
  }

  /** A node that has moved towards the sender's log, as a step of the group. */
  lemma MoveStep(g: Group, h: Ghosts, n: NodeId, now: NodeState, req: AppendRequest, after: NodeState)
    requires n in g.members && GroupInv(WithNode(g, n, now), h) && Evolves(g, h, WithNode(g, n, now), h)
    requires AppendOk(g, h, req) && now.currentTerm == req.term && now.role == Follower
    requires after == now.(log := after.log, wal := after.wal) && now.wal <= after.wal && Synced(after)
    requires forall i :: |now.wal| <= i < |after.wal| ==> !after.wal[i].StateRecord?
    requires Moves(now.log, after.log, SentLog(h, req))
    ensures GroupInv(WithNode(g, n, after), h) && Evolves(g, h, WithNode(g, n, after), h)
  {
    hide GroupInv, Evolves, Moves, Past, LogOk, StoredOk, Committed;
    var g1 := WithNode(g, n, now);
    At(g1, h, n);
    AppendGrows(g, h, g1, h, req);
    VoteRecordsGrow(h, n, now.wal, after.wal);
    TermAt(g1, h, req.term);
    MoveOk(g1, h, n, now, req, after);
    SwapNext(g, h, n, now, after);
  }

  lemma SentMatches(g: Group, h: Ghosts, n: NodeId, req: AppendRequest)
    requires AppendOk(g, h, req)
    requires GroupInv(g, h) && n in g.members
    ensures Carries(req, SentLog(h, req)) && Match(g.nodes[n].log, SentLog(h, req)) && Synced(g.nodes[n])
  {
    hide GroupInv, Past, Match, LogOk, StoredOk, Committed, RoleOk, Complete;
    At(g, h, n);
    TermAt(g, h, req.term);
    LogOkPrefix(h, h.termLog[req.term], SentLog(h, req));
    LogsMatch(h, g.nodes[n].log, SentLog(h, req));
  }

  /** The node after the term check, ready for the log check. */
  lemma Yielded(g: Group, h: Ghosts, n: NodeId, nd: NodeState, req: AppendRequest)
    requires AppendOk(g, h, req)
    requires GroupInv(g, h) && n in g.members && nd == g.nodes[n] && req.term >= nd.currentTerm
    ensures var now := Yield(nd, req.term); var g' := WithNode(g, n, now);
      && GroupInv(g', h) && Evolves(g, h, g', h)
      && now.role == Follower && now.currentTerm == req.term && now.log == nd.log
    ensures var now := Yield(nd, req.term);
      && Passage(now, Checked(now, req), SentLog(h, req))
      && (!CheckFails(now.log, req) ==> Checked(now, req).log == MergeResult(nd.log, SentLog(h, req)))
  {
    hide GroupInv, Past, Evolves, Match, Carries, Passage;
    var now := Yield(nd, req.term);
    YieldStep(g, h, n, nd, req.term);
    SentMatches(g, h, n, req);
    YieldSynced(g, h, n, now);
    CheckPassage(now, req, SentLog(h, req));
  }

  lemma YieldSynced(g: Group, h: Ghosts, n: NodeId, nd: NodeState)
    requires GroupInv(WithNode(g, n, nd), h) && n in g.members
    ensures Synced(nd)
  {
    assert NodeOk(WithNode(g, n, nd), h, n, nd);
  }

  /** The log part of a completed handler. */
  lemma CheckedStep(g: Group, h: Ghosts, n: NodeId, nd: NodeState, req: AppendRequest)
    requires AppendOk(g, h, req)
    requires GroupInv(g, h) && n in g.members && nd == g.nodes[n] && req.term >= nd.currentTerm
    ensures var after := Checked(Yield(nd, req.term), req);
      && GroupInv(WithNode(g, n, after), h) && Evolves(g, h, WithNode(g, n, after), h)
      && after.role == Follower && after.currentTerm == req.term
      && (!CheckFails(nd.log, req) ==> after.log == MergeResult(nd.log, SentLog(h, req)))
  {
    hide GroupInv, Past, Evolves, Passage, Carries, Moves, Checked;
    var now := Yield(nd, req.term);
    Yielded(g, h, n, nd, req);
    PassageEnd(now, Checked(now, req), SentLog(h, req));
    MoveStep(g, h, n, now, req, Checked(now, req));
  }

  /** The commit update and the acknowledgement of a completed handler. */
  lemma AppendCommitStep(g: Group, h: Ghosts, n: NodeId, after: NodeState, req: AppendRequest)
    requires AppendOk(g, h, req)
    requires n in g.members && GroupInv(WithNode(g, n, after), h) && Evolves(g, h, WithNode(g, n, after), h)
    requires after.currentTerm == req.term && after.role == Follower && SentLog(h, req) <= after.log
    ensures var done := FollowerCommit(after, req.leaderCommit);
      var h' := Acknowledge(h, n, req.term, req.prevLogIndex + 1 + |req.entries|);
      && GroupInv(WithNode(g, n, done), h') && Evolves(g, h, WithNode(g, n, done), h')
      && Acked(h', n, req.term) >= req.prevLogIndex + 1 + |req.entries|
  {
    hide GroupInv, Past, Evolves, NodeOk, Carries;
    var g1 := WithNode(g, n, after);
    var done := FollowerCommit(after, req.leaderCommit);
    var g2 := WithNode(g, n, done);
    AppendGrows(g, h, g1, h, req);
    At(g1, h, n);
    FollowerCommitOk(g1, h, n, after, req);
    SwapNext(g, h, n, after, done);
    AppendGrows(g, h, g2, h, req);
    AckStep(g2, h, n, done, req);
    EvolvesTrans(g, h, g2, h, g2, Acknowledge(h, n, req.term, req.prevLogIndex + 1 + |req.entries|));
  }

  /** The history after `req` has been handled with outcome `success`. */
  function AfterAppend(h: Ghosts, n: NodeId, req: AppendRequest, success: bool): Ghosts
    requires req.prevLogIndex >= -1
  {
    if success then Acknowledge(h, n, req.term, req.prevLogIndex + 1 + |req.entries|) else h
  }

  lemma ReceiveAppendGroup(g: Group, h: Ghosts, n: NodeId, nd: NodeState, req: AppendRequest)
    requires AppendOk(g, h, req)
    requires GroupInv(g, h) && n in g.members && nd == g.nodes[n]
    ensures var (now, resp) := HandleAppendEntries(nd, req);
      var h' := AfterAppend(h, n, req, resp.success);
      && GroupInv(WithNode(g, n, now), h') && Evolves(g, h, WithNode(g, n, now), h')
      && (resp.success ==> Acked(h', n, req.term) >= req.prevLogIndex + 1 + |req.entries|)
      && (resp.success ==> now.currentTerm == req.term)
  {
    hide GroupInv, Past, Evolves, Carries, Checked, Acknowledge, Acked;
    if req.term < nd.currentTerm {
      Same(g, h, n);
    } else {
      CheckedStep(g, h, n, nd, req);
      if !CheckFails(nd.log, req) {
        AppendCommitStep(g, h, n, Checked(Yield(nd, req.term), req), req);
      }
    }
  }

  lemma Same(g: Group, h: Ghosts, n: NodeId)
    requires GroupInv(g, h) && n in g.members
    ensures WithNode(g, n, g.nodes[n]) == g && Evolves(g, h, g, h)
  {
    EvolvesRefl(g, h);
  }

  /** A crash between two records of the handler. */
  lemma ReceiveAppendCut(g: Group, h: Ghosts, n: NodeId, nd: NodeState, req: AppendRequest, cut: nat)
    requires AppendOk(g, h, req)
    requires GroupInv(g, h) && n in g.members && nd == g.nodes[n]
    requires |nd.wal| < cut < |HandleAppendEntries(nd, req).0.wal|
    ensures var dead := Recover(HandleAppendEntries(nd, req).0.wal[..cut]);
      GroupInv(WithNode(g, n, dead), h) && Evolves(g, h, WithNode(g, n, dead), h)
  {
    hide GroupInv, Past, Evolves, Carries, Passage, Checked, Recover;
    var now := Yield(nd, req.term);
    Yielded(g, h, n, nd, req);
    var after := Checked(now, req);
    PassageEnd(now, after, SentLog(h, req));
    assert HandleAppendEntries(nd, req).0.wal[..cut] == after.wal[..cut];
    CutStep(g, h, n, now, req, after, cut);
  }

  lemma CutStep(g: Group, h: Ghosts, n: NodeId, now: NodeState, req: AppendRequest, after: NodeState, cut: nat)
    requires AppendOk(g, h, req)
    requires n in g.members && GroupInv(WithNode(g, n, now), h) && Evolves(g, h, WithNode(g, n, now), h)
    requires now.currentTerm == req.term && now.role == Follower
    requires Passage(now, after, SentLog(h, req)) && |now.wal| <= cut <= |after.wal|
    ensures var dead := Recover(after.wal[..cut]);
      GroupInv(WithNode(g, n, dead), h) && Evolves(g, h, WithNode(g, n, dead), h)
  {
    hide GroupInv, Past, Evolves, Carries, Passage, Moves, Recover;
    var wal := after.wal[..cut];
    PassageCut(now, after, SentLog(h, req), cut);
    var mid := now.(log := Replay(wal).log, wal := wal);
    MoveStep(g, h, n, now, req, mid);
    ResetNext(g, h, WithNode(g, n, mid), h, n, mid);
  }
}
