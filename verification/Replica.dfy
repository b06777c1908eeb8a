/**
 One node of the cluster as a value, and each critical section of internal/raft as a function of it.
 The imperative code is in Node.dfy; its methods are proved equal to these functions.
 */
module Replica {
  import opened Storage
  import opened Kv

  datatype Role = Follower | Candidate | Leader

  datatype NodeState = NodeState(
    role: Role,
    currentTerm: nat,
    votedFor: NodeId,
    log: seq<Entry>,
    commitIndex: int,
    lastApplied: int,
    nextIndex: map<NodeId, int>,
    matchIndex: map<NodeId, int>,
    data: Data,
    wal: seq<Record>)

  // The four messages of internal/transport/rpc.go.
  datatype VoteRequest = VoteRequest(term: nat, candidateId: NodeId, lastLogIndex: int, lastLogTerm: nat)
  datatype VoteResponse = VoteResponse(term: nat, voteGranted: bool)
  datatype AppendRequest = AppendRequest(
    term: nat, leaderId: NodeId, prevLogIndex: int, prevLogTerm: nat, entries: seq<Entry>, leaderCommit: int)
  datatype AppendResponse = AppendResponse(term: nat, success: bool, matchIndex: int)

  /** What sendHeartbeats captures for one peer before it releases the lock. */
  datatype Round = Round(peer: NodeId, next: int, term: nat, commitIndex: int)

  datatype Option<T> = None | Some(value: T)

  function DurableOf(nd: NodeState): Durable {
    Durable(nd.currentTerm, nd.votedFor, nd.log, nd.commitIndex)
  }

  function Min(a: int, b: int): int { if a < b then a else b }

  // ---------- start and recovery (node.go) ----------

  /** A node that has just opened its write-ahead log: volatile state is lost, committed entries are re-applied. */
  function Recover(wal: seq<Record>): NodeState {
    var d := Replay(wal);
    var applied := Min(d.commitIndex, |d.log| - 1);
    NodeState(Follower, d.currentTerm, d.votedFor, d.log, d.commitIndex, if applied < -1 then -1 else applied,
              map[], map[], if applied < 0 then map[] else Fold(d.log[..applied + 1]), wal)
  }

  // ---------- election (election.go) ----------

  function LastIndex(log: seq<Entry>): int { if log == [] then -1 else log[|log| - 1].index }

  function LastTerm(log: seq<Entry>): nat { if log == [] then 0 else log[|log| - 1].term }

  function StepDown(nd: NodeState, term: nat): NodeState {
    nd.(role := Follower, currentTerm := term, votedFor := NO_VOTE, wal := nd.wal + [StateRecord(term, NO_VOTE)])
  }

  function StartElection(id: NodeId, nd: NodeState): (NodeState, Option<VoteRequest>) {
    if nd.role == Leader then (nd, None)
    else
      var term := nd.currentTerm + 1;
      (nd.(role := Candidate, currentTerm := term, votedFor := id, wal := nd.wal + [StateRecord(term, id)]),
       Some(VoteRequest(term, id, LastIndex(nd.log), LastTerm(nd.log))))
  }

  predicate UpToDate(lastIndex: int, lastTerm: nat, log: seq<Entry>) {
    lastTerm > LastTerm(log) || (lastTerm == LastTerm(log) && lastIndex >= LastIndex(log))
  }

  function HandleRequestVote(nd: NodeState, req: VoteRequest): (NodeState, VoteResponse) {
    if req.term < nd.currentTerm then (nd, VoteResponse(nd.currentTerm, false))
    else
      var now := if req.term > nd.currentTerm then StepDown(nd, req.term) else nd;
      if (now.votedFor == NO_VOTE || now.votedFor == req.candidateId)
         && UpToDate(req.lastLogIndex, req.lastLogTerm, now.log)
      then (now.(votedFor := req.candidateId, wal := now.wal + [StateRecord(now.currentTerm, req.candidateId)]),
            VoteResponse(now.currentTerm, true))
      else (now, VoteResponse(now.currentTerm, false))
  }

  /** A vote reply for the election of `term`: the new state, and whether the vote is counted. */
  function HandleVoteReply(nd: NodeState, term: nat, resp: VoteResponse): (NodeState, bool) {
    if nd.currentTerm != term || nd.role != Candidate then (nd, false)
    else if resp.term > nd.currentTerm then (StepDown(nd, resp.term), false)
    else (nd, resp.voteGranted)
  }

  /** `m` with every key of `keys` set to `v`. */
  function Filled(m: map<NodeId, int>, keys: set<NodeId>, v: int): map<NodeId, int> {
    m + map k | k in keys :: v
  }

  function BecomeLeader(nd: NodeState, peers: set<NodeId>): NodeState {
    if nd.role == Leader then nd
    else nd.(role := Leader,
             nextIndex := Filled(nd.nextIndex, peers, |nd.log|),
             matchIndex := Filled(nd.matchIndex, peers, -1))
  }

  function CheckVotes(nd: NodeState, peers: set<NodeId>, term: nat, votes: int): NodeState {
    if nd.role == Candidate && nd.currentTerm == term && votes > (|peers| + 1) / 2
    then BecomeLeader(nd, peers) else nd
  }

  // ---------- client writes (client.go) ----------

  function ClientWrite(nd: NodeState, operation: string, key: string, value: string): NodeState {
    if nd.role != Leader then nd
    else Appended(nd, Entry(|nd.log|, nd.currentTerm, operation, key, value))
  }

  datatype Poll = LostLeadership | Answered | Waiting

  /** One tick of the loop that waits for the entry written at `index` in `term`. */
  function PollWrite(nd: NodeState, term: nat, index: int): Poll {
    if nd.role != Leader || nd.currentTerm != term then LostLeadership
    else if nd.commitIndex >= index then Answered
    else Waiting
  }

  // ---------- replication, leader side (replication.go) ----------

  // A key that is absent from a Go map reads as zero.
  function NextFor(nd: NodeState, peer: NodeId): int {
    if peer in nd.nextIndex then nd.nextIndex[peer] else 0
  }

  function Snapshot(nd: NodeState, peers: set<NodeId>): set<Round> {
    if nd.role != Leader then {}
    else set p | p in peers :: Round(p, NextFor(nd, p), nd.currentTerm, nd.commitIndex)
  }

  function BuildAppend(id: NodeId, nd: NodeState, round: Round): Option<AppendRequest> {
    if nd.role != Leader || nd.currentTerm != round.term then None
    else
      var prev := round.next - 1;
      Some(AppendRequest(round.term, id, prev,
                         if 0 <= prev < |nd.log| then nd.log[prev].term else 0,
                         if 0 <= round.next < |nd.log| then nd.log[round.next..] else [],
                         round.commitIndex))
  }

  function HandleAppendReply(nd: NodeState, peers: set<NodeId>, peer: NodeId, req: AppendRequest, resp: AppendResponse): NodeState {
    if nd.role != Leader || nd.currentTerm != req.term then nd
    else if resp.term > nd.currentTerm then StepDown(nd, resp.term)
    else if resp.success then
      if req.entries == [] then nd
      else
        var last := req.prevLogIndex + |req.entries|;
        AdvanceCommit(nd.(matchIndex := nd.matchIndex[peer := last], nextIndex := nd.nextIndex[peer := last + 1]), peers)
    else if req.prevLogIndex + 1 > 0 then nd.(nextIndex := nd.nextIndex[peer := req.prevLogIndex])
    else nd
  }

  /** The peers whose recorded match index reaches `index`. */
  function Matching(matchIndex: map<NodeId, int>, index: int): set<NodeId> {
    set p | p in matchIndex && matchIndex[p] >= index
  }

  /** A current-term entry stored by a strict majority, the leader included. */
  predicate Committable(nd: NodeState, peers: set<NodeId>, index: int) {
    && 0 <= index < |nd.log|
    && nd.log[index].term == nd.currentTerm
    && |Matching(nd.matchIndex, index)| + 1 > (|peers| + 1) / 2
  }

  /** The downward scan: the greatest committable index in (commitIndex, from), or commitIndex if there is none. */
  function CommitTarget(nd: NodeState, peers: set<NodeId>, from: int): (target: int)
    requires from <= |nd.log|
    ensures target == nd.commitIndex
         || (nd.commitIndex < target < from && Committable(nd, peers, target))
    ensures forall i :: nd.commitIndex < i < from && target < i ==> !Committable(nd, peers, i)
    decreases from - nd.commitIndex
  {
    if from - 1 <= nd.commitIndex then nd.commitIndex
    else if Committable(nd, peers, from - 1) then from - 1
    else CommitTarget(nd, peers, from - 1)
  }

  function AdvanceCommit(nd: NodeState, peers: set<NodeId>): NodeState {
    var target := CommitTarget(nd, peers, |nd.log|);
    if target == nd.commitIndex then nd
    else nd.(commitIndex := target, wal := nd.wal + [CommitRecord(target)])
  }

  // ---------- replication, follower side (replication.go) ----------

  function Appended(nd: NodeState, e: Entry): NodeState {
    nd.(log := nd.log + [e], wal := nd.wal + [EntryRecord(e)])
  }

  function AppendedAll(nd: NodeState, entries: seq<Entry>): NodeState
    decreases |entries|
  {
    if entries == [] then nd else AppendedAll(Appended(nd, entries[0]), entries[1..])
  }

  function Truncated(nd: NodeState, length: nat): NodeState
    requires length <= |nd.log|
  {
    nd.(log := nd.log[..length], wal := nd.wal + [TruncateRecord(length - 1)])
  }

  /** The loop over the request's entries; `index` is the position of entries[0]. */
  function Merged(nd: NodeState, index: nat, entries: seq<Entry>): NodeState
    decreases |entries|
  {
    if entries == [] then nd
    else if index < |nd.log| then
      if nd.log[index].term != entries[0].term then AppendedAll(Truncated(nd, index), entries)
      else Merged(nd, index + 1, entries[1..])
    else Merged(Appended(nd, entries[0]), index + 1, entries[1..])
  }

  function FollowerCommit(nd: NodeState, leaderCommit: int): NodeState {
    if leaderCommit > nd.commitIndex then
      var target := Min(leaderCommit, |nd.log| - 1);
      nd.(commitIndex := target, wal := nd.wal + [CommitRecord(target)])
    else nd
  }

  predicate CheckFails(log: seq<Entry>, req: AppendRequest) {
    req.prevLogIndex >= 0
    && (req.prevLogIndex >= |log| || log[req.prevLogIndex].term != req.prevLogTerm)
  }

  predicate HeadConflicts(log: seq<Entry>, req: AppendRequest) {
    req.prevLogIndex == -1 && req.entries != [] && log != [] && log[0].term != req.entries[0].term
  }

  /** The state after the term check: the sender leads a term at least as new as ours. */
  function Yield(nd: NodeState, term: nat): NodeState {
    if term > nd.currentTerm then StepDown(nd, term) else nd.(role := Follower)
  }

  /** Everything between a passed consistency check and the commit update. */
  function Stored(now: NodeState, req: AppendRequest): NodeState
    requires req.prevLogIndex >= -1
  {
    var base := if HeadConflicts(now.log, req) then Truncated(now, 0) else now;
    Merged(base, req.prevLogIndex + 1, req.entries)
  }

  /** The consistency check and its two outcomes, up to the commit update. */
  function Checked(now: NodeState, req: AppendRequest): NodeState
    requires req.prevLogIndex >= -1
  {
    if CheckFails(now.log, req) then Truncated(now, Min(req.prevLogIndex, |now.log|)) else Stored(now, req)
  }

  function HandleAppendEntries(nd: NodeState, req: AppendRequest): (NodeState, AppendResponse)
    requires req.prevLogIndex >= -1
  {
    if req.term < nd.currentTerm then (nd, AppendResponse(nd.currentTerm, false, 0))
    else
      var now := Yield(nd, req.term);
      var after := Checked(now, req);
      if CheckFails(now.log, req) then (after, AppendResponse(after.currentTerm, false, 0))
      else
        var done := FollowerCommit(after, req.leaderCommit);
        (done, AppendResponse(done.currentTerm, true, |done.log| - 1))
  }

  // ---------- application (apply.go) ----------

  function ApplyCommitted(nd: NodeState): NodeState
    decreases |nd.log| - nd.lastApplied
  {
    if -1 <= nd.lastApplied < nd.commitIndex && nd.lastApplied < |nd.log| - 1
    then ApplyCommitted(nd.(lastApplied := nd.lastApplied + 1, data := ApplyEntry(nd.data, nd.log[nd.lastApplied + 1])))
    else nd
  }
}
