/**
 History variables and the inductive invariant. A history is not part of the system: `After` computes it from
 the actions taken, and the theorems in Theorems.dfy mention runs only.
 */
module History {
  import opened Storage
  import opened Replica
  import opened Kv
  import opened LogMerge
  import opened Cluster

  /** A persisted vote, with the voter's log when it was cast. */
  datatype Ballot = Ballot(candidate: NodeId, log: seq<Entry>)

  datatype Ghosts = Ghosts(
    leaderOf: map<nat, NodeId>,            // term -> the node promoted in it
    voters: map<nat, set<NodeId>>,         // term -> the majority that elected it
    termLog: map<nat, seq<Entry>>,         // term -> the log of its leader, as long as it ever got
    ballots: map<(NodeId, nat), Ballot>,   // (voter, term) -> its vote
    acks: map<(NodeId, nat), nat>)         // (node, term) -> how much of termLog[term] it has stored

  function Acked(h: Ghosts, n: NodeId, t: nat): nat { if (n, t) in h.acks then h.acks[(n, t)] else 0 }

  ghost predicate Majority(q: set<NodeId>, members: set<NodeId>) { q <= members && 2 * |q| > |members| }

  // ---------- logs ----------

  /** Every prefix of `log` that ends with a term-t entry is a prefix of the log of the leader of t. */
  ghost predicate LogOk(h: Ghosts, log: seq<Entry>) {
    forall i :: 0 <= i < |log| ==>
      && log[i].index == i
      && log[i].term in h.termLog
      && log[..i + 1] <= h.termLog[log[i].term]
  }

  ghost predicate Bounded(log: seq<Entry>, term: int) {
    forall i :: 0 <= i < |log| ==> log[i].term <= term
  }

  // ---------- what is, or may yet become, committed ----------

  /** The first `len` entries of the log of term `t`, ending in an entry of that very term. */
  ghost predicate OwnPrefix(h: Ghosts, t: nat, len: nat) {
    t in h.termLog && 1 <= len <= |h.termLog[t]| && h.termLog[t][len - 1].term == t
  }

  function Holders(g: Group, h: Ghosts, t: nat, len: nat): set<NodeId> {
    set n | n in g.members && Acked(h, n, t) >= len
  }

  /** Holders, and nodes that may still become holders because they have not passed term `t`. */
  function Hopefuls(g: Group, h: Ghosts, t: nat, len: nat): set<NodeId> {
    set n | n in g.members && n in g.nodes && (Acked(h, n, t) >= len || g.nodes[n].currentTerm <= t)
  }

  ghost predicate Chosen(g: Group, h: Ghosts, t: nat, len: nat) {
    OwnPrefix(h, t, len) && Majority(Holders(g, h, t, len), g.members)
  }

  ghost predicate Live(g: Group, h: Ghosts, t: nat, len: nat) {
    OwnPrefix(h, t, len) && Majority(Hopefuls(g, h, t, len), g.members)
  }

  /** `log` is covered by something chosen in a term no later than `term`. */
  ghost predicate Committed(g: Group, h: Ghosts, log: seq<Entry>, term: nat) {
    log == [] || exists t: nat, len: nat :: t <= term && Chosen(g, h, t, len) && log <= h.termLog[t][..len]
  }

  // ---------- the invariant, clause by clause ----------

  ghost predicate Shape(g: Group, h: Ghosts) {
    && g.nodes.Keys == g.members && NO_VOTE !in g.members
    && h.leaderOf.Keys == h.termLog.Keys && h.voters.Keys == h.termLog.Keys
  }

  ghost predicate VotedIn(h: Ghosts, n: NodeId, t: nat, candidate: NodeId) {
    (n, t) in h.ballots && h.ballots[(n, t)].candidate == candidate
  }

  ghost predicate TermOk(g: Group, h: Ghosts, t: nat) {
    && t >= 1 && t in h.termLog && t in h.leaderOf && t in h.voters
    && h.leaderOf[t] in h.voters[t]
    && Majority(h.voters[t], g.members)
    && (forall p :: p in h.voters[t] ==> VotedIn(h, p, t, h.leaderOf[t]))
    && LogOk(h, h.termLog[t]) && Bounded(h.termLog[t], t)
  }

  /** Whatever `n` stored in a term before `bound` and is still live is in `log`. */
  ghost predicate Keeps(g: Group, h: Ghosts, n: NodeId, bound: nat, log: seq<Entry>) {
    forall t: nat, len: nat :: t < bound && len <= Acked(h, n, t) && Live(g, h, t, len) ==> h.termLog[t][..len] <= log
  }

  ghost predicate BallotOk(g: Group, h: Ghosts, n: NodeId, t: nat)
    requires (n, t) in h.ballots
  {
    var b := h.ballots[(n, t)];
    && n in g.nodes && n in g.members && t >= 1 && t <= g.nodes[n].currentTerm
    && b.candidate in g.members
    && StateRecord(t, b.candidate) in g.nodes[n].wal
    && LogOk(h, b.log)
    && Keeps(g, h, n, t, b.log)
    && VotedIn(h, b.candidate, t, b.candidate)
    && var c := h.ballots[(b.candidate, t)].log; UpToDate(LastIndex(c), LastTerm(c), b.log) && Bounded(c, t - 1)
  }

  ghost predicate AckOk(g: Group, h: Ghosts, n: NodeId, t: nat)
    requires (n, t) in h.acks
  {
    n in g.nodes && n in g.members && t in h.termLog && h.acks[(n, t)] <= |h.termLog[t]| && t <= g.nodes[n].currentTerm
  }

  /** Leader Completeness: what may still be committed in `t` is in the log of every later leader. */
  ghost predicate Complete(g: Group, h: Ghosts) {
    forall t: nat, u: nat, len: nat :: t < u && u in h.termLog && Live(g, h, t, len) ==> h.termLog[t][..len] <= h.termLog[u]
  }

  ghost predicate LocalOk(nd: NodeState) {
    && -1 <= nd.lastApplied <= nd.commitIndex < |nd.log|
    && nd.data == Fold(nd.log[..nd.lastApplied + 1])
    && Synced(nd)
  }

  ghost predicate VoteOk(h: Ghosts, n: NodeId, term: nat, votedFor: NodeId) {
    && (votedFor == NO_VOTE <==> (n, term) !in h.ballots)
    && (votedFor != NO_VOTE ==> VotedIn(h, n, term, votedFor))
  }

  /** Every vote found in a node's file is its ballot of that term. */
  ghost predicate VoteRecordsOk(h: Ghosts, n: NodeId, wal: seq<Record>) {
    forall i :: 0 <= i < |wal| && wal[i].StateRecord? && wal[i].votedFor != NO_VOTE ==> VotedIn(h, n, wal[i].term, wal[i].votedFor)
  }

  /** Acknowledgements of earlier terms are kept while live, those of the current term always. */
  ghost predicate StoredOk(g: Group, h: Ghosts, n: NodeId, term: nat, log: seq<Entry>) {
    && Keeps(g, h, n, term, log)
    && ((n, term) in h.acks ==>
          && term in h.termLog && h.acks[(n, term)] <= |h.termLog[term]|
          && h.termLog[term][..h.acks[(n, term)]] <= log)
  }

  ghost predicate CandidateOk(h: Ghosts, n: NodeId, term: nat, log: seq<Entry>) {
    && VotedIn(h, n, term, n)
    && h.ballots[(n, term)].log == log
    && !(term in h.leaderOf && h.leaderOf[term] == n)
  }

  ghost predicate LeaderOk(h: Ghosts, n: NodeId, term: nat, log: seq<Entry>) {
    && term in h.leaderOf && h.leaderOf[term] == n
    && term in h.termLog && log == h.termLog[term]
    && Acked(h, n, term) == |log|
  }

  ghost predicate MatchOk(h: Ghosts, term: nat, peers: set<NodeId>, matchIndex: map<NodeId, int>) {
    && matchIndex.Keys == peers
    && (forall p :: p in matchIndex ==> -1 <= matchIndex[p] && matchIndex[p] + 1 <= Acked(h, p, term))
  }

  ghost predicate NextOk(peers: set<NodeId>, length: nat, nextIndex: map<NodeId, int>) {
    && nextIndex.Keys == peers
    && (forall p :: p in nextIndex ==> 0 <= nextIndex[p] <= length)
  }

  ghost predicate RoleOk(g: Group, h: Ghosts, n: NodeId, nd: NodeState) {
    match nd.role
    case Follower => nd.matchIndex.Keys <= Peers(g, n) && nd.nextIndex.Keys <= Peers(g, n)
    case Candidate =>
      && nd.matchIndex.Keys <= Peers(g, n) && nd.nextIndex.Keys <= Peers(g, n)
      && CandidateOk(h, n, nd.currentTerm, nd.log)
    case Leader =>
      && LeaderOk(h, n, nd.currentTerm, nd.log)
      && MatchOk(h, nd.currentTerm, Peers(g, n), nd.matchIndex)
      && NextOk(Peers(g, n), |nd.log|, nd.nextIndex)
  }

  ghost predicate NodeOk(g: Group, h: Ghosts, n: NodeId, nd: NodeState) {
    && LocalOk(nd)
    && LogOk(h, nd.log) && Bounded(nd.log, nd.currentTerm)
    && VoteOk(h, n, nd.currentTerm, nd.votedFor) && VoteRecordsOk(h, n, nd.wal)
    && StoredOk(g, h, n, nd.currentTerm, nd.log)
    && Committed(g, h, nd.log[..nd.commitIndex + 1], nd.currentTerm)
    && RoleOk(g, h, n, nd)
  }

  // ---------- messages ----------

  ghost predicate VoteRequestOk(h: Ghosts, req: VoteRequest) {
    && VotedIn(h, req.candidateId, req.term, req.candidateId)
    && var c := h.ballots[(req.candidateId, req.term)].log; req.lastLogIndex == LastIndex(c) && req.lastLogTerm == LastTerm(c)
  }

  ghost predicate VoteReplyOk(h: Ghosts, reply: VoteReply) {
    && reply.from != reply.request.candidateId
    && (reply.response.voteGranted ==> VotedIn(h, reply.from, reply.request.term, reply.request.candidateId))
  }

  ghost predicate TallyOk(h: Ghosts, n: NodeId, t: nat, tally: set<NodeId>) {
    && VotedIn(h, n, t, n)
    && n !in tally
    && (forall p :: p in tally ==> VotedIn(h, p, t, n))
  }

  ghost predicate RoundOk(g: Group, h: Ghosts, leader: NodeId, r: Round) {
    && r.term in h.termLog && r.term in h.leaderOf && h.leaderOf[r.term] == leader
    && r.peer in g.members && r.peer != leader
    && 0 <= r.next <= |h.termLog[r.term]|
    && -1 <= r.commitIndex < |h.termLog[r.term]|
    && Committed(g, h, h.termLog[r.term][..r.commitIndex + 1], r.term)
  }

  /** The sender's whole log when it built `req`. */
  function SentLog(h: Ghosts, req: AppendRequest): seq<Entry> {
    var length := req.prevLogIndex + 1 + |req.entries|;
    if req.term in h.termLog && 0 <= length <= |h.termLog[req.term]| then h.termLog[req.term][..length] else []
  }

  /** A request carries a whole suffix of the log its sender had, and announces only what is committed in it. */
  ghost predicate AppendOk(g: Group, h: Ghosts, req: AppendRequest) {
    && req.term in h.termLog && req.term in h.leaderOf && h.leaderOf[req.term] == req.leaderId
    && 0 <= req.prevLogIndex + 1 <= |h.termLog[req.term]| - |req.entries|
    && Carries(req, SentLog(h, req))
    && req.leaderCommit >= -1
    && Committed(g, h, h.termLog[req.term][..req.leaderCommit + 1], req.term)
  }

  ghost predicate AppendReplyOk(g: Group, h: Ghosts, reply: AppendReply) {
    && AppendOk(g, h, reply.request)
    && reply.from in g.members && reply.from != reply.request.leaderId
    && (reply.response.success ==> Acked(h, reply.from, reply.request.term) >= reply.request.prevLogIndex + 1 + |reply.request.entries|)
  }

  ghost predicate Past(g: Group, h: Ghosts) {
    && (forall t :: t in h.termLog ==> TermOk(g, h, t))
    && (forall n, t :: (n, t) in h.ballots ==> BallotOk(g, h, n, t))
    && (forall n, t :: (n, t) in h.acks ==> AckOk(g, h, n, t))
    && Complete(g, h)
  }

  ghost predicate GroupInv(g: Group, h: Ghosts) {
    && Shape(g, h)
    && Past(g, h)
    && (forall n :: n in g.members ==> NodeOk(g, h, n, g.nodes[n]))
  }

  ghost predicate VotesInv(net: Net, h: Ghosts) {
    && (forall req :: req in net.voteRequests ==> VoteRequestOk(h, req))
    && (forall reply :: reply in net.voteReplies ==> VoteReplyOk(h, reply))
    && (forall n, t :: (n, t) in net.tallies ==> TallyOk(h, n, t, net.tallies[(n, t)]))
  }

  ghost predicate AppendsInv(g: Group, net: Net, h: Ghosts) {
    && (forall r :: r in net.rounds ==> RoundOk(g, h, r.leader, r.round))
    && (forall m :: m in net.appends ==> AppendOk(g, h, m.request) && m.to in g.members && m.to != m.request.leaderId)
    && (forall reply :: reply in net.appendReplies ==> AppendReplyOk(g, h, reply))
  }

  ghost predicate Inv(s: State, h: Ghosts) {
    GroupInv(s.group, h) && VotesInv(s.net, h) && AppendsInv(s.group, s.net, h)
  }

  // ---------- how the history follows the system ----------

  function Acknowledge(h: Ghosts, n: NodeId, t: nat, len: nat): Ghosts {
    if len <= Acked(h, n, t) then h else h.(acks := h.acks[(n, t) := len])
  }

  function Elect(h: Ghosts, n: NodeId, nd: NodeState, voters: set<NodeId>): Ghosts {
    h.(leaderOf := h.leaderOf[nd.currentTerm := n],
       voters := h.voters[nd.currentTerm := voters],
       termLog := h.termLog[nd.currentTerm := nd.log],
       acks := h.acks[(n, nd.currentTerm) := |nd.log|])
  }

  function Extend(h: Ghosts, n: NodeId, t: nat, log: seq<Entry>): Ghosts {
    h.(termLog := h.termLog[t := log], acks := h.acks[(n, t) := |log|])
  }

  function CastVote(h: Ghosts, n: NodeId, t: nat, b: Ballot): Ghosts {
    if (n, t) in h.ballots then h else h.(ballots := h.ballots[(n, t) := b])
  }

  function After(s: State, h: Ghosts, a: Action): Ghosts
    requires Enabled(s, a)
  {
    var nd := s.group.nodes[a.node];
    var now := NodeAfter(s, a);
    match a
    case Timeout(n) =>
      if nd.role == Leader then h else CastVote(h, n, now.currentTerm, Ballot(n, nd.log))
    case ReceiveVoteRequest(n, req) =>
      if HandleRequestVote(nd, req).1.voteGranted then CastVote(h, n, req.term, Ballot(req.candidateId, nd.log)) else h
    case TryPromote(n, term) =>
      if nd.role != Leader && now.role == Leader then Elect(h, n, nd, s.net.tallies[(n, term)] + {n}) else h
    case Write(n, operation, key, value) =>
      if nd.role == Leader then Extend(h, n, nd.currentTerm, now.log) else h
    case ReceiveAppend(n, req) =>
      if HandleAppendEntries(nd, req).1.success
      then Acknowledge(h, n, req.term, req.prevLogIndex + 1 + |req.entries|) else h
    case _ => h
  }

  /** A crash that leaves a handler's records incomplete leaves the history as it was. */
  function AfterEvent(s: State, h: Ghosts, e: Event): Ghosts
    requires CanHappen(s, e)
  {
    if e.Crash? && e.cut < |NodeAfter(s, e.action).wal| then h else After(s, h, e.action)
  }

  const NO_HISTORY: Ghosts := Ghosts(map[], map[], map[], map[], map[])
}
