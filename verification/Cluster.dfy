/**
 The whole system: every node, every message ever sent, and the steps between them.
 Each action is one critical section of internal/raft (everything between a lock and its unlock).
 Messages stay in their sets for ever, so delivery may be late, repeated, out of order or never.
 */
module Cluster {
  import opened Storage
  import opened Replica

  // A reply is kept together with the request it answers: one connection carries both.
  datatype VoteReply = VoteReply(from: NodeId, request: VoteRequest, response: VoteResponse)
  datatype AppendMessage = AppendMessage(to: NodeId, request: AppendRequest)
  datatype AppendReply = AppendReply(from: NodeId, request: AppendRequest, response: AppendResponse)
  datatype LeaderRound = LeaderRound(leader: NodeId, round: Round)

  datatype Group = Group(members: set<NodeId>, nodes: map<NodeId, NodeState>)

  /** Messages, and what the goroutines of running elections and replication rounds hold. */
  datatype Net = Net(
    voteRequests: set<VoteRequest>,
    voteReplies: set<VoteReply>,
    // (candidate, term) -> the peers whose vote the election has counted, besides its own
    tallies: map<(NodeId, nat), set<NodeId>>,
    rounds: set<LeaderRound>,
    appends: set<AppendMessage>,
    appendReplies: set<AppendReply>)

  datatype State = State(group: Group, net: Net)

  datatype Action =
    | Timeout(node: NodeId)
    | ReceiveVoteRequest(node: NodeId, voteRequest: VoteRequest)
    | ReceiveVoteReply(node: NodeId, voteReply: VoteReply)
    | TryPromote(node: NodeId, term: nat)
    | Write(node: NodeId, operation: string, key: string, value: string)
    | StartRound(node: NodeId)
    | SendAppend(node: NodeId, round: Round)
    | ReceiveAppend(node: NodeId, append: AppendRequest)
    | ReceiveAppendReply(node: NodeId, appendReply: AppendReply)
    | ApplyEntries(node: NodeId)

  /** An action runs to its end, or the node dies after `cut` records of its file and restarts from them. */
  datatype Event = Do(action: Action) | Crash(action: Action, cut: nat)

  function Peers(g: Group, n: NodeId): set<NodeId> { g.members - {n} }

  ghost predicate Init(s: State) {
    && NO_VOTE !in s.group.members
    && s.group.nodes == (map n | n in s.group.members :: Recover([]))
    && s.net == Net({}, {}, map[], {}, {}, {})
  }

  ghost predicate Enabled(s: State, a: Action) {
    && a.node in s.group.members && a.node in s.group.nodes
    && match a
       case ReceiveVoteRequest(n, req) => req in s.net.voteRequests && req.candidateId != n
       case ReceiveVoteReply(n, reply) =>
         reply in s.net.voteReplies && reply.request.candidateId == n && (n, reply.request.term) in s.net.tallies
       case TryPromote(n, term) => (n, term) in s.net.tallies
       case SendAppend(n, round) => LeaderRound(n, round) in s.net.rounds
       case ReceiveAppend(n, req) => AppendMessage(n, req) in s.net.appends && req.prevLogIndex >= -1
       case ReceiveAppendReply(n, reply) => reply in s.net.appendReplies && reply.request.leaderId == n
       case _ => true
  }

  /** The acting node after the action. */
  function NodeAfter(s: State, a: Action): NodeState
    requires Enabled(s, a)
  {
    var nd := s.group.nodes[a.node];
    match a
    case Timeout(n) => StartElection(n, nd).0
    case ReceiveVoteRequest(n, req) => HandleRequestVote(nd, req).0
    case ReceiveVoteReply(n, reply) => HandleVoteReply(nd, reply.request.term, reply.response).0
    case TryPromote(n, term) => CheckVotes(nd, Peers(s.group, n), term, 1 + |s.net.tallies[(n, term)]|)
    case Write(n, operation, key, value) => ClientWrite(nd, operation, key, value)
    case StartRound(n) => nd
    case SendAppend(n, round) => nd
    case ReceiveAppend(n, req) => HandleAppendEntries(nd, req).0
    case ReceiveAppendReply(n, reply) => HandleAppendReply(nd, Peers(s.group, n), reply.from, reply.request, reply.response)
    case ApplyEntries(n) => ApplyCommitted(nd)
  }

  /** The messages and goroutine states after the action. */
  function NetAfter(s: State, a: Action): Net
    requires Enabled(s, a)
  {
    var nd := s.group.nodes[a.node];
    var net := s.net;
    match a
    case Timeout(n) =>
      var request := StartElection(n, nd).1;
      if request.None? then net
      else net.(voteRequests := net.voteRequests + {request.value}, tallies := net.tallies[(n, request.value.term) := {}])
    case ReceiveVoteRequest(n, req) =>
      net.(voteReplies := net.voteReplies + {VoteReply(n, req, HandleRequestVote(nd, req).1)})
    case ReceiveVoteReply(n, reply) =>
      var key := (n, reply.request.term);
      if HandleVoteReply(nd, reply.request.term, reply.response).1
      then net.(tallies := net.tallies[key := net.tallies[key] + {reply.from}])
      else net
    case StartRound(n) =>
      net.(rounds := net.rounds + set r | r in Snapshot(nd, Peers(s.group, n)) :: LeaderRound(n, r))
    case SendAppend(n, round) =>
      var request := BuildAppend(n, nd, round);
      if request.None? then net else net.(appends := net.appends + {AppendMessage(round.peer, request.value)})
    case ReceiveAppend(n, req) =>
      net.(appendReplies := net.appendReplies + {AppendReply(n, req, HandleAppendEntries(nd, req).1)})
    case _ => net
  }

  function WithNode(g: Group, n: NodeId, nd: NodeState): Group { g.(nodes := g.nodes[n := nd]) }

  ghost predicate CanHappen(s: State, e: Event) {
    && Enabled(s, e.action)
    && (e.Crash? ==> |s.group.nodes[e.action.node].wal| <= e.cut <= |NodeAfter(s, e.action).wal|)
  }

  function Step(s: State, e: Event): State
    requires CanHappen(s, e)
  {
    match e
    case Do(a) => State(WithNode(s.group, a.node, NodeAfter(s, a)), NetAfter(s, a))
    case Crash(a, cut) => State(WithNode(s.group, a.node, Recover(NodeAfter(s, a).wal[..cut])), s.net)
  }

  ghost predicate IsRun(states: seq<State>, events: seq<Event>) {
    && |states| == |events| + 1
    && Init(states[0])
    && forall i :: 0 <= i < |events| ==> CanHappen(states[i], events[i]) && states[i + 1] == Step(states[i], events[i])
  }
}
