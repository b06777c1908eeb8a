/** The theorems are not empty: a run of a two-node cluster that elects a leader, commits a write and survives a crash. */
module Example {
  import opened Storage
  import Kv
  import opened Replica
  import opened Cluster
  import opened Theorems
  import opened History
  import opened Availability

  const A: NodeId := "a"
  const B: NodeId := "b"

  const WRITE: Entry := Entry(0, 1, OP_SET, "k", "v")
  const VOTE: VoteRequest := VoteRequest(1, A, -1, 0)
  const GRANTED: VoteReply := VoteReply(B, VOTE, VoteResponse(1, true))
  const ROUND: Round := Round(B, 0, 1, -1)
  const SHIP: AppendRequest := AppendRequest(1, A, -1, 0, [WRITE], -1)
  const STORED: AppendReply := AppendReply(B, SHIP, AppendResponse(1, true, 0))

  const IDLE: NodeState := NodeState(Follower, 0, NO_VOTE, [], -1, -1, map[], map[], map[], [])
  const CANDIDATE: NodeState := IDLE.(role := Candidate, currentTerm := 1, votedFor := A, wal := [StateRecord(1, A)])
  const VOTER: NodeState := IDLE.(currentTerm := 1, votedFor := A, wal := [StateRecord(1, NO_VOTE), StateRecord(1, A)])
  const ELECTED: NodeState := CANDIDATE.(role := Leader, nextIndex := map[B := 0], matchIndex := map[B := -1])
  const WRITER: NodeState := ELECTED.(log := [WRITE], wal := [StateRecord(1, A), EntryRecord(WRITE)])
  const HOLDER: NodeState := VOTER.(log := [WRITE], wal := [StateRecord(1, NO_VOTE), StateRecord(1, A), EntryRecord(WRITE)])
  const COMMITTER: NodeState := WRITER.(commitIndex := 0, nextIndex := map[B := 1], matchIndex := map[B := 0],
                                        wal := [StateRecord(1, A), EntryRecord(WRITE), CommitRecord(0)])

  ghost predicate Nodes(s: State, a: NodeState, b: NodeState) {
    s.group.members == {A, B} && s.group.nodes == map[A := a, B := b]
  }

  ghost function Start(): State {
    State(Group({A, B}, map[A := IDLE, B := IDLE]), Net({}, {}, map[], {}, {}, {}))
  }

  lemma StartIsInit()
    ensures Init(Start())
  {
    assert Recover([]) == IDLE;
    assert Start().group.nodes == (map n | n in Start().group.members :: Recover([]));
  }

  lemma Campaign(s: State)
    requires s == Start()
    ensures CanHappen(s, Do(Timeout(A)))
    ensures var t := Step(s, Do(Timeout(A))); (Nodes(t, CANDIDATE, IDLE) && VOTE in t.net.voteRequests && (A, 1) in t.net.tallies && t.net.tallies[(A, 1)] == {})
  {
    assert Recover([]) == IDLE && A != B;
    assert IDLE.wal + [StateRecord(1, A)] == [StateRecord(1, A)];
    assert StartElection(A, IDLE) == (CANDIDATE, Some(VOTE));
  }

  lemma Voting(s: State)
    requires Nodes(s, CANDIDATE, IDLE) && VOTE in s.net.voteRequests && (A, 1) in s.net.tallies && s.net.tallies[(A, 1)] == {}
    ensures CanHappen(s, Do(ReceiveVoteRequest(B, VOTE)))
    ensures var t := Step(s, Do(ReceiveVoteRequest(B, VOTE))); (Nodes(t, CANDIDATE, VOTER) && GRANTED in t.net.voteReplies && (A, 1) in t.net.tallies && t.net.tallies[(A, 1)] == {})
  {
    var now := StepDown(IDLE, 1);
    assert now.wal == [StateRecord(1, NO_VOTE)] && now.wal + [StateRecord(1, A)] == VOTER.wal;
    assert now.votedFor == NO_VOTE && UpToDate(-1, 0, now.log);
    assert HandleRequestVote(IDLE, VOTE) == (VOTER, VoteResponse(1, true));
  }

  lemma Counting(s: State)
    requires Nodes(s, CANDIDATE, VOTER) && GRANTED in s.net.voteReplies && (A, 1) in s.net.tallies && s.net.tallies[(A, 1)] == {}
    ensures CanHappen(s, Do(ReceiveVoteReply(A, GRANTED)))
    ensures var t := Step(s, Do(ReceiveVoteReply(A, GRANTED))); (Nodes(t, CANDIDATE, VOTER) && (A, 1) in t.net.tallies && t.net.tallies[(A, 1)] == {B})
  {
    assert HandleVoteReply(CANDIDATE, 1, VoteResponse(1, true)) == (CANDIDATE, true);
  }

  lemma OnePeer(s: State, a: NodeState, b: NodeState)
    requires Nodes(s, a, b)
    ensures Peers(s.group, A) == {B}
  {
    assert A != B;
  }

  lemma Promotion(s: State)
    requires Nodes(s, CANDIDATE, VOTER) && (A, 1) in s.net.tallies && s.net.tallies[(A, 1)] == {B}
    ensures CanHappen(s, Do(TryPromote(A, 1))) && Nodes(Step(s, Do(TryPromote(A, 1))), ELECTED, VOTER)
  {
    OnePeer(s, CANDIDATE, VOTER);
    assert Filled(map[], {B}, 0) == map[B := 0] && Filled(map[], {B}, -1) == map[B := -1];
    assert CheckVotes(CANDIDATE, {B}, 1, 2) == ELECTED;
  }

  lemma StartingRound(s: State)
    requires Nodes(s, ELECTED, VOTER)
    ensures CanHappen(s, Do(StartRound(A)))
    ensures var t := Step(s, Do(StartRound(A))); (Nodes(t, ELECTED, VOTER) && LeaderRound(A, ROUND) in t.net.rounds)
  {
    OnePeer(s, ELECTED, VOTER);
    assert ROUND in Snapshot(ELECTED, {B});
  }

  lemma Writing(s: State)
    requires Nodes(s, ELECTED, VOTER) && LeaderRound(A, ROUND) in s.net.rounds
    ensures CanHappen(s, Do(Write(A, OP_SET, "k", "v")))
    ensures var t := Step(s, Do(Write(A, OP_SET, "k", "v"))); (Nodes(t, WRITER, VOTER) && LeaderRound(A, ROUND) in t.net.rounds)
  {
    assert ClientWrite(ELECTED, OP_SET, "k", "v") == WRITER;
  }

  lemma Shipping(s: State)
    requires Nodes(s, WRITER, VOTER) && LeaderRound(A, ROUND) in s.net.rounds
    ensures CanHappen(s, Do(SendAppend(A, ROUND)))
    ensures var t := Step(s, Do(SendAppend(A, ROUND))); (Nodes(t, WRITER, VOTER) && AppendMessage(B, SHIP) in t.net.appends)
  {
    assert WRITER.log[0..] == [WRITE];
    assert BuildAppend(A, WRITER, ROUND) == Some(SHIP);
  }

  lemma Storing(s: State)
    requires Nodes(s, WRITER, VOTER) && AppendMessage(B, SHIP) in s.net.appends
    ensures CanHappen(s, Do(ReceiveAppend(B, SHIP)))
    ensures var t := Step(s, Do(ReceiveAppend(B, SHIP))); (Nodes(t, WRITER, HOLDER) && STORED in t.net.appendReplies)
  {
    assert Appended(VOTER, WRITE) == HOLDER;
    assert [WRITE][1..] == [];
    assert Merged(VOTER, 0, [WRITE]) == Merged(HOLDER, 1, []) == HOLDER;
    assert Checked(VOTER, SHIP) == HOLDER;
    assert HandleAppendEntries(VOTER, SHIP) == (HOLDER, AppendResponse(1, true, 0));
  }

  lemma Committing(s: State)
    requires Nodes(s, WRITER, HOLDER) && STORED in s.net.appendReplies
    ensures CanHappen(s, Do(ReceiveAppendReply(A, STORED))) && Nodes(Step(s, Do(ReceiveAppendReply(A, STORED))), COMMITTER, HOLDER)
  {
    OnePeer(s, WRITER, HOLDER);
    var mid := WRITER.(matchIndex := map[B := 0], nextIndex := map[B := 1]);
    assert Matching(mid.matchIndex, 0) == {B};
    assert Committable(mid, {B}, 0);
    assert AdvanceCommit(mid, {B}) == COMMITTER;
    assert HandleAppendReply(WRITER, {B}, B, SHIP, STORED.response) == COMMITTER;
  }

  /** After the write is committed the leader dies; it comes back with the write applied. */
  lemma Crashing(s: State)
    requires Nodes(s, COMMITTER, HOLDER)
    ensures CanHappen(s, Crash(ApplyEntries(A), 3))
    ensures var t := Step(s, Crash(ApplyEntries(A), 3)); (A in t.group.nodes && t.group.nodes[A].data == map["k" := "v"] && t.group.nodes[A].commitIndex == 0)
  {
    var wal := COMMITTER.wal;
    Replayed();
    assert ApplyCommitted(COMMITTER).wal == wal by { Applied(); }
    assert wal[..3] == wal;
  }

  lemma Applied()
    ensures ApplyCommitted(COMMITTER).wal == COMMITTER.wal
  {
    var once := COMMITTER.(lastApplied := 0, data := map["k" := "v"]);
    assert ApplyCommitted(COMMITTER) == ApplyCommitted(once) == once;
  }

  lemma Replayed()
    ensures Recover(COMMITTER.wal).data == map["k" := "v"] && Recover(COMMITTER.wal).commitIndex == 0
  {
    var w := COMMITTER.wal;
    ReplayAppend([], w[0]);
    ReplayAppend([w[0]], w[1]);
    ReplayAppend([w[0], w[1]], w[2]);
    assert w == [w[0], w[1]] + [w[2]] && [w[0], w[1]] == [w[0]] + [w[1]] && [w[0]] == [] + [w[0]];
    assert Replay(w) == Durable(1, A, [WRITE], 0);
    assert [WRITE][..0] == [] && [WRITE][..1] == [WRITE];
    Kv.FoldStep([WRITE], 0);
    assert Kv.Fold([WRITE]) == map["k" := "v"];
  }

  /**
   Node a is elected, writes, replicates, commits and restarts. In state 9 the write is answered, and no node has applied
   it yet: a read there misses it, so reads are not linearizable.
   */
  lemma CommittingRun() returns (states: seq<State>, events: seq<Event>)
    ensures IsRun(states, events) && |states| == 11
    ensures Here(states, 9, A) && NodeAt(states, 9, A).role == Leader && NodeAt(states, 9, A).commitIndex == 0
    ensures Here(states, 9, B) && NodeAt(states, 9, B).log == NodeAt(states, 9, A).log == [WRITE]
    ensures PollWrite(NodeAt(states, 9, A), 1, 0) == Answered && NodeAt(states, 9, A).data == NodeAt(states, 9, B).data == map[]
    ensures Here(states, 10, A) && NodeAt(states, 10, A).data == map["k" := "v"]
  {
    hide CanHappen, Step, Nodes, Init;
    events := [Do(Timeout(A)), Do(ReceiveVoteRequest(B, VOTE)), Do(ReceiveVoteReply(A, GRANTED)), Do(TryPromote(A, 1)),
               Do(StartRound(A)), Do(Write(A, OP_SET, "k", "v")), Do(SendAppend(A, ROUND)), Do(ReceiveAppend(B, SHIP)),
               Do(ReceiveAppendReply(A, STORED)), Crash(ApplyEntries(A), 3)];
    var s0 := Start();
    StartIsInit();
    Campaign(s0);
    var s1 := Step(s0, events[0]);
    Voting(s1);
    var s2 := Step(s1, events[1]);
    Counting(s2);
    var s3 := Step(s2, events[2]);
    Promotion(s3);
    var s4 := Step(s3, events[3]);
    StartingRound(s4);
    var s5 := Step(s4, events[4]);
    Writing(s5);
    var s6 := Step(s5, events[5]);
    Shipping(s6);
    var s7 := Step(s6, events[6]);
    Storing(s7);
    var s8 := Step(s7, events[7]);
    Committing(s8);
    var s9 := Step(s8, events[8]);
    Crashing(s9);
    var s10 := Step(s9, events[9]);
    states := [s0, s1, s2, s3, s4, s5, s6, s7, s8, s9, s10];
    NodesAre(s9, COMMITTER, HOLDER);
  }

  lemma NodesAre(s: State, a: NodeState, b: NodeState)
    requires Nodes(s, a, b)
    ensures A in s.group.nodes && B in s.group.nodes && s.group.nodes[A] == a && s.group.nodes[B] == b
  {
    assert A != B;
  }

  /** Three nodes of which one never does anything: the other two elect, commit and apply. */
  lemma TwoOfThree() returns (run: Run, leader: NodeId, term: nat, index: nat)
    ensures Valid(run) && Now(run).group.members == {A, B, "c"} && leader in {A, B}
    ensures forall k :: 0 <= k < |run.events| ==> run.events[k].Do? && run.events[k].action.node in {A, B}
    ensures A in run.states[|run.events|].group.nodes && B in run.states[|run.events|].group.nodes
    ensures forall n :: n in {A, B} ==> HasApplied(NodeAt(run.states, |run.events|, n), index, Entry(index, term, OP_SET, "k", "v"))
    ensures NodeAt(run.states, |run.events|, leader).role == Leader && NodeAt(run.states, |run.events|, leader).currentTerm == term
  {
    var members := {A, B, "c"};
    var start := Run([State(Group(members, map n | n in members :: Recover([])), Net({}, {}, map[], {}, {}, {}))], []);
    assert A != B && A != "c" && B != "c";
    assert |members| == 3 && |{A, B}| == 2;
    assert Init(start.states[0]);
    assert Majority({A, B}, members);
    run, leader, term, index := MajorityServes(start, {A, B}, OP_SET, "k", "v");
  }
}
