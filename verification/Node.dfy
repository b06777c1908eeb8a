/**
 The node as the program has it: an object whose critical sections update it in place.
 Every method is proved to take the node from `Model()` to what Replica.dfy says, loops included.
 */
module Node {
  import opened Storage
  import opened Kv
  import opened Replica

  lemma FilledNone(m: map<NodeId, int>, v: int)
    ensures Filled(m, {}, v) == m
  {
  }

  lemma FilledWith(m: map<NodeId, int>, keys: set<NodeId>, k: NodeId, v: int)
    ensures Filled(m, keys + {k}, v) == Filled(m, keys, v)[k := v]
  {
  }

  class Node {
    const id: NodeId
    const peers: set<NodeId>
    const store: Store

    var role: Role
    var currentTerm: nat
    var votedFor: NodeId
    var log: seq<Entry>
    var commitIndex: int
    var lastApplied: int
    var nextIndex: map<NodeId, int>
    var matchIndex: map<NodeId, int>
    // The records the write-ahead log holds; Wal.dfy gives them as bytes.
    var wal: seq<Record>

    ghost function Model(): NodeState
      reads this, store
    {
      NodeState(role, currentTerm, votedFor, log, commitIndex, lastApplied, nextIndex, matchIndex, store.data, wal)
    }

    // ---------- node.go ----------

    constructor (id: NodeId, peers: set<NodeId>, records: seq<Record>)
      ensures this.id == id && this.peers == peers && fresh(store)
      ensures Model() == Recover(records)
    {
      this.id := id;
      this.peers := peers;
      role := Follower;
      currentTerm := 0;
      votedFor := NO_VOTE;
      log := [];
      commitIndex := -1;
      lastApplied := -1;
      nextIndex := map[];
      matchIndex := map[];
      wal := records;
      store := new Store();
      new;
      RecoverState();
    }

    /** Folds the records into the fields, then re-applies what is committed. */
    method RecoverState()
      requires Model() == NodeState(Follower, 0, NO_VOTE, [], -1, -1, map[], map[], map[], wal)
      modifies this, store
      ensures Model() == Recover(old(wal))
    {
      var i := 0;
      while i < |wal|
        invariant 0 <= i <= |wal|
        invariant Durable(currentTerm, votedFor, log, commitIndex) == Replay(wal[..i])
        invariant Model() == NodeState(Follower, currentTerm, votedFor, log, commitIndex, -1, map[], map[], map[], old(wal))
        decreases |wal| - i
      {
        ReplayAppend(wal[..i], wal[i]);
        assert wal[..i + 1] == wal[..i] + [wal[i]];
        ReplayOne(wal[i]);
        i := i + 1;
      }
      assert wal[..|wal|] == wal;
      ReapplyCommitted();
    }

    method ReplayOne(r: Record)
      modifies this
      ensures Durable(currentTerm, votedFor, log, commitIndex)
           == ReplayRecord(old(Durable(currentTerm, votedFor, log, commitIndex)), r)
      ensures Model() == old(Model()).(currentTerm := currentTerm, votedFor := votedFor, log := log, commitIndex := commitIndex)
    {
      match r
      case StateRecord(t, v) =>
        currentTerm := t;
        votedFor := v;
      case EntryRecord(e) =>
        log := log + [e];
      case TruncateRecord(lastKept) =>
        var length := lastKept + 1;
        if 0 <= length < |log| {
          log := log[..length];
        } else if length <= 0 {
          log := [];
        }
      case CommitRecord(c) =>
        if c > commitIndex {
          commitIndex := c;
        }
    }

    method ReapplyCommitted()
      requires lastApplied == -1 && store.data == map[]
      modifies this, store
      ensures var applied := Min(commitIndex, |log| - 1);
        Model() == old(Model()).(lastApplied := if applied < -1 then -1 else applied,
                                 data := if applied < 0 then map[] else Fold(log[..applied + 1]))
    {
      var i := 0;
      while i <= commitIndex && i < |log|
        invariant 0 <= i <= |log| && (i > 0 ==> i <= commitIndex + 1)
        invariant Model() == old(Model()).(lastApplied := i - 1, data := Fold(log[..i]))
        decreases |log| - i
      {
        FoldStep(log, i);
        Apply(log[i]);
        lastApplied := i;
        i := i + 1;
      }
    }

    /** One entry into the key-value store. */
    method Apply(e: Entry)
      modifies store
      ensures store.data == ApplyEntry(old(store.data), e)
    {
      if e.operation == OP_SET {
        store.Set(e.key, e.value);
      } else if e.operation == OP_DELETE {
        store.Delete(e.key);
      }
    }

    // ---------- election.go ----------

    method StepDown(term: nat)
      modifies this
      ensures Model() == Replica.StepDown(old(Model()), term)
    {
      role := Follower;
      currentTerm := term;
      votedFor := NO_VOTE;
      wal := wal + [StateRecord(term, NO_VOTE)];
    }

    method StartElection() returns (request: Option<VoteRequest>)
      modifies this
      ensures (Model(), request) == Replica.StartElection(id, old(Model()))
    {
      if role == Leader {
        return None;
      }
      role := Candidate;
      currentTerm := currentTerm + 1;
      votedFor := id;
      var lastLogIndex, lastLogTerm := -1, 0;
      if |log| > 0 {
        lastLogIndex, lastLogTerm := log[|log| - 1].index, log[|log| - 1].term;
      }
      wal := wal + [StateRecord(currentTerm, votedFor)];
      request := Some(VoteRequest(currentTerm, id, lastLogIndex, lastLogTerm));
    }

    method HandleVoteReply(term: nat, resp: VoteResponse) returns (counted: bool)
      modifies this
      ensures (Model(), counted) == Replica.HandleVoteReply(old(Model()), term, resp)
    {
      if currentTerm != term || role != Candidate {
        return false;
      }
      if resp.term > currentTerm {
        StepDown(resp.term);
        return false;
      }
      counted := resp.voteGranted;
    }

    method BecomeLeader()
      modifies this
      ensures Model() == Replica.BecomeLeader(old(Model()), peers)
    {
      if role == Leader {
        return;
      }
      role := Leader;
      nextIndex, matchIndex := ResetProgress(|log|);
    }

    /** Next index at the end of the log and match index unknown, for every peer. */
    method ResetProgress(length: int) returns (next: map<NodeId, int>, matched: map<NodeId, int>)
      ensures next == Filled(nextIndex, peers, length)
      ensures matched == Filled(matchIndex, peers, -1)
    {
      hide Filled;
      next, matched := nextIndex, matchIndex;
      FilledNone(next, length);
      FilledNone(matched, -1);
      var rest := peers;
      ghost var done: set<NodeId> := {};
      while rest != {}
        invariant done + rest == peers
        invariant next == Filled(nextIndex, done, length)
        invariant matched == Filled(matchIndex, done, -1)
        decreases |rest|
      {
        var p :| p in rest;
        FilledWith(nextIndex, done, p, length);
        FilledWith(matchIndex, done, p, -1);
        next := next[p := length];
        matched := matched[p := -1];
        done := done + {p};
        rest := rest - {p};
      }
      assert done == peers;
    }

    /** The promotion test after a counted vote, and once more when all requests have returned. */
    method CheckVotes(term: nat, votes: int)
      modifies this
      ensures Model() == Replica.CheckVotes(old(Model()), peers, term, votes)
    {
      if votes > (|peers| + 1) / 2 {
        if role == Candidate && currentTerm == term {
          BecomeLeader();
        }
      }
    }

    // ---------- client.go ----------

    method ClientWrite(operation: string, key: string, value: string) returns (index: int, ok: bool)
      modifies this
      ensures Model() == Replica.ClientWrite(old(Model()), operation, key, value)
      ensures ok <==> old(role) == Leader
      ensures ok ==> index == |old(log)|
    {
      if role != Leader {
        return -1, false;
      }
      index := |log|;
      ok := true;
      var e := Entry(index, currentTerm, operation, key, value);
      log := log + [e];
      wal := wal + [EntryRecord(e)];
    }

    method PollWrite(term: nat, index: int) returns (answer: Poll)
      ensures answer == Replica.PollWrite(Model(), term, index)
    {
      if role != Leader || currentTerm != term {
        return LostLeadership;
      }
      if commitIndex >= index {
        return Answered;
      }
      answer := Waiting;
    }

    // ---------- replication.go, leader side ----------

    method SendHeartbeats() returns (rounds: set<Round>)
      ensures rounds == Snapshot(Model(), peers)
    {
      rounds := {};
      if role != Leader {
        return;
      }
      var rest := peers;
      while rest != {}
        invariant rest <= peers
        invariant rounds == set p | p in peers - rest :: Round(p, NextFor(Model(), p), currentTerm, commitIndex)
        decreases |rest|
      {
        var p :| p in rest;
        var next := if p in nextIndex then nextIndex[p] else 0;
        rounds := rounds + {Round(p, next, currentTerm, commitIndex)};
        assert peers - (rest - {p}) == (peers - rest) + {p};
        rest := rest - {p};
      }
    }

    method BuildAppend(round: Round) returns (request: Option<AppendRequest>)
      ensures request == Replica.BuildAppend(id, Model(), round)
    {
      if role != Leader || currentTerm != round.term {
        return None;
      }
      var prevLogIndex := round.next - 1;
      var prevLogTerm := 0;
      if 0 <= prevLogIndex < |log| {
        prevLogTerm := log[prevLogIndex].term;
      }
      var entries := [];
      if 0 <= round.next < |log| {
        entries := log[round.next..];
      }
      request := Some(AppendRequest(round.term, id, prevLogIndex, prevLogTerm, entries, round.commitIndex));
    }

    method HandleAppendReply(peer: NodeId, req: AppendRequest, resp: AppendResponse)
      requires -1 <= commitIndex
      modifies this
      ensures Model() == Replica.HandleAppendReply(old(Model()), peers, peer, req, resp)
    {
      if role != Leader || currentTerm != req.term {
        return;
      }
      if resp.term > currentTerm {
        StepDown(resp.term);
        return;
      }
      if resp.success {
        if |req.entries| > 0 {
          matchIndex := matchIndex[peer := req.prevLogIndex + |req.entries|];
          nextIndex := nextIndex[peer := matchIndex[peer] + 1];
          AdvanceCommitIndex();
        }
      } else {
        if req.prevLogIndex + 1 > 0 {
          nextIndex := nextIndex[peer := req.prevLogIndex];
        }
      }
    }

    /** Self, and every peer whose match index reaches `index`. */
    method CountMatching(index: int) returns (count: nat)
      ensures count == |Matching(matchIndex, index)| + 1
    {
      count := 1;
      var rest := matchIndex.Keys;
      ghost var seen: set<NodeId> := {};
      while rest != {}
        invariant rest <= matchIndex.Keys
        invariant seen == set p | p in matchIndex.Keys - rest && matchIndex[p] >= index
        invariant count == |seen| + 1
        decreases |rest|
      {
        var p :| p in rest;
        if matchIndex[p] >= index {
          count := count + 1;
          seen := seen + {p};
        }
        rest := rest - {p};
      }
      assert seen == Matching(matchIndex, index);
    }

    /**
     The downward scan: the commit index becomes the greatest current-term index above it that a strict majority holds,
     and stays as it is exactly when there is none.
     */
    method AdvanceCommitIndex()
      requires -1 <= commitIndex
      modifies this
      ensures Model() == AdvanceCommit(old(Model()), peers)
      ensures commitIndex == old(commitIndex) || (old(commitIndex) < commitIndex && Committable(old(Model()), peers, commitIndex))
      ensures forall i :: old(commitIndex) < i < |log| && Committable(old(Model()), peers, i) ==> i <= commitIndex
    {
      var n := |log| - 1;
      while n > commitIndex
        invariant -1 <= n < |log|
        invariant Model() == old(Model())
        invariant CommitTarget(Model(), peers, n + 1) == CommitTarget(Model(), peers, |log|)
        decreases n
      {
        if log[n].term == currentTerm {
          var count := CountMatching(n);
          if count > (|peers| + 1) / 2 {
            commitIndex := n;
            wal := wal + [CommitRecord(n)];
            return;
          }
        }
        n := n - 1;
      }
    }

    // ---------- replication.go, follower side ----------

    method Truncate(length: nat)
      requires length <= |log|
      modifies this
      ensures Model() == Truncated(old(Model()), length)
    {
      log := log[..length];
      wal := wal + [TruncateRecord(length - 1)];
    }

    method Append(e: Entry)
      modifies this
      ensures Model() == Appended(old(Model()), e)
    {
      log := log + [e];
      wal := wal + [EntryRecord(e)];
    }

    /** The nested loop: skip what is there, cut at the first conflict, append the rest. */
    method MergeEntries(first: nat, entries: seq<Entry>)
      modifies this
      ensures Model() == Merged(old(Model()), first, entries)
    {
      var i := 0;
      while i < |entries|
        invariant 0 <= i <= |entries|
        invariant Merged(Model(), first + i, entries[i..]) == Merged(old(Model()), first, entries)
      {
        var index := first + i;
        assert entries[i..][1..] == entries[i + 1..];
        if index < |log| {
          if log[index].term != entries[i].term {
            Truncate(index);
            var j := i;
            while j < |entries|
              invariant i <= j <= |entries|
              invariant AppendedAll(Model(), entries[j..]) == Merged(old(Model()), first, entries)
            {
              assert entries[j..][1..] == entries[j + 1..];
              Append(entries[j]);
              j := j + 1;
            }
            return;
          }
        } else {
          Append(entries[i]);
        }
        i := i + 1;
      }
    }

    /** Past the consistency check: drop a log whose head conflicts, then merge. */
    method StoreEntries(req: AppendRequest)
      requires req.prevLogIndex >= -1
      modifies this
      ensures Model() == Stored(old(Model()), req)
    {
      if req.prevLogIndex == -1 {
        if |req.entries| > 0 && |log| > 0 && log[0].term != req.entries[0].term {
          Truncate(0);
        }
      }
      MergeEntries(req.prevLogIndex + 1, req.entries);
    }

    method UpdateCommit(leaderCommit: int)
      modifies this
      ensures Model() == FollowerCommit(old(Model()), leaderCommit)
    {
      if leaderCommit > commitIndex {
        var lastLogIndex := |log| - 1;
        if leaderCommit < lastLogIndex {
          commitIndex := leaderCommit;
        } else {
          commitIndex := lastLogIndex;
        }
        wal := wal + [CommitRecord(commitIndex)];
      }
    }

    method HandleAppendEntries(req: AppendRequest) returns (resp: AppendResponse)
      requires req.prevLogIndex >= -1
      modifies this
      ensures (Model(), resp) == Replica.HandleAppendEntries(old(Model()), req)
    {
      if req.term < currentTerm {
        return AppendResponse(currentTerm, false, 0);
      }
      if req.term > currentTerm {
        StepDown(req.term);
      } else {
        role := Follower;
      }
      if req.prevLogIndex >= 0 {
        if req.prevLogIndex >= |log| || log[req.prevLogIndex].term != req.prevLogTerm {
          var length := req.prevLogIndex;
          if length > |log| {
            length := |log|;
          }
          Truncate(length);
          return AppendResponse(currentTerm, false, 0);
        }
      }
      StoreEntries(req);
      UpdateCommit(req.leaderCommit);
      resp := AppendResponse(currentTerm, true, |log| - 1);
    }

    method HandleRequestVote(req: VoteRequest) returns (resp: VoteResponse)
      modifies this
      ensures (Model(), resp) == Replica.HandleRequestVote(old(Model()), req)
    {
      if req.term < currentTerm {
        return VoteResponse(currentTerm, false);
      }
      if req.term > currentTerm {
        StepDown(req.term);
      }
      var canVote := votedFor == NO_VOTE || votedFor == req.candidateId;
      var lastLogIndex, lastLogTerm := -1, 0;
      if |log| > 0 {
        lastLogIndex, lastLogTerm := log[|log| - 1].index, log[|log| - 1].term;
      }
      var logUpToDate := false;
      if req.lastLogTerm > lastLogTerm {
        logUpToDate := true;
      } else if req.lastLogTerm == lastLogTerm && req.lastLogIndex >= lastLogIndex {
        logUpToDate := true;
      }
      if canVote && logUpToDate {
        votedFor := req.candidateId;
        wal := wal + [StateRecord(currentTerm, votedFor)];
        return VoteResponse(currentTerm, true);
      }
      resp := VoteResponse(currentTerm, false);
    }

    // ---------- apply.go, state.go ----------

    method ApplyCommittedEntries()
      requires -1 <= lastApplied
      modifies this, store
      ensures Model() == ApplyCommitted(old(Model()))
    {
      while lastApplied < commitIndex && lastApplied < |log| - 1
        invariant -1 <= lastApplied
        invariant ApplyCommitted(Model()) == ApplyCommitted(old(Model()))
        decreases |log| - lastApplied
      {
        lastApplied := lastApplied + 1;
        Apply(log[lastApplied]);
      }
    }

    method GetState(key: string) returns (value: string, found: bool)
      ensures found <==> key in Model().data
      ensures found ==> value == Model().data[key]
    {
      value, found := store.Get(key);
    }
  }
  /** One election: the counter its goroutines share, one goroutine for each peer (election.go). */
  class Election {
    const term: nat
    var votes: nat
    ghost var counted: set<NodeId>

    ghost predicate Valid()
      reads this
    {
      votes == 1 + |counted|
    }

    constructor (term: nat)
      ensures Valid() && this.term == term && counted == {}
    {
      this.term := term;
      votes := 1;
      counted := {};
    }

    /** The reply of one peer: discarded, a reason to step down, a refusal, or a vote that may win the election. */
    method HandleReply(node: Node, peer: NodeId, resp: VoteResponse)
      requires Valid() && peer !in counted
      modifies this, node
      ensures Valid()
      ensures var (now, granted) := Replica.HandleVoteReply(old(node.Model()), term, resp);
        && counted == old(counted) + (if granted then {peer} else {})
        && node.Model() == (if granted then Replica.CheckVotes(now, node.peers, term, 1 + |counted|) else now)
    {
      var granted := node.HandleVoteReply(term, resp);
      if granted {
        votes := votes + 1;
        counted := counted + {peer};
        node.CheckVotes(term, votes);
      }
    }

    /** When every goroutine has returned. */
    method Finish(node: Node)
      requires Valid()
      modifies node
      ensures node.Model() == Replica.CheckVotes(old(node.Model()), node.peers, term, 1 + |counted|)
    {
      node.CheckVotes(term, votes);
    }
  }
}
