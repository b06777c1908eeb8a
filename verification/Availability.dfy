/**
 The protocol never gets stuck. From every reachable state, any majority, the other nodes being silent for ever, can
 elect a leader, accept a write, commit it and apply it.
 */
module Availability {
  import opened Storage
  import opened Replica
  import opened LogMerge
  import opened Cluster
  import opened History
  import opened Growth
  import opened Theorems
  import opened Messages
  import opened Backtracking
  import opened Answers

  datatype Run = Run(states: seq<State>, events: seq<Event>)

  ghost predicate Valid(r: Run) { IsRun(r.states, r.events) }

  ghost function Now(r: Run): State
    requires Valid(r)
    ensures |r.states| == |r.events| + 1
  {
    r.states[|r.events|]
  }

  ghost function Nodes(r: Run): map<NodeId, NodeState>
    requires Valid(r)
  {
    Now(r).group.nodes
  }

  /** `longer` goes on from `r` with completed steps of nodes in `q` only. */
  ghost predicate Grew(r: Run, longer: Run, q: set<NodeId>) {
    && Valid(r) && Valid(longer) && r.states <= longer.states && r.events <= longer.events
    && Now(longer).group.members == Now(r).group.members
    && forall k :: |r.events| <= k < |longer.events| ==> longer.events[k].Do? && longer.events[k].action.node in q
  }

  lemma GrewTrans(a: Run, b: Run, c: Run, q: set<NodeId>)
    requires Grew(a, b, q) && Grew(b, c, q)
    ensures Grew(a, c, q)
  {
  }

  lemma GrewRefl(r: Run, q: set<NodeId>)
    requires Valid(r)
    ensures Grew(r, r, q)
  {
  }

  lemma Known(r: Run)
    requires Valid(r)
    ensures Nodes(r).Keys == Now(r).group.members
  {
    hide IsRun, GroupInv, VotesInv, AppendsInv;
    var now := Now(r);
    RunInv(r.states, r.events, |r.events|);
    CompleteOf(now, HistoryAt(r.states, r.events, |r.events|));
  }

  /** One more step. */
  lemma Act(r: Run, q: set<NodeId>, a: Action) returns (longer: Run)
    requires Valid(r) && Enabled(Now(r), a) && a.node in q
    ensures Grew(r, longer, q) && Happens(longer.states, longer.events, |r.events|, a)
    ensures longer.states[|r.events|] == Now(r) && longer.states[|r.events| + 1] == Now(longer)
    ensures Now(longer) == Step(Now(r), Do(a)) && |longer.events| == |r.events| + 1
    ensures Nodes(longer) == Nodes(r)[a.node := NodeAfter(Now(r), a)]
  {
    hide NodeAfter, NetAfter, Enabled, Init;
    longer := Run(r.states + [Step(Now(r), Do(a))], r.events + [Do(a)]);
  }

  lemma NetKept(s: State, a: Action)
    requires Enabled(s, a)
    ensures s.net.voteRequests <= NetAfter(s, a).voteRequests && s.net.rounds <= NetAfter(s, a).rounds
    ensures a.ReceiveVoteRequest? ==> NetAfter(s, a).tallies == s.net.tallies
  {
    hide HandleAppendEntries, HandleRequestVote, Snapshot, BuildAppend;
  }

  ghost predicate SameLogs(r: Run, longer: Run)
    requires Valid(r) && Valid(longer)
  {
    && Nodes(longer).Keys == Nodes(r).Keys
    && forall n :: n in Nodes(r) ==> Nodes(longer)[n].log == Nodes(r)[n].log && Nodes(longer)[n].commitIndex == Nodes(r)[n].commitIndex
  }

  // ---------- elections ----------

  /** Timeouts take a node that does not lead to a candidacy in any later term. */
  lemma {:induction false} Campaign(r: Run, q: set<NodeId>, c: NodeId, t: nat) returns (longer: Run)
    requires Valid(r) && c in q && c in Nodes(r) && Nodes(r)[c].role != Leader && Nodes(r)[c].currentTerm < t
    ensures Grew(r, longer, q) && c in Nodes(longer)
    ensures var x, y := Nodes(r)[c], Nodes(longer)[c];
      && y == x.(role := Candidate, currentTerm := t, votedFor := c, wal := y.wal)
      && Nodes(longer) == Nodes(r)[c := y]
      && Ask(t, c, x.log) in Now(longer).net.voteRequests
      && (c, t) in Now(longer).net.tallies && Now(longer).net.tallies[(c, t)] == {}
    decreases t - Nodes(r)[c].currentTerm
  {
    hide IsRun, NodeAfter, NetAfter, Step;
    Known(r);
    longer := Act(r, q, Timeout(c));
    CampaignStarts(longer.states, longer.events, |r.events|, c);
    if Nodes(r)[c].currentTerm + 1 < t {
      var next := longer;
      longer := Campaign(next, q, c, t);
      GrewTrans(r, next, longer, q);
    }
  }

  /** The last entry of `a` is not behind that of `b`. */
  predicate Ahead(a: seq<Entry>, b: seq<Entry>) {
    b == [] || (a != [] && (a[|a| - 1].term > b[|b| - 1].term || (a[|a| - 1].term == b[|b| - 1].term && |a| >= |b|)))
  }

  lemma {:induction false} FindBest(nodes: map<NodeId, NodeState>, q: set<NodeId>) returns (c: NodeId)
    requires q != {} && q <= nodes.Keys
    ensures c in q && forall p :: p in q ==> Ahead(nodes[c].log, nodes[p].log)
    decreases |q|
  {
    var first :| first in q;
    c := first;
    if q != {first} {
      var best := FindBest(nodes, q - {first});
      if !Ahead(nodes[first].log, nodes[best].log) {
        c := best;
      }
    }
  }

  /** A vote request reaches `p`: it is in the candidate's term then, and does not lead. */
  lemma AskOne(r: Run, q: set<NodeId>, p: NodeId, req: VoteRequest) returns (longer: Run)
    requires Valid(r) && p in q && p in Nodes(r) && req in Now(r).net.voteRequests && req.candidateId != p
    requires Nodes(r)[p].currentTerm < req.term
    ensures Grew(r, longer, q) && SameLogs(r, longer) && p in Nodes(longer)
    ensures Nodes(longer) == Nodes(r)[p := Nodes(longer)[p]]
    ensures Nodes(longer)[p].role == Follower && Nodes(longer)[p].currentTerm == req.term
    ensures req in Now(longer).net.voteRequests && Now(longer).net.tallies == Now(r).net.tallies
    ensures VoteReply(p, req, VoteResponse(req.term, Grants(Nodes(r)[p], req))) in Now(longer).net.voteReplies
  {
    hide IsRun, HandleRequestVote, Grants;
    Known(r);
    VoteGivenExactly(r.states, r.events, |r.events|, p, req);
    longer := Act(r, q, ReceiveVoteRequest(p, req));
    NetKept(Now(r), ReceiveVoteRequest(p, req));
  }

  /** The candidate `c` of term `t` has the votes of `q` except for `rest`, which will grant theirs. */
  ghost predicate Polling(r: Run, q: set<NodeId>, c: NodeId, t: nat, rest: set<NodeId>)
    requires Valid(r)
  {
    && q <= Nodes(r).Keys && c in q && rest <= q - {c}
    && Nodes(r)[c].role == Candidate && Nodes(r)[c].currentTerm == t
    && Ask(t, c, Nodes(r)[c].log) in Now(r).net.voteRequests
    && (c, t) in Now(r).net.tallies && Now(r).net.tallies[(c, t)] == q - {c} - rest
    && (forall p :: p in q ==> Nodes(r)[p].currentTerm <= t)
    && (forall p :: p in rest ==> Nodes(r)[p].currentTerm < t && Ahead(Nodes(r)[c].log, Nodes(r)[p].log))
  }

  lemma AheadIsGranted(nd: NodeState, t: nat, c: NodeId, log: seq<Entry>)
    requires nd.currentTerm < t && Ahead(log, nd.log)
    ensures Grants(nd, Ask(t, c, log))
  {
  }

  /** One more vote, asked for, granted and counted. */
  lemma CollectOne(r: Run, q: set<NodeId>, c: NodeId, t: nat, rest: set<NodeId>, p: NodeId) returns (longer: Run)
    requires Valid(r) && Polling(r, q, c, t, rest) && p in rest
    ensures Grew(r, longer, q) && SameLogs(r, longer) && Polling(longer, q, c, t, rest - {p})
  {
    hide IsRun, Grants, Ahead, Step, NodeAfter, NetAfter;
    var req := Ask(t, c, Nodes(r)[c].log);
    AheadIsGranted(Nodes(r)[p], t, c, Nodes(r)[c].log);
    var asked := AskOne(r, q, p, req);
    var reply := VoteReply(p, req, VoteResponse(t, true));
    Known(asked);
    longer := Act(asked, q, ReceiveVoteReply(c, reply));
    VoteReplyTaken(longer.states, longer.events, |asked.events|, c, reply);
    RequestsKept(Now(asked), ReceiveVoteReply(c, reply));
    GrewTrans(r, asked, longer, q);
    assert q - {c} - rest + {p} == q - {c} - (rest - {p});
  }

  lemma RequestsKept(s: State, a: Action)
    requires Enabled(s, a)
    ensures s.net.voteRequests <= Step(s, Do(a)).net.voteRequests
  {
    NetKept(s, a);
  }

  lemma {:induction false} Collect(r: Run, q: set<NodeId>, c: NodeId, t: nat, rest: set<NodeId>) returns (longer: Run)
    requires Valid(r) && Polling(r, q, c, t, rest)
    ensures Grew(r, longer, q) && SameLogs(r, longer) && Polling(longer, q, c, t, {})
    decreases |rest|
  {
    hide IsRun, Polling;
    longer := r;
    GrewRefl(r, q);
    if rest != {} {
      var p :| p in rest;
      var one := CollectOne(r, q, c, t, rest, p);
      longer := Collect(one, q, c, t, rest - {p});
      GrewTrans(r, one, longer, q);
    }
  }

  /** `c` leads term `t`, and nobody in `q` is in a later one. */
  ghost predicate InCharge(r: Run, q: set<NodeId>, c: NodeId, t: nat)
    requires Valid(r)
  {
    && q <= Nodes(r).Keys && c in q && Leads(Nodes(r)[c], t)
    && (forall p :: p in q ==> Nodes(r)[p].currentTerm <= t)
  }

  /** The candidacy with nobody asked yet. */
  lemma StartPolling(r: Run, q: set<NodeId>, c: NodeId, t: nat) returns (longer: Run)
    requires Valid(r) && c in q && q <= Nodes(r).Keys && Nodes(r)[c].role != Leader
    requires forall p :: p in q ==> Nodes(r)[p].currentTerm < t && Ahead(Nodes(r)[c].log, Nodes(r)[p].log)
    ensures Grew(r, longer, q) && SameLogs(r, longer) && Polling(longer, q, c, t, q - {c})
  {
    hide IsRun, Ahead, Grew;
    longer := Campaign(r, q, c, t);
    GrewMembers(r, longer, q);
    assert q - {c} - (q - {c}) == {};
  }

  /** All votes are in. */
  lemma FinishPolling(r: Run, q: set<NodeId>, c: NodeId, t: nat) returns (longer: Run)
    requires Valid(r) && Majority(q, Now(r).group.members) && Polling(r, q, c, t, {})
    ensures Grew(r, longer, q) && SameLogs(r, longer) && InCharge(longer, q, c, t)
  {
    hide IsRun, Ahead, Step, NodeAfter, NetAfter, Grew, Majority;
    Known(r);
    longer := Act(r, q, TryPromote(c, t));
    PromotedExactly(longer.states, longer.events, |r.events|, c, t);
    assert q - {c} - {} + {c} == q;
  }

  /** A majority's best log wins the election of any term newer than all of theirs. */
  lemma BestIsElected(r: Run, q: set<NodeId>, c: NodeId, t: nat) returns (longer: Run)
    requires Valid(r) && Majority(q, Now(r).group.members) && c in q && q <= Nodes(r).Keys
    requires forall p :: p in q ==> Nodes(r)[p].currentTerm < t && Ahead(Nodes(r)[c].log, Nodes(r)[p].log)
    requires Nodes(r)[c].role != Leader
    ensures Grew(r, longer, q) && SameLogs(r, longer) && InCharge(longer, q, c, t)
  {
    hide IsRun, Ahead, Polling, Majority, InCharge;
    var started := StartPolling(r, q, c, t);
    var polled := Collect(started, q, c, t, q - {c});
    GrewTrans(r, started, polled, q);
    longer := FinishPolling(polled, q, c, t);
    GrewTrans(r, polled, longer, q);
  }

  /** Vote requests of a later term depose all leaders in `rest`. */
  lemma {:induction false} Depose(r: Run, q: set<NodeId>, rest: set<NodeId>, req: VoteRequest) returns (longer: Run)
    requires Valid(r) && rest <= q <= Nodes(r).Keys && req in Now(r).net.voteRequests && req.candidateId !in rest
    requires forall p :: p in q && Nodes(r)[p].role == Leader ==> p in rest
    requires forall p :: p in q ==> Nodes(r)[p].currentTerm <= req.term
    requires forall p :: p in rest ==> Nodes(r)[p].currentTerm < req.term
    ensures Grew(r, longer, q) && SameLogs(r, longer) && q <= Nodes(longer).Keys
    ensures forall p :: p in q ==> Nodes(longer)[p].role != Leader && Nodes(longer)[p].currentTerm <= req.term
    decreases |rest|
  {
    hide IsRun, Grants;
    longer := r;
    GrewRefl(r, q);
    if rest != {} {
      var p :| p in rest;
      var one := AskOne(r, q, p, req);
      longer := Depose(one, q, rest - {p}, req);
      GrewTrans(r, one, longer, q);
    }
  }

  lemma {:induction false} TermAbove(nodes: map<NodeId, NodeState>, q: set<NodeId>) returns (t: nat)
    requires q <= nodes.Keys
    ensures forall p :: p in q ==> nodes[p].currentTerm < t
    decreases |q|
  {
    t := 0;
    if q != {} {
      var p :| p in q;
      var above := TermAbove(nodes, q - {p});
      t := Max(above, nodes[p].currentTerm + 1);
    }
  }

  /** One campaign makes every leader in `q` step down. */
  lemma Quiet(r: Run, q: set<NodeId>, starter: NodeId, t: nat) returns (longer: Run)
    requires Valid(r) && starter in q && q <= Nodes(r).Keys && Nodes(r)[starter].role != Leader
    requires forall p :: p in q ==> Nodes(r)[p].currentTerm < t
    ensures Grew(r, longer, q) && SameLogs(r, longer) && q <= Nodes(longer).Keys
    ensures forall p :: p in q ==> Nodes(longer)[p].role != Leader && Nodes(longer)[p].currentTerm <= t
  {
    hide IsRun, Grew;
    var started := Campaign(r, q, starter, t);
    GrewMembers(r, started, q);
    assert SameLogs(r, started);
    var leaders := set p | p in q && Nodes(started)[p].role == Leader;
    longer := Depose(started, q, leaders, Ask(t, starter, Nodes(r)[starter].log));
    GrewTrans(r, started, longer, q);
  }

  /** From every reachable state, any majority that does not consist of leaders only can elect a leader on its own. */
  lemma MajorityElects(r: Run, q: set<NodeId>, starter: NodeId) returns (longer: Run, c: NodeId, t: nat)
    requires Valid(r) && Majority(q, Now(r).group.members) && starter in q
    requires starter in Nodes(r) && Nodes(r)[starter].role != Leader
    ensures Grew(r, longer, q) && SameLogs(r, longer) && InCharge(longer, q, c, t)
    ensures forall p :: p in q && p in Nodes(r) ==> Nodes(r)[p].currentTerm < t
  {
    hide IsRun, Ahead, InCharge, Grew;
    Known(r);
    var above := TermAbove(Nodes(r), q);
    var quiet := Quiet(r, q, starter, above);
    GrewMembers(r, quiet, q);
    c := FindBest(Nodes(quiet), q);
    t := above + 1;
    longer := BestIsElected(quiet, q, c, t);
    GrewTrans(r, quiet, longer, q);
  }

  lemma GrewMembers(r: Run, longer: Run, q: set<NodeId>)
    requires Grew(r, longer, q)
    ensures Valid(longer) && Now(longer).group.members == Now(r).group.members
  {
  }

  // ---------- replication ----------

  /** A round and a request to `p` from it. */
  lemma Sending(r: Run, q: set<NodeId>, c: NodeId, p: NodeId) returns (longer: Run)
    requires Valid(r) && c in q && c in Nodes(r) && p in Nodes(r) && p != c && Nodes(r)[c].role == Leader
    ensures p in Nodes(r)[c].nextIndex && 0 <= Nodes(r)[c].nextIndex[p] <= |Nodes(r)[c].log|
    ensures Grew(r, longer, q) && Nodes(longer) == Nodes(r)
    ensures AppendMessage(p, Request(c, p, Nodes(r)[c])) in Now(longer).net.appends
  {
    hide IsRun, NodeOk, Past, Shape;
    Known(r);
    var l := Nodes(r)[c];
    var h := Facts(r.states, r.events, |r.events|, c);
    NextKnown(Now(r).group, h, c, l, p);
    var round := Round(p, l.nextIndex[p], l.currentTerm, l.commitIndex);
    var started := Act(r, q, StartRound(c));
    RoundCoversPeers(started.states, started.events, |r.events|, c, p);
    assert Nodes(started) == Nodes(r);
    longer := Act(started, q, SendAppend(c, round));
    GrewTrans(r, started, longer, q);
  }

  /** One exchange as four steps of the cluster. */
  lemma Perform(r: Run, q: set<NodeId>, c: NodeId, p: NodeId) returns (longer: Run)
    requires Valid(r) && c in q && p in q && c in Nodes(r) && p in Nodes(r) && p != c && Nodes(r)[c].role == Leader
    ensures p in Nodes(r)[c].nextIndex && 0 <= Nodes(r)[c].nextIndex[p]
    ensures Grew(r, longer, q)
    ensures var (l, f, ok) := Exchange(c, Peers(Now(r).group, c), p, Nodes(r)[c], Nodes(r)[p]);
      Nodes(longer) == Nodes(r)[p := f][c := l]
  {
    hide IsRun, HandleAppendEntries, HandleAppendReply, Request;
    var sent := Sending(r, q, c, p);
    var req := Request(c, p, Nodes(r)[c]);
    Known(r);
    var handled := Act(sent, q, ReceiveAppend(p, req));
    var reply := AppendReply(p, req, HandleAppendEntries(Nodes(r)[p], req).1);
    RequestIsBy(c, p, Nodes(r)[c]);
    longer := Act(handled, q, ReceiveAppendReply(c, reply));
    GrewTrans(r, sent, handled, q);
    GrewTrans(r, handled, longer, q);
  }

  lemma RequestIsBy(c: NodeId, p: NodeId, l: NodeState)
    requires l.role == Leader && p in l.nextIndex && 0 <= l.nextIndex[p]
    ensures Request(c, p, l).leaderId == c
  {
  }

  /** What a successful exchange has done to both. */
  ghost predicate Stocked(peers: set<NodeId>, p: NodeId, l: NodeState, l': NodeState, f': NodeState) {
    && l.log <= f'.log && f'.currentTerm == l.currentTerm && f'.role == Follower
    && l' == l.(matchIndex := l.matchIndex[p := |l.log| - 1], nextIndex := l.nextIndex[p := |l.log|],
                commitIndex := l'.commitIndex, wal := l'.wal)
    && Furthest(l'.(commitIndex := l.commitIndex), peers, l.commitIndex, l'.commitIndex)
  }

  lemma ExchangeShips(id: NodeId, peers: set<NodeId>, p: NodeId, l: NodeState, f: NodeState)
    requires Pair(p, l, f) && l.nextIndex[p] < |l.log|
    ensures var (l', f', ok) := Exchange(id, peers, p, l, f);
      && f'.currentTerm == l.currentTerm
      && (ok ==> Stocked(peers, p, l, l', f'))
      && (!ok ==> l.nextIndex[p] >= 1 && l' == l.(nextIndex := l.nextIndex[p := l.nextIndex[p] - 1]))
  {
    hide HandleAppendEntries, Furthest, CommitTarget, Match, Synced;
    var req := Request(id, p, l);
    var resp := HandleAppendEntries(f, req).1;
    AppendAnswer(f, req);
    if resp.success {
      Succeeded(id, peers, p, l, f);
      TakenFurthest(l, peers, AppendReply(p, req, resp));
    } else {
      Failed(id, peers, p, l, f);
    }
  }

  lemma PairNow(r: Run, c: NodeId, p: NodeId)
    requires Valid(r) && c in Nodes(r) && p in Nodes(r) && p != c && Nodes(r)[c].role == Leader
    requires Nodes(r)[p].currentTerm <= Nodes(r)[c].currentTerm
    ensures Pair(p, Nodes(r)[c], Nodes(r)[p]) && p in Nodes(r)[c].matchIndex
  {
    hide IsRun, NodeOk, Past, Shape, Pair;
    Known(r);
    var h := Facts(r.states, r.events, |r.events|, c);
    NextKnown(Now(r).group, h, c, Nodes(r)[c], p);
    BacktrackingTerminates(r.states, r.events, |r.events|, c, p);
  }

  /** Exchanges with one peer until it has the leader's log. */
  lemma {:induction false} Stock(r: Run, q: set<NodeId>, c: NodeId, p: NodeId) returns (longer: Run)
    requires Valid(r) && c in q && p in q && c in Nodes(r) && p in Nodes(r) && p != c && Nodes(r)[c].role == Leader
    requires Nodes(r)[p].currentTerm <= Nodes(r)[c].currentTerm
    requires p in Nodes(r)[c].nextIndex && 0 <= Nodes(r)[c].nextIndex[p] < |Nodes(r)[c].log|
    ensures Grew(r, longer, q) && c in Nodes(longer) && p in Nodes(longer)
    ensures Nodes(longer) == Nodes(r)[p := Nodes(longer)[p]][c := Nodes(longer)[c]]
    ensures Stocked(Peers(Now(r).group, c), p, Nodes(r)[c], Nodes(longer)[c], Nodes(longer)[p])
    decreases Nodes(r)[c].nextIndex[p]
  {
    hide IsRun, Exchange, Pair, Furthest;
    PairNow(r, c, p);
    var peers := Peers(Now(r).group, c);
    var l := Nodes(r)[c];
    ExchangeShips(c, peers, p, l, Nodes(r)[p]);
    longer := Perform(r, q, c, p);
    if !Exchange(c, peers, p, l, Nodes(r)[p]).2 {
      var next := longer;
      longer := Stock(next, q, c, p);
      GrewTrans(r, next, longer, q);
      StockedBack(peers, p, l, l.nextIndex[p] - 1, Nodes(longer)[c], Nodes(longer)[p]);
    }
  }

  lemma StockedBack(peers: set<NodeId>, p: NodeId, l: NodeState, next: int, l': NodeState, f': NodeState)
    requires Stocked(peers, p, l.(nextIndex := l.nextIndex[p := next]), l', f')
    ensures Stocked(peers, p, l, l', f')
  {
    assert l.nextIndex[p := next][p := |l.log|] == l.nextIndex[p := |l.log|];
  }

  /** All of `done` have the leader's whole log and the leader knows it; the others will be sent the last entry. */
  ghost predicate Replicating(r: Run, q: set<NodeId>, c: NodeId, t: nat, log: seq<Entry>, done: set<NodeId>)
    requires Valid(r)
  {
    && InCharge(r, q, c, t) && done <= q - {c} && Nodes(r)[c].log == log && log != [] && log[|log| - 1].term == t
    && (forall p :: p in q && p != c ==> p in Nodes(r)[c].nextIndex && p in Nodes(r)[c].matchIndex)
    && (forall p :: p in done ==>
          && log <= Nodes(r)[p].log && Nodes(r)[p].currentTerm == t
          && Nodes(r)[c].nextIndex[p] == |log| && Nodes(r)[c].matchIndex[p] == |log| - 1)
    && (forall p :: p in q - {c} - done ==> 0 <= Nodes(r)[c].nextIndex[p] < |log|)
    && (Majority(done + {c}, Now(r).group.members) ==> Nodes(r)[c].commitIndex >= |log| - 1)
  }

  lemma MajorityIsCommittable(nd: NodeState, members: set<NodeId>, c: NodeId, done: set<NodeId>, index: nat)
    requires c in members && c !in done && Majority(done + {c}, members) && index < |nd.log| && nd.log[index].term == nd.currentTerm
    requires forall p :: p in done ==> p in nd.matchIndex && nd.matchIndex[p] >= index
    ensures Committable(nd, members - {c}, index)
  {
    SubsetSize(done, Matching(nd.matchIndex, index));
    assert |done + {c}| == |done| + 1;
    assert |members| == |members - {c}| + 1 by { assert members == (members - {c}) + {c}; }
  }

  lemma FurthestReaches(nd: NodeState, peers: set<NodeId>, was: int, now: int, index: nat)
    requires Furthest(nd, peers, was, now) && index < |nd.log| && Committable(nd, peers, index)
    ensures now >= index
  {
  }

  lemma CommitReached(members: set<NodeId>, c: NodeId, done: set<NodeId>, p: NodeId, l: NodeState, l': NodeState, f': NodeState)
    requires Stocked(members - {c}, p, l, l', f') && c in members && c !in done && p != c && Majority(done + {p} + {c}, members)
    requires l.log != [] && l.log[|l.log| - 1].term == l.currentTerm
    requires forall d :: d in done ==> d in l.matchIndex && l.matchIndex[d] == |l.log| - 1
    ensures l'.commitIndex >= |l.log| - 1
  {
    hide Furthest, Committable, Majority;
    var was := l'.(commitIndex := l.commitIndex);
    MajorityIsCommittable(was, members, c, done + {p}, |l.log| - 1);
    FurthestReaches(was, members - {c}, l.commitIndex, l'.commitIndex, |l.log| - 1);
  }

  lemma ReplicateOne(r: Run, q: set<NodeId>, c: NodeId, t: nat, log: seq<Entry>, done: set<NodeId>, p: NodeId) returns (longer: Run)
    requires Valid(r) && Replicating(r, q, c, t, log, done) && p in q - {c} - done
    ensures Grew(r, longer, q) && Replicating(longer, q, c, t, log, done + {p})
  {
    hide IsRun, Grew, Furthest, Majority;
    longer := Stock(r, q, c, p);
    GrewMembers(r, longer, q);
    Known(r);
    var members := Now(r).group.members;
    if Majority(done + {p} + {c}, members) {
      CommitReached(members, c, done, p, Nodes(r)[c], Nodes(longer)[c], Nodes(longer)[p]);
    }
  }

  lemma {:induction false} ReplicateAll(r: Run, q: set<NodeId>, c: NodeId, t: nat, log: seq<Entry>, done: set<NodeId>) returns (longer: Run)
    requires Valid(r) && Replicating(r, q, c, t, log, done)
    ensures Grew(r, longer, q) && Replicating(longer, q, c, t, log, q - {c})
    decreases |q - {c} - done|
  {
    hide IsRun, Replicating;
    longer := r;
    GrewRefl(r, q);
    var rest := q - {c} - done;
    if rest == {} {
      DoneIsAll(r, q, c, t, log, done);
    } else {
      var p :| p in rest;
      var one := ReplicateOne(r, q, c, t, log, done, p);
      assert q - {c} - (done + {p}) == rest - {p};
      longer := ReplicateAll(one, q, c, t, log, done + {p});
      GrewTrans(r, one, longer, q);
    }
  }

  lemma DoneIsAll(r: Run, q: set<NodeId>, c: NodeId, t: nat, log: seq<Entry>, done: set<NodeId>)
    requires Valid(r) && Replicating(r, q, c, t, log, done) && q - {c} - done == {}
    ensures Replicating(r, q, c, t, log, q - {c})
  {
    assert done == q - {c};
  }

  /** A leader with a majority of no later term behind it takes a write and commits it. */
  lemma WriteCommits(r: Run, q: set<NodeId>, c: NodeId, t: nat, operation: string, key: string, value: string) returns (longer: Run)
    requires Valid(r) && InCharge(r, q, c, t) && Majority(q, Now(r).group.members) && |Now(r).group.members| > 1
    ensures Grew(r, longer, q)
    ensures var log := Nodes(r)[c].log;
      && Replicating(longer, q, c, t, log + [Entry(|log|, t, operation, key, value)], q - {c})
      && Nodes(longer)[c].commitIndex >= |log|
  {
    hide IsRun, Replicating;
    Known(r);
    var log := Nodes(r)[c].log;
    var written := Written(r, q, c, t, operation, key, value);
    longer := ReplicateAll(written, q, c, t, log + [Entry(|log|, t, operation, key, value)], {});
    GrewTrans(r, written, longer, q);
    AllCommitted(longer, q, c, t, log + [Entry(|log|, t, operation, key, value)]);
  }

  lemma AllCommitted(r: Run, q: set<NodeId>, c: NodeId, t: nat, log: seq<Entry>)
    requires Valid(r) && Replicating(r, q, c, t, log, q - {c}) && Majority(q, Now(r).group.members)
    ensures c in Nodes(r) && Nodes(r)[c].commitIndex >= |log| - 1
  {
    assert q - {c} + {c} == q;
  }

  lemma Written(r: Run, q: set<NodeId>, c: NodeId, t: nat, operation: string, key: string, value: string) returns (longer: Run)
    requires Valid(r) && InCharge(r, q, c, t) && |Now(r).group.members| > 1
    ensures Grew(r, longer, q)
    ensures var log := Nodes(r)[c].log; Replicating(longer, q, c, t, log + [Entry(|log|, t, operation, key, value)], {})
  {
    hide IsRun, NodeOk, Past, Shape, NetAfter;
    Known(r);
    var l := Nodes(r)[c];
    var h := Facts(r.states, r.events, |r.events|, c);
    forall p | p in q && p != c ensures p in l.nextIndex && p in l.matchIndex && 0 <= l.nextIndex[p] <= |l.log| {
      NextKnown(Now(r).group, h, c, l, p);
    }
    longer := Act(r, q, Write(c, operation, key, value));
    assert {} + {c} == {c};
  }

  lemma {:induction false} FindNewest(nodes: map<NodeId, NodeState>, q: set<NodeId>) returns (c: NodeId)
    requires q != {} && q <= nodes.Keys
    ensures c in q && forall p :: p in q ==> nodes[p].currentTerm <= nodes[c].currentTerm
    decreases |q|
  {
    var first :| first in q;
    c := first;
    if q != {first} {
      var newest := FindNewest(nodes, q - {first});
      if nodes[first].currentTerm < nodes[newest].currentTerm {
        c := newest;
      }
    }
  }

  /** Somebody in `q` who does not lead: if all do, the one of the newest term makes another one follow. */
  lemma FindFollower(r: Run, q: set<NodeId>) returns (longer: Run, starter: NodeId)
    requires Valid(r) && q <= Nodes(r).Keys && |q| > 1
    ensures Grew(r, longer, q) && starter in q && starter in Nodes(longer) && Nodes(longer)[starter].role != Leader
  {
    hide IsRun, Grew, HandleAppendEntries, HandleAppendReply;
    longer := r;
    GrewRefl(r, q);
    if p :| p in q && Nodes(r)[p].role != Leader {
      starter := p;
    } else {
      var c := FindNewest(Nodes(r), q);
      assert |q - {c}| == |q| - 1;
      starter :| starter in q - {c};
      longer := Perform(r, q, c, starter);
      GrewMembers(r, longer, q);
      AppendAnswer(Nodes(r)[starter], Request(c, starter, Nodes(r)[c]));
    }
  }

  // ---------- application ----------

  /** The node has applied everything up to `index`, where it holds `e`. */
  ghost predicate HasApplied(nd: NodeState, index: nat, e: Entry) {
    nd.lastApplied >= index && index < |nd.log| && nd.log[index] == e
  }

  lemma ApplyOne(r: Run, q: set<NodeId>, p: NodeId) returns (longer: Run)
    requires Valid(r) && p in q && p in Nodes(r)
    ensures Grew(r, longer, q) && p in Nodes(longer) && Nodes(longer) == Nodes(r)[p := Nodes(longer)[p]]
    ensures Nodes(longer)[p] == Nodes(r)[p].(lastApplied := Nodes(r)[p].commitIndex, data := Nodes(longer)[p].data)
  {
    hide IsRun, ApplyCommitted;
    Known(r);
    longer := Act(r, q, ApplyEntries(p));
    AppliedExactly(longer.states, longer.events, |r.events|, p);
  }

  /** A peer that has the leader's log learns the commit index with the next, empty, exchange. */
  lemma HeartbeatCommits(id: NodeId, peers: set<NodeId>, p: NodeId, l: NodeState, f: NodeState)
    requires Pair(p, l, f) && l.nextIndex[p] == |l.log| && l.log <= f.log && l.log != [] && 0 <= l.commitIndex
    ensures var (l', f', ok) := Exchange(id, peers, p, l, f);
      l' == l && f'.log == f.log && f'.commitIndex >= l.commitIndex && f'.currentTerm == l.currentTerm
  {
    hide Match, Synced, AdvanceCommit, Truncated;
    var req := Request(id, p, l);
    assert req.entries == [] && req.prevLogIndex == |l.log| - 1 && l.log[|l.log| - 1] == f.log[|l.log| - 1];
    assert !CheckFails(f.log, req);
    var now := Yield(f, req.term);
    assert Stored(now, req) == now;
  }

  /** `done` have applied the entry at the end of `log`. */
  ghost predicate Serving(r: Run, q: set<NodeId>, c: NodeId, t: nat, log: seq<Entry>, done: set<NodeId>)
    requires Valid(r)
  {
    && Replicating(r, q, c, t, log, q - {c}) && Nodes(r)[c].commitIndex >= |log| - 1
    && (forall p :: p in done ==> p in Nodes(r) && HasApplied(Nodes(r)[p], |log| - 1, log[|log| - 1]))
  }

  lemma ServeOne(r: Run, q: set<NodeId>, c: NodeId, t: nat, log: seq<Entry>, done: set<NodeId>, p: NodeId) returns (longer: Run)
    requires Valid(r) && Serving(r, q, c, t, log, done) && done <= q - {c} && p in q - {c}
    ensures Grew(r, longer, q) && Serving(longer, q, c, t, log, done + {p})
  {
    hide IsRun, Exchange, Pair;
    PairNow(r, c, p);
    HeartbeatIn(r, c, p);
    var told := Perform(r, q, c, p);
    longer := ApplyOne(told, q, p);
    GrewTrans(r, told, longer, q);
  }

  lemma HeartbeatIn(r: Run, c: NodeId, p: NodeId)
    requires Valid(r) && c in Nodes(r) && p in Nodes(r) && Pair(p, Nodes(r)[c], Nodes(r)[p])
    requires var l := Nodes(r)[c]; l.nextIndex[p] == |l.log| && l.log <= Nodes(r)[p].log && l.log != [] && 0 <= l.commitIndex
    ensures p in Nodes(r)[c].nextIndex && 0 <= Nodes(r)[c].nextIndex[p] && Nodes(r)[c].role == Leader
    ensures var (l', f', ok) := Exchange(c, Peers(Now(r).group, c), p, Nodes(r)[c], Nodes(r)[p]);
      l' == Nodes(r)[c] && f'.log == Nodes(r)[p].log && f'.commitIndex >= l'.commitIndex && f'.currentTerm == l'.currentTerm
  {
    hide IsRun, Exchange;
    HeartbeatCommits(c, Peers(Now(r).group, c), p, Nodes(r)[c], Nodes(r)[p]);
  }

  lemma {:induction false} ServeAll(r: Run, q: set<NodeId>, c: NodeId, t: nat, log: seq<Entry>, done: set<NodeId>) returns (longer: Run)
    requires Valid(r) && Serving(r, q, c, t, log, done) && done <= q - {c}
    ensures Grew(r, longer, q) && Serving(longer, q, c, t, log, q - {c})
    decreases |q - {c} - done|
  {
    hide IsRun, Serving;
    longer := r;
    GrewRefl(r, q);
    var rest := q - {c} - done;
    if rest == {} {
      assert done == q - {c};
    } else {
      var p :| p in rest;
      var one := ServeOne(r, q, c, t, log, done, p);
      assert q - {c} - (done + {p}) == rest - {p};
      longer := ServeAll(one, q, c, t, log, done + {p});
      GrewTrans(r, one, longer, q);
    }
  }

  lemma ServeSelf(r: Run, q: set<NodeId>, c: NodeId, t: nat, log: seq<Entry>) returns (longer: Run)
    requires Valid(r) && Serving(r, q, c, t, log, q - {c})
    ensures Grew(r, longer, q) && c in Nodes(longer) && q <= Nodes(longer).Keys
    ensures Leads(Nodes(longer)[c], t) && Nodes(longer)[c].commitIndex >= |log| - 1
    ensures log != [] && forall p :: p in q ==> HasApplied(Nodes(longer)[p], |log| - 1, log[|log| - 1])
  {
    hide IsRun;
    longer := ApplyOne(r, q, c);
  }

  /**
   From every reachable state, any majority of a cluster of two or more can, with everybody else silent, elect one of its
   own, answer a write with success and have it applied on each of its nodes.
   */
  lemma MajorityServes(r: Run, q: set<NodeId>, operation: string, key: string, value: string)
    returns (longer: Run, c: NodeId, t: nat, index: nat)
    requires Valid(r) && Majority(q, Now(r).group.members) && |Now(r).group.members| > 1
    ensures Grew(r, longer, q) && c in q && q <= Nodes(longer).Keys
    ensures PollWrite(Nodes(longer)[c], t, index) == Answered
    ensures forall p :: p in q ==> HasApplied(Nodes(longer)[p], index, Entry(index, t, operation, key, value))
  {
    hide IsRun, Replicating, HasApplied, Grew;
    Known(r);
    var ready, starter := FindFollower(r, q);
    GrewMembers(r, ready, q);
    var elected;
    elected, c, t := MajorityElects(ready, q, starter);
    GrewTrans(r, ready, elected, q);
    GrewMembers(r, elected, q);
    index := |Nodes(elected)[c].log|;
    var log := Nodes(elected)[c].log + [Entry(index, t, operation, key, value)];
    var committed := WriteCommits(elected, q, c, t, operation, key, value);
    GrewTrans(r, elected, committed, q);
    GrewMembers(r, committed, q);
    var told := ServeAll(committed, q, c, t, log, {});
    GrewTrans(r, committed, told, q);
    GrewMembers(r, told, q);
    longer := ServeSelf(told, q, c, t, log);
    GrewTrans(r, told, longer, q);
  }
}
