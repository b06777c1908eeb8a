/** How histories grow, and which facts outlive the growth. */
module Growth {
  import opened Storage
  import opened Replica
  import opened LogMerge
  import opened Cluster
  import opened History

  ghost predicate NodesGrow(g: Group, g': Group) {
    && g'.members == g.members && g.nodes.Keys == g.members && g'.nodes.Keys == g.members
    && (forall n :: n in g.members ==> g.nodes[n].currentTerm <= g'.nodes[n].currentTerm && g.nodes[n].wal <= g'.nodes[n].wal)
  }

  ghost predicate RecordsGrow(h: Ghosts, h': Ghosts) {
    && (forall t :: t in h.termLog ==> t in h'.termLog && h.termLog[t] <= h'.termLog[t])
    && (forall t :: t in h.leaderOf ==> t in h'.leaderOf && h'.leaderOf[t] == h.leaderOf[t])
    && (forall t :: t in h.voters ==> t in h'.voters && h'.voters[t] == h.voters[t])
    && (forall k :: k in h.ballots ==> k in h'.ballots && h'.ballots[k] == h.ballots[k])
  }

  /** No node acknowledges a term it has left. */
  ghost predicate AcksGrow(g: Group, h: Ghosts, h': Ghosts)
    requires g.nodes.Keys == g.members
  {
    && (forall n, t :: Acked(h, n, t) <= Acked(h', n, t))
    && (forall n, t :: n in g.members && Acked(h, n, t) < Acked(h', n, t) ==> g.nodes[n].currentTerm <= t)
  }

  /** Terms, files, logs of leaders, votes and acknowledgements only grow. */
  ghost predicate Evolves(g: Group, h: Ghosts, g': Group, h': Ghosts) {
    NodesGrow(g, g') && RecordsGrow(h, h') && AcksGrow(g, h, h')
  }

  lemma EvolvesRefl(g: Group, h: Ghosts)
    requires Shape(g, h)
    ensures Evolves(g, h, g, h)
  {
  }

  lemma EvolvesTrans(g: Group, h: Ghosts, g': Group, h': Ghosts, g'': Group, h'': Ghosts)
    requires Evolves(g, h, g', h') && Evolves(g', h', g'', h'')
    ensures Evolves(g, h, g'', h'')
  {
    forall n, t ensures Acked(h, n, t) <= Acked(h'', n, t)
                ensures n in g.members && Acked(h, n, t) < Acked(h'', n, t) ==> g.nodes[n].currentTerm <= t {
      assert Acked(h, n, t) <= Acked(h', n, t) <= Acked(h'', n, t);
    }
  }

  // ---------- quorums ----------

  lemma SubsetSize<T>(a: set<T>, b: set<T>)
    requires a <= b
    ensures |a| <= |b|
  {
    assert |b| == |a| + |b - a| by { assert b == a + (b - a); }
  }

  lemma QuorumsMeet(a: set<NodeId>, b: set<NodeId>, members: set<NodeId>) returns (n: NodeId)
    requires Majority(a, members) && Majority(b, members)
    ensures n in a && n in b
  {
    if a * b == {} {
      SubsetSize(a + b, members);
      assert false;
    }
    n :| n in a * b;
  }

  // ---------- facts that outlive growth ----------

  lemma LogOkPrefix(h: Ghosts, log: seq<Entry>, shorter: seq<Entry>)
    requires LogOk(h, log) && shorter <= log
    ensures LogOk(h, shorter)
  {
    forall i | 0 <= i < |shorter|
      ensures shorter[i].index == i && shorter[i].term in h.termLog && shorter[..i + 1] <= h.termLog[shorter[i].term]
    {
      assert shorter[i] == log[i];
      assert shorter[..i + 1] == log[..i + 1];
    }
  }

  lemma LogOkGrows(g: Group, h: Ghosts, g': Group, h': Ghosts, log: seq<Entry>)
    requires Evolves(g, h, g', h') && LogOk(h, log)
    ensures LogOk(h', log)
  {
  }

  lemma LiveShrinks(g: Group, h: Ghosts, g': Group, h': Ghosts, t: nat, len: nat)
    requires Evolves(g, h, g', h') && Live(g', h', t, len)
    requires t in h.termLog && len <= |h.termLog[t]|
    ensures Live(g, h, t, len) && h'.termLog[t][..len] == h.termLog[t][..len]
  {
    assert Hopefuls(g', h', t, len) <= Hopefuls(g, h, t, len) by {
      forall n | n in Hopefuls(g', h', t, len) ensures n in Hopefuls(g, h, t, len) {
        assert Acked(h, n, t) <= Acked(h', n, t);
      }
    }
    SubsetSize(Hopefuls(g', h', t, len), Hopefuls(g, h, t, len));
  }

  lemma ChosenGrows(g: Group, h: Ghosts, g': Group, h': Ghosts, t: nat, len: nat)
    requires Evolves(g, h, g', h') && Chosen(g, h, t, len)
    ensures Chosen(g', h', t, len) && h'.termLog[t][..len] == h.termLog[t][..len]
  {
    assert Holders(g, h, t, len) <= Holders(g', h', t, len) by {
      forall n | n in Holders(g, h, t, len) ensures n in Holders(g', h', t, len) {
        assert Acked(h, n, t) <= Acked(h', n, t);
      }
    }
    SubsetSize(Holders(g, h, t, len), Holders(g', h', t, len));
  }

  lemma ChosenIsLive(g: Group, h: Ghosts, t: nat, len: nat)
    requires g.nodes.Keys == g.members && Chosen(g, h, t, len)
    ensures Live(g, h, t, len)
  {
    assert Holders(g, h, t, len) <= Hopefuls(g, h, t, len);
    SubsetSize(Holders(g, h, t, len), Hopefuls(g, h, t, len));
  }

  lemma CommittedGrows(g: Group, h: Ghosts, g': Group, h': Ghosts, log: seq<Entry>, term: nat, term': nat)
    requires Evolves(g, h, g', h') && Committed(g, h, log, term) && term <= term'
    ensures Committed(g', h', log, term')
  {
    if log != [] {
      var t: nat, len: nat :| t <= term && Chosen(g, h, t, len) && log <= h.termLog[t][..len];
      ChosenGrows(g, h, g', h', t, len);
    }
  }

  lemma KeepsGrows(g: Group, h: Ghosts, g': Group, h': Ghosts, n: NodeId, bound: nat, log: seq<Entry>)
    requires Evolves(g, h, g', h') && Past(g, h) && Keeps(g, h, n, bound, log)
    requires n in g.members && bound <= g.nodes[n].currentTerm
    ensures Keeps(g', h', n, bound, log)
  {
    forall t: nat, len: nat | t < bound && len <= Acked(h', n, t) && Live(g', h', t, len)
      ensures h'.termLog[t][..len] <= log
    {
      assert Acked(h', n, t) == Acked(h, n, t);
      assert (n, t) in h.acks && AckOk(g, h, n, t);
      LiveShrinks(g, h, g', h', t, len);
    }
  }

  /** Everything committed by term `u` is in the log of the leader of `u`. */
  lemma CommittedIn(g: Group, h: Ghosts, log: seq<Entry>, term: nat, u: nat)
    requires g.nodes.Keys == g.members && Complete(g, h) && Committed(g, h, log, term)
    requires term <= u && u in h.termLog
    ensures log <= h.termLog[u]
  {
    hide Hopefuls, Holders;
    if log != [] {
      var t: nat, len: nat :| t <= term && Chosen(g, h, t, len) && log <= h.termLog[t][..len];
      ChosenIsLive(g, h, t, len);
      if t < u {
        assert h.termLog[t][..len] <= h.termLog[u];
      }
    }
  }

  /** Two committed logs: one is a prefix of the other. */
  lemma CommittedComparable(g: Group, h: Ghosts, a: seq<Entry>, ta: nat, b: seq<Entry>, tb: nat)
    requires g.nodes.Keys == g.members && Complete(g, h) && Committed(g, h, a, ta) && Committed(g, h, b, tb)
    ensures a <= b || b <= a
  {
    hide Hopefuls, Holders;
    if a != [] && b != [] {
      var t: nat, len: nat :| t <= ta && Chosen(g, h, t, len) && a <= h.termLog[t][..len];
      var u: nat, lenU: nat :| u <= tb && Chosen(g, h, u, lenU) && b <= h.termLog[u][..lenU];
      ChosenIsLive(g, h, t, len);
      ChosenIsLive(g, h, u, lenU);
      var top := if t < u then u else t;
      assert a <= h.termLog[top] && b <= h.termLog[top];
    }
  }

  lemma PastComplete(g: Group, h: Ghosts)
    requires Past(g, h)
    ensures Complete(g, h)
  {
  }

  lemma NodeGrows(g: Group, n: NodeId, now: NodeState)
    requires g.nodes.Keys == g.members && n in g.members
    requires g.nodes[n].currentTerm <= now.currentTerm && g.nodes[n].wal <= now.wal
    ensures NodesGrow(g, WithNode(g, n, now))
  {
  }

  // ---------- the frame of one step ----------

  /** Only the history about node `n` changes. */
  ghost predicate OnlyAbout(h: Ghosts, h': Ghosts, n: NodeId) {
    && (forall t :: t in h'.termLog ==> t in h'.leaderOf && ((t in h.termLog && h'.termLog[t] == h.termLog[t]) || h'.leaderOf[t] == n))
    && (forall t :: t in h'.leaderOf ==> t in h.leaderOf || h'.leaderOf[t] == n)
    && (forall p: NodeId, t: nat :: p != n ==> Acked(h', p, t) == Acked(h, p, t))
    && (forall p: NodeId, t: nat :: p != n ==> ((p, t) in h'.acks <==> (p, t) in h.acks))
    && (forall p, t :: (p, t) in h'.ballots ==> (p, t) in h.ballots || p == n)
  }

  ghost predicate OnlyNode(g: Group, h: Ghosts, g': Group, h': Ghosts, n: NodeId) {
    n in g.members && n in g'.nodes && g' == WithNode(g, n, g'.nodes[n]) && OnlyAbout(h, h', n)
  }

  lemma RoleFrame(g: Group, h: Ghosts, g': Group, h': Ghosts, n: NodeId, p: NodeId, nd: NodeState)
    requires RoleOk(g, h, p, nd) && Evolves(g, h, g', h') && OnlyNode(g, h, g', h', n) && p != n
    ensures RoleOk(g', h', p, nd)
  {
    if nd.role == Leader {
      assert Acked(h', p, nd.currentTerm) == Acked(h, p, nd.currentTerm);
      forall q | q in nd.matchIndex ensures nd.matchIndex[q] + 1 <= Acked(h', q, nd.currentTerm) {
        assert Acked(h, q, nd.currentTerm) <= Acked(h', q, nd.currentTerm);
      }
    }
  }

  lemma StoredFrame(g: Group, h: Ghosts, g': Group, h': Ghosts, n: NodeId, p: NodeId, log: seq<Entry>)
    requires p in g.members && p != n && p in g.nodes
    requires Past(g, h) && StoredOk(g, h, p, g.nodes[p].currentTerm, log) && Evolves(g, h, g', h') && OnlyNode(g, h, g', h', n)
    ensures StoredOk(g', h', p, g.nodes[p].currentTerm, log)
  {
    hide Keeps, Past, AcksGrow, NodesGrow;
    var term := g.nodes[p].currentTerm;
    KeepsGrows(g, h, g', h', p, term, log);
    assert Acked(h', p, term) == Acked(h, p, term);
  }

  lemma NodeFrame(g: Group, h: Ghosts, g': Group, h': Ghosts, n: NodeId, p: NodeId, nd: NodeState)
    requires Past(g, h) && NodeOk(g, h, p, nd) && Evolves(g, h, g', h') && OnlyNode(g, h, g', h', n)
    requires p in g.members && p != n && nd == g.nodes[p]
    ensures NodeOk(g', h', p, nd)
  {
    LogOkGrows(g, h, g', h', nd.log);
    StoredFrame(g, h, g', h', n, p, nd.log);
    CommittedGrows(g, h, g', h', nd.log[..nd.commitIndex + 1], nd.currentTerm, nd.currentTerm);
    RoleFrame(g, h, g', h', n, p, nd);
  }

  lemma BallotFrame(g: Group, h: Ghosts, g': Group, h': Ghosts, p: NodeId, t: nat)
    requires Past(g, h) && Evolves(g, h, g', h') && (p, t) in h.ballots
    ensures BallotOk(g', h', p, t)
  {
    assert BallotOk(g, h, p, t);
    var b := h.ballots[(p, t)];
    LogOkGrows(g, h, g', h', b.log);
    KeepsGrows(g, h, g', h', p, t, b.log);
  }

  lemma TermFrame(g: Group, h: Ghosts, g': Group, h': Ghosts, t: nat)
    requires TermOk(g, h, t) && Evolves(g, h, g', h') && t in h'.termLog && h'.termLog[t] == h.termLog[t]
    ensures TermOk(g', h', t)
  {
    LogOkGrows(g, h, g', h', h.termLog[t]);
  }

  /** The history of a step: it is enough to look at what is new in it, and at Leader Completeness. */
  lemma PastFrame(g: Group, h: Ghosts, g': Group, h': Ghosts, n: NodeId)
    requires Past(g, h) && Evolves(g, h, g', h') && OnlyNode(g, h, g', h', n)
    requires forall t :: t in h'.termLog && (t !in h.termLog || h'.termLog[t] != h.termLog[t]) ==> TermOk(g', h', t)
    requires forall t :: (n, t) in h'.ballots && (n, t) !in h.ballots ==> BallotOk(g', h', n, t)
    requires forall t :: (n, t) in h'.acks ==> AckOk(g', h', n, t)
    requires Complete(g', h')
    ensures Past(g', h')
  {
    forall t | t in h'.termLog ensures TermOk(g', h', t) {
      if t in h.termLog && h'.termLog[t] == h.termLog[t] { TermFrame(g, h, g', h', t); }
    }
    forall p, t | (p, t) in h'.ballots ensures BallotOk(g', h', p, t) {
      if (p, t) in h.ballots { BallotFrame(g, h, g', h', p, t); }
    }
    forall p, t | (p, t) in h'.acks ensures AckOk(g', h', p, t) {
      if p != n {
        assert AckOk(g, h, p, t);
        assert Acked(h', p, t) == Acked(h, p, t);
      }
    }
  }

  /** A step of node `n` as seen from `n`: its new state and the new history are fine. */
  ghost predicate Advanced(g: Group, h: Ghosts, g': Group, h': Ghosts, n: NodeId) {
    && Evolves(g, h, g', h') && OnlyNode(g, h, g', h', n)
    && Shape(g', h') && Past(g', h') && NodeOk(g', h', n, g'.nodes[n])
  }

  /** Then it is fine for everybody. */
  lemma GroupFrame(g: Group, h: Ghosts, g': Group, h': Ghosts, n: NodeId)
    requires GroupInv(g, h) && Advanced(g, h, g', h', n)
    ensures GroupInv(g', h')
  {
    hide NodeOk, Past, OnlyAbout, RecordsGrow, AcksGrow;
    forall p | p in g'.members ensures NodeOk(g', h', p, g'.nodes[p]) {
      if p != n { NodeFrame(g, h, g', h', n, p, g.nodes[p]); }
    }
  }

  /** Leader Completeness outlives any growth that adds no leader and extends no log. */
  lemma CompleteFrame(g: Group, h: Ghosts, g': Group, h': Ghosts)
    requires Complete(g, h) && Evolves(g, h, g', h') && h'.termLog == h.termLog
    ensures Complete(g', h')
  {
    forall t: nat, u: nat, len: nat | t < u && u in h'.termLog && Live(g', h', t, len)
      ensures h'.termLog[t][..len] <= h'.termLog[u]
    {
      LiveShrinks(g, h, g', h', t, len);
    }
  }

  // ---------- messages ----------

  lemma RoundGrows(g: Group, h: Ghosts, g': Group, h': Ghosts, leader: NodeId, r: Round)
    requires Evolves(g, h, g', h') && RoundOk(g, h, leader, r)
    ensures RoundOk(g', h', leader, r)
  {
    hide Chosen, AcksGrow, Acked;
    var log := h.termLog[r.term][..r.commitIndex + 1];
    CommittedGrows(g, h, g', h', log, r.term, r.term);
    assert h'.termLog[r.term][..r.commitIndex + 1] == log;
  }

  lemma AppendGrows(g: Group, h: Ghosts, g': Group, h': Ghosts, req: AppendRequest)
    requires Evolves(g, h, g', h') && AppendOk(g, h, req)
    ensures AppendOk(g', h', req) && SentLog(h', req) == SentLog(h, req)
  {
    hide Committed, AcksGrow, NodesGrow;
    var log := h.termLog[req.term][..req.leaderCommit + 1];
    CommittedGrows(g, h, g', h', log, req.term, req.term);
    assert h.termLog[req.term] <= h'.termLog[req.term];
    assert h'.termLog[req.term][..req.leaderCommit + 1] == log;
    assert SentLog(h', req) == SentLog(h, req);
  }

  lemma MessagesGrow(g: Group, h: Ghosts, g': Group, h': Ghosts, net: Net)
    requires Evolves(g, h, g', h') && VotesInv(net, h) && AppendsInv(g, net, h)
    ensures VotesInv(net, h') && AppendsInv(g', net, h')
  {
    forall r | r in net.rounds ensures RoundOk(g', h', r.leader, r.round) {
      RoundGrows(g, h, g', h', r.leader, r.round);
    }
    forall m | m in net.appends ensures AppendOk(g', h', m.request) {
      AppendGrows(g, h, g', h', m.request);
    }
    forall reply | reply in net.appendReplies ensures AppendReplyOk(g', h', reply) {
      AppendGrows(g, h, g', h', reply.request);
      assert Acked(h, reply.from, reply.request.term) <= Acked(h', reply.from, reply.request.term);
    }
  }
}
