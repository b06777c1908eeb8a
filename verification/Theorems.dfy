/** What holds in every run of the cluster. No statement here mentions a history. */
module Theorems {
  import opened Storage
  import opened Kv
  import opened Replica
  import opened LogMerge
  import opened Cluster
  import opened History
  import opened Growth
  import opened NodeSteps
  import opened AppendSteps
  import opened Steps

  function NodeAt(states: seq<State>, i: nat, n: NodeId): NodeState
    requires i < |states| && n in states[i].group.nodes
  {
    states[i].group.nodes[n]
  }

  /** `n` is a member and the run has a state number `i`. */
  ghost predicate Here(states: seq<State>, i: nat, n: NodeId) {
    i < |states| && n in states[i].group.nodes
  }

  // ---------- the invariant along a run ----------

  ghost function HistoryAt(states: seq<State>, events: seq<Event>, i: nat): Ghosts
    requires IsRun(states, events) && i < |states|
  {
    if i == 0 then NO_HISTORY else AfterEvent(states[i - 1], HistoryAt(states, events, i - 1), events[i - 1])
  }

  lemma {:induction false} RunInv(states: seq<State>, events: seq<Event>, i: nat)
    requires IsRun(states, events) && i < |states|
    ensures Inv(states[i], HistoryAt(states, events, i))
  {
    hide Inv, Init, CanHappen, Step, AfterEvent, Evolves;
    if i == 0 {
      InitInv(states[0]);
    } else {
      RunInv(states, events, i - 1);
      EventStep(states[i - 1], HistoryAt(states, events, i - 1), events[i - 1]);
    }
  }

  lemma {:induction false} RunEvolves(states: seq<State>, events: seq<Event>, i: nat, j: nat)
    requires IsRun(states, events) && i <= j < |states|
    ensures Evolves(states[i].group, HistoryAt(states, events, i), states[j].group, HistoryAt(states, events, j))
    decreases j - i
  {
    hide Init, CanHappen, Step, AfterEvent, Evolves, GroupInv, VotesInv, AppendsInv;
    var h := HistoryAt(states, events, i);
    if i == j {
      RunInv(states, events, i);
      ShapeOf(states[i], h);
      EvolvesRefl(states[i].group, h);
    } else {
      RunInv(states, events, j - 1);
      RunEvolves(states, events, i, j - 1);
      EventStep(states[j - 1], HistoryAt(states, events, j - 1), events[j - 1]);
      EvolvesTrans(states[i].group, h, states[j - 1].group, HistoryAt(states, events, j - 1), states[j].group, HistoryAt(states, events, j));
    }
  }

  lemma ShapeOf(s: State, h: Ghosts)
    requires Inv(s, h)
    ensures Shape(s.group, h)
  {
  }

  /** The facts about one node of one state of a run. */
  lemma Facts(states: seq<State>, events: seq<Event>, i: nat, n: NodeId) returns (h: Ghosts)
    requires IsRun(states, events) && Here(states, i, n)
    ensures h == HistoryAt(states, events, i)
    ensures Shape(states[i].group, h) && Past(states[i].group, h) && n in states[i].group.members
    ensures NodeOk(states[i].group, h, n, NodeAt(states, i, n))
  {
    hide IsRun, NodeOk, Past, VotesInv, AppendsInv;
    h := HistoryAt(states, events, i);
    RunInv(states, events, i);
  }

  // ---------- Election Safety ----------

  lemma LeaderKnown(g: Group, h: Ghosts, n: NodeId, nd: NodeState)
    requires NodeOk(g, h, n, nd) && nd.role == Leader
    ensures nd.currentTerm in h.leaderOf && h.leaderOf[nd.currentTerm] == n
    ensures nd.currentTerm in h.termLog && nd.log == h.termLog[nd.currentTerm]
  {
  }

  /** At most one node leads a term, whatever crashes happen in between. */
  lemma ElectionSafety(states: seq<State>, events: seq<Event>, i: nat, j: nat, a: NodeId, b: NodeId)
    requires IsRun(states, events) && Here(states, i, a) && Here(states, j, b)
    requires NodeAt(states, i, a).role == Leader && NodeAt(states, j, b).role == Leader
    requires NodeAt(states, i, a).currentTerm == NodeAt(states, j, b).currentTerm
    ensures a == b
  {
    hide IsRun, NodeOk, Past, Shape, NodesGrow, AcksGrow;
    var ha := Facts(states, events, i, a);
    var hb := Facts(states, events, j, b);
    LeaderKnown(states[i].group, ha, a, NodeAt(states, i, a));
    LeaderKnown(states[j].group, hb, b, NodeAt(states, j, b));
    if i <= j {
      RunEvolves(states, events, i, j);
    } else {
      RunEvolves(states, events, j, i);
    }
  }

  // ---------- Log Matching ----------

  lemma LogKnown(g: Group, h: Ghosts, n: NodeId, nd: NodeState)
    requires NodeOk(g, h, n, nd)
    ensures LogOk(h, nd.log)
  {
  }

  /** Every log of the run is fine by the history of the later of two states. */
  lemma LogLater(states: seq<State>, events: seq<Event>, i: nat, j: nat, n: NodeId)
    requires IsRun(states, events) && Here(states, i, n) && i <= j < |states|
    ensures LogOk(HistoryAt(states, events, j), NodeAt(states, i, n).log)
  {
    hide IsRun, NodeOk, Past, Shape, Evolves;
    var h := Facts(states, events, i, n);
    LogKnown(states[i].group, h, n, NodeAt(states, i, n));
    RunEvolves(states, events, i, j);
    LogOkGrows(states[i].group, h, states[j].group, HistoryAt(states, events, j), NodeAt(states, i, n).log);
  }

  /** Any two logs of a run, on any nodes at any times. */
  lemma LogMatching(states: seq<State>, events: seq<Event>, i: nat, j: nat, a: NodeId, b: NodeId)
    requires IsRun(states, events) && Here(states, i, a) && Here(states, j, b)
    ensures Match(NodeAt(states, i, a).log, NodeAt(states, j, b).log)
  {
    hide IsRun, LogOk, Match, HistoryAt;
    var top := if i <= j then j else i;
    LogLater(states, events, i, top, a);
    LogLater(states, events, j, top, b);
    LogsMatch(HistoryAt(states, events, top), NodeAt(states, i, a).log, NodeAt(states, j, b).log);
  }

  /** Entries sit at their own index, and terms never decrease along a log. */
  lemma LogShape(states: seq<State>, events: seq<Event>, i: nat, n: NodeId, k: nat, l: nat)
    requires IsRun(states, events) && Here(states, i, n) && k <= l < |NodeAt(states, i, n).log|
    ensures NodeAt(states, i, n).log[k].index == k
    ensures 1 <= NodeAt(states, i, n).log[k].term <= NodeAt(states, i, n).log[l].term <= NodeAt(states, i, n).currentTerm
  {
    hide IsRun, StoredOk, Committed, RoleOk, Complete, BallotOk;
    var h := Facts(states, events, i, n);
    var log := NodeAt(states, i, n).log;
    TermsGrow(states[i].group, h, log, k, l);
  }

  lemma TermsGrow(g: Group, h: Ghosts, log: seq<Entry>, k: nat, l: nat)
    requires (forall t :: t in h.termLog ==> TermOk(g, h, t)) && LogOk(h, log) && k <= l < |log|
    ensures 1 <= log[k].term <= log[l].term
  {
    var leaders := h.termLog[log[l].term];
    assert log[..l + 1] <= leaders;
    assert log[k] == leaders[k];
    assert TermOk(g, h, log[l].term) && TermOk(g, h, log[k].term);
  }

  // ---------- commitment ----------

  lemma CommittedKnown(g: Group, h: Ghosts, n: NodeId, nd: NodeState)
    requires NodeOk(g, h, n, nd)
    ensures -1 <= nd.lastApplied <= nd.commitIndex < |nd.log|
    ensures Committed(g, h, nd.log[..nd.commitIndex + 1], nd.currentTerm)
  {
  }

  lemma CommittedLater(states: seq<State>, events: seq<Event>, i: nat, j: nat, n: NodeId)
    requires IsRun(states, events) && Here(states, i, n) && i <= j < |states|
    ensures var nd := NodeAt(states, i, n);
      && -1 <= nd.lastApplied <= nd.commitIndex < |nd.log|
      && Committed(states[j].group, HistoryAt(states, events, j), nd.log[..nd.commitIndex + 1], nd.currentTerm)
  {
    hide IsRun, NodeOk, Past, Shape, Evolves, Committed;
    var h := Facts(states, events, i, n);
    var nd := NodeAt(states, i, n);
    CommittedKnown(states[i].group, h, n, nd);
    RunEvolves(states, events, i, j);
    CommittedGrows(states[i].group, h, states[j].group, HistoryAt(states, events, j),
                   nd.log[..nd.commitIndex + 1], nd.currentTerm, nd.currentTerm);
  }

  /**
   State Machine Safety: the committed parts of any two logs, on any nodes at any times, are
   prefixes of one another.
   */
  lemma StateMachineSafety(states: seq<State>, events: seq<Event>, i: nat, j: nat, a: NodeId, b: NodeId)
    requires IsRun(states, events) && Here(states, i, a) && Here(states, j, b)
    ensures var x, y := NodeAt(states, i, a), NodeAt(states, j, b);
      && -1 <= x.lastApplied <= x.commitIndex < |x.log| && -1 <= y.lastApplied <= y.commitIndex < |y.log|
      && (x.log[..x.commitIndex + 1] <= y.log[..y.commitIndex + 1] || y.log[..y.commitIndex + 1] <= x.log[..x.commitIndex + 1])
  {
    hide IsRun, Past, Committed, HistoryAt, GroupInv, VotesInv, AppendsInv;
    var top := if i <= j then j else i;
    CommittedLater(states, events, i, top, a);
    CommittedLater(states, events, j, top, b);
    RunInv(states, events, top);
    CompleteOf(states[top], HistoryAt(states, events, top));
    var x, y := NodeAt(states, i, a), NodeAt(states, j, b);
    CommittedComparable(states[top].group, HistoryAt(states, events, top),
                        x.log[..x.commitIndex + 1], x.currentTerm, y.log[..y.commitIndex + 1], y.currentTerm);
  }

  lemma CompleteOf(s: State, h: Ghosts)
    requires Inv(s, h)
    ensures s.group.nodes.Keys == s.group.members && Complete(s.group, h)
  {
  }

  /** Nodes that have applied equally far hold the same map; a read therefore sees some committed prefix. */
  lemma EqualAppliedEqualData(states: seq<State>, events: seq<Event>, i: nat, j: nat, a: NodeId, b: NodeId)
    requires IsRun(states, events) && Here(states, i, a) && Here(states, j, b)
    requires NodeAt(states, i, a).lastApplied == NodeAt(states, j, b).lastApplied
    ensures NodeAt(states, i, a).data == NodeAt(states, j, b).data
  {
    hide IsRun, Past, Shape;
    StateMachineSafety(states, events, i, j, a, b);
    AppliedData(states, events, i, a);
    AppliedData(states, events, j, b);
    var x, y := NodeAt(states, i, a), NodeAt(states, j, b);
    SameStart(x.log, x.commitIndex + 1, y.log, y.commitIndex + 1, x.lastApplied + 1);
  }

  lemma SameStart(a: seq<Entry>, la: nat, b: seq<Entry>, lb: nat, k: nat)
    requires k <= la <= |a| && k <= lb <= |b| && (a[..la] <= b[..lb] || b[..lb] <= a[..la])
    ensures a[..k] == b[..k]
  {
    assert a[..k] == a[..la][..k] && b[..k] == b[..lb][..k];
  }

  /** The map is always the fold of the applied part of the log. */
  lemma AppliedData(states: seq<State>, events: seq<Event>, i: nat, n: NodeId)
    requires IsRun(states, events) && Here(states, i, n)
    ensures var nd := NodeAt(states, i, n);
      -1 <= nd.lastApplied <= nd.commitIndex < |nd.log| && nd.data == Fold(nd.log[..nd.lastApplied + 1])
  {
    hide IsRun, Past, Shape, LogOk, StoredOk, Committed, RoleOk;
    var h := Facts(states, events, i, n);
  }

  /** No step, crash or restart moves a commit index back or changes an entry at or below it. */
  lemma CommitStable(states: seq<State>, events: seq<Event>, i: nat, j: nat, n: NodeId)
    requires IsRun(states, events) && Here(states, i, n) && Here(states, j, n) && i <= j
    ensures var x, y := NodeAt(states, i, n), NodeAt(states, j, n);
      && -1 <= x.commitIndex <= y.commitIndex < |y.log| && x.commitIndex < |x.log|
      && x.log[..x.commitIndex + 1] <= y.log
  {
    hide IsRun, NodeOk, Past, RecordsGrow, AcksGrow, HistoryAt;
    StateMachineSafety(states, events, i, j, n, n);
    RunEvolves(states, events, i, j);
    var x, y := NodeAt(states, i, n), NodeAt(states, j, n);
    var hx := Facts(states, events, i, n);
    var hy := Facts(states, events, j, n);
    SyncedOf(states[i].group, hx, n, x);
    SyncedOf(states[j].group, hy, n, y);
    ReplayCommitGrows(x.wal, y.wal);
  }

  lemma SyncedOf(g: Group, h: Ghosts, n: NodeId, nd: NodeState)
    requires NodeOk(g, h, n, nd)
    ensures Synced(nd)
  {
  }

  // ---------- Leader Completeness ----------

  /** A chosen prefix was already out of reach of every later leader's electors, so that leader had it from the start. */
  lemma ChosenInLaterLeader(g: Group, h: Ghosts, g': Group, h': Ghosts, t: nat, len: nat, u: nat)
    requires Evolves(g, h, g', h') && Past(g, h) && g.nodes.Keys == g.members && g'.nodes.Keys == g'.members
    requires t < u && u in h.termLog && Chosen(g', h', t, len)
    ensures t in h.termLog && len <= |h.termLog[t]| && h'.termLog[t][..len] == h.termLog[t][..len]
    ensures h.termLog[t][..len] <= h.termLog[u]
  {
    hide LogOk, Keeps;
    assert TermOk(g, h, u);
    var p := QuorumsMeet(Holders(g', h', t, len), h.voters[u], g.members);
    assert VotedIn(h, p, u, h.leaderOf[u]);
    assert BallotOk(g, h, p, u);
    assert Acked(h, p, t) >= len;
    assert AckOk(g, h, p, t);
    ChosenIsLive(g', h', t, len);
    LiveShrinks(g, h, g', h', t, len);
  }

  /**
   Whatever a node of term T regards as committed is, entry for entry, in the log of every leader of a later term,
   whether that leader came before or after in the run.
   */
  lemma LeaderCompleteness(states: seq<State>, events: seq<Event>, i: nat, j: nat, a: NodeId, b: NodeId)
    requires IsRun(states, events) && Here(states, i, a) && Here(states, j, b)
    requires NodeAt(states, j, b).role == Leader && NodeAt(states, i, a).currentTerm < NodeAt(states, j, b).currentTerm
    ensures var x := NodeAt(states, i, a);
      -1 <= x.commitIndex < |x.log| && x.log[..x.commitIndex + 1] <= NodeAt(states, j, b).log
  {
    hide IsRun, NodeOk, Past, Committed, HistoryAt, Complete, Evolves;
    var x, y := NodeAt(states, i, a), NodeAt(states, j, b);
    var hx := Facts(states, events, i, a);
    var hy := Facts(states, events, j, b);
    LeaderKnown(states[j].group, hy, b, y);
    CommittedKnown(states[i].group, hx, a, x);
    var kept := x.log[..x.commitIndex + 1];
    if i <= j {
      CommittedLater(states, events, i, j, a);
      PastComplete(states[j].group, hy);
      CommittedIn(states[j].group, hy, kept, x.currentTerm, y.currentTerm);
    } else {
      RunEvolves(states, events, j, i);
      CommittedInEarlier(states[j].group, hy, states[i].group, hx, kept, x.currentTerm, y.currentTerm);
    }
  }

  lemma CommittedInEarlier(g: Group, h: Ghosts, g': Group, h': Ghosts, log: seq<Entry>, term: nat, u: nat)
    requires Evolves(g, h, g', h') && Past(g, h) && g.nodes.Keys == g.members && g'.nodes.Keys == g'.members
    requires Committed(g', h', log, term) && term < u && u in h.termLog
    ensures log <= h.termLog[u]
  {
    hide Evolves, Past;
    if log != [] {
      var t: nat, len: nat :| t <= term && Chosen(g', h', t, len) && log <= h'.termLog[t][..len];
      ChosenInLaterLeader(g, h, g', h', t, len, u);
    }
  }

  // ---------- acknowledged writes ----------

  /** A leader's log within its term only grows. */
  lemma LeaderAppendOnly(states: seq<State>, events: seq<Event>, i: nat, j: nat, n: NodeId)
    requires IsRun(states, events) && Here(states, i, n) && Here(states, j, n) && i <= j
    requires NodeAt(states, i, n).role == Leader && NodeAt(states, j, n).role == Leader
    requires NodeAt(states, i, n).currentTerm == NodeAt(states, j, n).currentTerm
    ensures NodeAt(states, i, n).log <= NodeAt(states, j, n).log
  {
    hide IsRun, NodeOk, Past, Shape, NodesGrow, AcksGrow;
    var hx := Facts(states, events, i, n);
    var hy := Facts(states, events, j, n);
    LeaderKnown(states[i].group, hx, n, NodeAt(states, i, n));
    LeaderKnown(states[j].group, hy, n, NodeAt(states, j, n));
    RunEvolves(states, events, i, j);
  }

  /**
   A write that is answered with success: the entry is still where it was put, it is committed there, and it is in the
   log of every leader of a later term and of its own term from then on, across any crashes.
   */
  lemma AcknowledgedWriteIsDurable(states: seq<State>, events: seq<Event>, i: nat, j: nat, m: nat,
                                   n: NodeId, b: NodeId, operation: string, key: string, value: string)
    requires IsRun(states, events) && Here(states, i, n) && i < |events| && events[i] == Do(Write(n, operation, key, value))
    requires NodeAt(states, i, n).role == Leader && i < j && Here(states, j, n)
    requires var x := NodeAt(states, i, n); PollWrite(NodeAt(states, j, n), x.currentTerm, |x.log|) == Answered
    requires Here(states, m, b) && NodeAt(states, m, b).role == Leader
    requires var term := NodeAt(states, i, n).currentTerm;
      NodeAt(states, m, b).currentTerm > term || (NodeAt(states, m, b).currentTerm == term && j <= m)
    ensures var x, y, z := NodeAt(states, i, n), NodeAt(states, j, n), NodeAt(states, m, b);
      var e := Entry(|x.log|, x.currentTerm, operation, key, value);
      && |x.log| <= y.commitIndex < |y.log| && y.log[|x.log|] == e
      && |x.log| < |z.log| && z.log[|x.log|] == e
  {
    var x, y, z := NodeAt(states, i, n), NodeAt(states, j, n), NodeAt(states, m, b);
    WriteLands(states, events, i, n, operation, key, value);
    hide IsRun;
    LeaderAppendOnly(states, events, i + 1, j, n);
    CommitStable(states, events, j, j, n);
    if z.currentTerm > x.currentTerm {
      LeaderCompleteness(states, events, j, m, n, b);
    } else {
      ElectionSafety(states, events, j, m, n, b);
      LeaderAppendOnly(states, events, j, m, n);
    }
  }

  /**
   What a reader gets of an acknowledged SET, on any node at any time, across any crashes. A node that has applied as far
   as the entry, and no later entry for that key, returns the value; a node that has not returns what the log held before
   the write. So an acknowledged write may be missed, but only by a node that is behind.
   */
  lemma AcknowledgedWriteIsRead(states: seq<State>, events: seq<Event>, i: nat, j: nat, m: nat,
                                n: NodeId, b: NodeId, key: string, value: string)
    requires IsRun(states, events) && Here(states, i, n) && i < |events| && events[i] == Do(Write(n, OP_SET, key, value))
    requires NodeAt(states, i, n).role == Leader && i < j && Here(states, j, n)
    requires var x := NodeAt(states, i, n); PollWrite(NodeAt(states, j, n), x.currentTerm, |x.log|) == Answered
    requires Here(states, m, b)
    requires var z := NodeAt(states, m, b);
      forall k :: |NodeAt(states, i, n).log| < k <= z.lastApplied && k < |z.log| ==> !Touches(z.log[k], key)
    ensures var x, z := NodeAt(states, i, n), NodeAt(states, m, b);
      if |x.log| <= z.lastApplied then key in z.data && z.data[key] == value
      else -1 <= z.lastApplied && z.data == Fold(x.log[..z.lastApplied + 1])
  {
    var x, y, z := NodeAt(states, i, n), NodeAt(states, j, n), NodeAt(states, m, b);
    WriteLands(states, events, i, n, OP_SET, key, value);
    hide IsRun, Touches, Fold;
    LeaderAppendOnly(states, events, i + 1, j, n);
    StateMachineSafety(states, events, j, m, n, b);
    AppliedData(states, events, m, b);
    ReadAfterWrite(x.log, Entry(|x.log|, x.currentTerm, OP_SET, key, value), y.log[..y.commitIndex + 1], z.log[..z.lastApplied + 1]);
  }

  /** `settled` holds the write behind `before`; `applied` is as much of it, or of a longer log, as a node has applied. */
  lemma ReadAfterWrite(before: seq<Entry>, write: Entry, settled: seq<Entry>, applied: seq<Entry>)
    requires before + [write] <= settled && write.operation == OP_SET && (applied <= settled || settled <= applied)
    requires forall k :: |before| < k < |applied| ==> !Touches(applied[k], write.key)
    ensures if |before| < |applied| then write.key in Fold(applied) && Fold(applied)[write.key] == write.value
            else applied == before[..|applied|]
  {
    hide Fold;
    if |before| < |applied| {
      assert applied[|before|] == settled[|before|] == write;
      assert LastSet(applied, |before|, write.key);
      ReadsLastWrite(applied, write.key);
    }
  }

  lemma WriteLands(states: seq<State>, events: seq<Event>, i: nat, n: NodeId, operation: string, key: string, value: string)
    requires IsRun(states, events) && Here(states, i, n) && i < |events| && events[i] == Do(Write(n, operation, key, value))
    requires NodeAt(states, i, n).role == Leader
    ensures var x := NodeAt(states, i, n);
      && Here(states, i + 1, n) && NodeAt(states, i + 1, n).role == Leader
      && NodeAt(states, i + 1, n).currentTerm == x.currentTerm
      && NodeAt(states, i + 1, n).log == x.log + [Entry(|x.log|, x.currentTerm, operation, key, value)]
  {
    assert CanHappen(states[i], events[i]) && states[i + 1] == Step(states[i], events[i]);
  }

  // ---------- crashes ----------

  /**
   Crash transparency: at every lock release the file replays to the live term, vote, log and commit index, and a
   restart rebuilds the very map that applying the committed entries one by one reaches. Nothing else survives.
   */
  lemma CrashTransparency(states: seq<State>, events: seq<Event>, i: nat, n: NodeId)
    requires IsRun(states, events) && Here(states, i, n)
    ensures var nd := NodeAt(states, i, n); var back := Recover(nd.wal);
      && DurableOf(back) == DurableOf(nd)
      && back == ApplyCommitted(nd).(role := Follower, nextIndex := map[], matchIndex := map[])
      && back.lastApplied == nd.commitIndex
  {
    hide IsRun, Past, Shape, LogOk, StoredOk, Committed;
    var h := Facts(states, events, i, n);
    ResetOk(states[i].group, h, n, NodeAt(states, i, n));
    ApplyOk(NodeAt(states, i, n));
  }

  // ---------- votes ----------

  /** A node's file never holds votes for two candidates of one term. */
  lemma OneVotePerTerm(states: seq<State>, events: seq<Event>, i: nat, n: NodeId, k: nat, l: nat)
    requires IsRun(states, events) && Here(states, i, n)
    requires var wal := NodeAt(states, i, n).wal;
      && k < |wal| && l < |wal| && wal[k].StateRecord? && wal[l].StateRecord? && wal[k].term == wal[l].term
      && wal[k].votedFor != NO_VOTE && wal[l].votedFor != NO_VOTE
    ensures NodeAt(states, i, n).wal[k] == NodeAt(states, i, n).wal[l]
  {
    hide IsRun, Past, Shape, LogOk, StoredOk, Committed, RoleOk, LocalOk;
    var h := Facts(states, events, i, n);
    var wal := NodeAt(states, i, n).wal;
    assert VotedIn(h, n, wal[k].term, wal[k].votedFor) && VotedIn(h, n, wal[l].term, wal[l].votedFor);
  }

  /** Everybody an election has counted, the candidate included, has that vote in its file. */
  lemma CountedVotesArePersisted(states: seq<State>, events: seq<Event>, i: nat, n: NodeId, t: nat, p: NodeId)
    requires IsRun(states, events) && i < |states| && (n, t) in states[i].net.tallies
    requires p == n || p in states[i].net.tallies[(n, t)]
    ensures Here(states, i, p) && StateRecord(t, n) in NodeAt(states, i, p).wal
    ensures n !in states[i].net.tallies[(n, t)]
  {
    hide IsRun, NodeOk, AppendsInv, Complete, Keeps, LogOk;
    var h := HistoryAt(states, events, i);
    RunInv(states, events, i);
    assert TallyOk(h, n, t, states[i].net.tallies[(n, t)]);
    assert VotedIn(h, p, t, n);
    assert BallotOk(states[i].group, h, p, t);
  }

  /** A candidate's log is frozen while it is a candidate of one term, and every request it sent describes it. */
  lemma CandidateLogFrozen(states: seq<State>, events: seq<Event>, i: nat, j: nat, n: NodeId, req: VoteRequest)
    requires IsRun(states, events) && Here(states, i, n) && Here(states, j, n) && i <= j
    requires NodeAt(states, i, n).role == Candidate && NodeAt(states, j, n).role == Candidate
    requires NodeAt(states, i, n).currentTerm == NodeAt(states, j, n).currentTerm
    requires req in states[j].net.voteRequests && req.candidateId == n && req.term == NodeAt(states, j, n).currentTerm
    ensures NodeAt(states, i, n).log == NodeAt(states, j, n).log
    ensures req.lastLogIndex == LastIndex(NodeAt(states, j, n).log) && req.lastLogTerm == LastTerm(NodeAt(states, j, n).log)
  {
    hide IsRun, NodeOk, Past, AppendsInv, Shape, NodesGrow, AcksGrow, HistoryAt;
    var hx := Facts(states, events, i, n);
    var hy := Facts(states, events, j, n);
    CandidateKnownLog(states[i].group, hx, n, NodeAt(states, i, n));
    CandidateKnownLog(states[j].group, hy, n, NodeAt(states, j, n));
    RunEvolves(states, events, i, j);
    RunInv(states, events, j);
    assert VoteRequestOk(hy, req);
  }

  lemma CandidateKnownLog(g: Group, h: Ghosts, n: NodeId, nd: NodeState)
    requires NodeOk(g, h, n, nd) && nd.role == Candidate
    ensures CandidateOk(h, n, nd.currentTerm, nd.log)
  {
  }
}
