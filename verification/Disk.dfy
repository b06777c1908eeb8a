/** The disk under the cluster: a crash at any byte is one of the crashes the cluster model has. */
module Disk {
  import opened Storage
  import opened Replica
  import opened Cluster
  import opened History
  import opened Growth
  import opened Steps
  import opened Theorems
  import opened Wal

  lemma WalGrows(states: seq<State>, events: seq<Event>, i: nat, a: Action)
    requires IsRun(states, events) && i < |states| && Enabled(states[i], a)
    ensures states[i].group.nodes[a.node].wal <= NodeAfter(states[i], a).wal
  {
    hide IsRun, GroupInv, VotesInv, AppendsInv, Evolves, NodeAfter, After;
    var s := states[i];
    var h := HistoryAt(states, events, i);
    RunInv(states, events, i);
    ActionGroup(s, h, a);
    WalPrefix(s.group, h, WithNode(s.group, a.node, NodeAfter(s, a)), After(s, h, a), a.node, NodeAfter(s, a));
  }

  /**
   Power fails while a handler writes its records, at any byte behind those already there. What recovery reads from the
   cut file is the node after a crash event of the model, so every theorem about runs covers it.
   */
  lemma CrashAtAnyByte(codec: Codec, states: seq<State>, events: seq<Event>, i: nat, a: Action, cut: nat)
    requires IsRun(states, events) && i < |states| && Enabled(states[i], a)
    requires Faithful(codec, NodeAfter(states[i], a).wal)
    requires |Frames(codec, states[i].group.nodes[a.node].wal)| <= cut <= |Frames(codec, NodeAfter(states[i], a).wal)|
    ensures var found := ReadRecords(codec, Frames(codec, NodeAfter(states[i], a).wal)[..cut]);
      && CanHappen(states[i], Crash(a, |found|))
      && Step(states[i], Crash(a, |found|)).group.nodes[a.node] == Recover(found)
  {
    hide IsRun, NodeAfter, Frames, ReadRecords, Recover, Whole;
    WalGrows(states, events, i, a);
    var before, after := states[i].group.nodes[a.node].wal, NodeAfter(states[i], a).wal;
    TornWrite(codec, after, cut);
    WholeIsExact(codec, after, cut, |before|);
    assert after[..|before|] == before;
  }
}
