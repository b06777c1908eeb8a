/**
 What an AppendEntries handler does to one log, record by record.
 `sent` is the sender's whole log when it built the request; all facts are about logs alone.
 */
module LogMerge {
  import opened Storage
  import opened Replica

  /** Log Matching between two logs: equal terms at an index make the logs equal up to it. */
  ghost predicate Match(a: seq<Entry>, b: seq<Entry>) {
    forall i :: 0 <= i < |a| && i < |b| && a[i].term == b[i].term ==> a[..i + 1] == b[..i + 1]
  }

  ghost predicate Agree(a: seq<Entry>, b: seq<Entry>, length: int) {
    0 <= length <= |a| && length <= |b| && a[..length] == b[..length]
  }

  /**
   `log` may become `after` on the way to `sent`: nothing the two logs share is lost,
   and a log that already extends `sent` is left alone.
   */
  ghost predicate Moves(log: seq<Entry>, after: seq<Entry>, sent: seq<Entry>) {
    && (after <= log || after <= sent)
    && (sent <= log ==> after == log)
    && (forall k :: Agree(log, sent, k) ==> Agree(after, sent, k))
  }

  lemma MovesTrans(a: seq<Entry>, b: seq<Entry>, c: seq<Entry>, sent: seq<Entry>)
    requires Moves(a, b, sent) && Moves(b, c, sent)
    ensures Moves(a, c, sent)
  {
  }

  /** A prefix of the log that is comparable with `sent` survives every move. */
  lemma MovesKeep(log: seq<Entry>, after: seq<Entry>, sent: seq<Entry>, kept: seq<Entry>)
    requires Moves(log, after, sent) && kept <= log && (kept <= sent || sent <= kept)
    ensures kept <= after
  {
    if kept <= sent {
      assert Agree(log, sent, |kept|);
      assert Agree(after, sent, |kept|);
      assert kept == sent[..|kept|];
    }
  }

  /** Cutting at a position where the terms differ (or at the end) is a move. */
  lemma CutMoves(log: seq<Entry>, sent: seq<Entry>, k: nat)
    requires k == |log| || (k < |log| && k < |sent| && log[k].term != sent[k].term)
    ensures Moves(log, log[..k], sent)
  {
    forall j | Agree(log, sent, j) ensures Agree(log[..k], sent, j) {
      assert log[..k][..j] == log[..j];
    }
  }

  lemma GrowMoves(log: seq<Entry>, sent: seq<Entry>)
    requires log < sent
    ensures Moves(log, sent[..|log| + 1], sent)
  {
    forall j | Agree(log, sent, j) ensures Agree(sent[..|log| + 1], sent, j) {
      assert sent[..|log| + 1][..j] == sent[..j];
    }
  }

  /** A consistent node: its file replays to its durable fields. */
  ghost predicate Synced(nd: NodeState) { Replay(nd.wal) == DurableOf(nd) }

  /** `wal` is what a crash may leave behind: it replays to `nd` with a log on its way to `sent`. */
  ghost predicate Midway(nd: NodeState, wal: seq<Record>, sent: seq<Entry>) {
    var d := Replay(wal);
    d == DurableOf(nd).(log := d.log) && Moves(nd.log, d.log, sent)
  }

  /** From `nd` to `after` by log records alone, every record boundary on the way being a safe place to crash. */
  ghost predicate Passage(nd: NodeState, after: NodeState, sent: seq<Entry>) {
    && after == nd.(log := after.log, wal := after.wal) && nd.wal <= after.wal
    && Synced(after)
    && (forall i :: |nd.wal| <= i < |after.wal| ==> !after.wal[i].StateRecord?)
    && (forall cut :: |nd.wal| <= cut <= |after.wal| ==> Midway(nd, after.wal[..cut], sent))
  }

  lemma PassageNone(nd: NodeState, sent: seq<Entry>)
    requires Synced(nd)
    ensures Passage(nd, nd, sent)
  {
    assert nd.wal[..|nd.wal|] == nd.wal;
  }

  /** One log record. */
  lemma PassageOne(nd: NodeState, after: NodeState, r: Record, sent: seq<Entry>)
    requires Synced(nd) && after == nd.(log := after.log, wal := nd.wal + [r])
    requires ReplayRecord(DurableOf(nd), r) == DurableOf(after) && !r.StateRecord?
    requires Moves(nd.log, after.log, sent)
    ensures Passage(nd, after, sent)
  {
    ReplayAppend(nd.wal, r);
    forall cut | |nd.wal| <= cut <= |after.wal| ensures Midway(nd, after.wal[..cut], sent) {
      if cut == |nd.wal| {
        assert after.wal[..cut] == nd.wal;
      } else {
        assert after.wal[..cut] == after.wal;
      }
    }
  }

  lemma PassageTrans(a: NodeState, b: NodeState, c: NodeState, sent: seq<Entry>)
    requires Passage(a, b, sent) && Passage(b, c, sent)
    ensures Passage(a, c, sent)
  {
    assert b.wal[..|b.wal|] == b.wal;
    forall cut | |a.wal| <= cut <= |c.wal| ensures Midway(a, c.wal[..cut], sent) {
      if cut <= |b.wal| {
        assert c.wal[..cut] == b.wal[..cut];
      } else {
        assert Midway(a, b.wal[..|b.wal|], sent);
        assert Midway(b, c.wal[..cut], sent);
        MovesTrans(a.log, b.log, Replay(c.wal[..cut]).log, sent);
      }
    }
  }

  lemma AppendPassage(nd: NodeState, e: Entry, sent: seq<Entry>)
    requires Synced(nd) && nd.log < sent && sent[|nd.log|] == e
    ensures Passage(nd, Appended(nd, e), sent)
  {
    GrowMoves(nd.log, sent);
    assert nd.log + [e] == sent[..|nd.log| + 1];
    PassageOne(nd, Appended(nd, e), EntryRecord(e), sent);
  }

  /** Cutting at a position where the terms differ, or at the end. */
  lemma TruncatePassage(nd: NodeState, k: nat, sent: seq<Entry>)
    requires Synced(nd)
    requires k == |nd.log| || (k < |nd.log| && k < |sent| && nd.log[k].term != sent[k].term)
    ensures Passage(nd, Truncated(nd, k), sent)
  {
    CutMoves(nd.log, sent, k);
    assert k == |nd.log| ==> nd.log[..k] == nd.log;
    PassageOne(nd, Truncated(nd, k), TruncateRecord(k - 1), sent);
  }

  lemma {:induction false} AppendAllPassage(nd: NodeState, entries: seq<Entry>, sent: seq<Entry>)
    requires Synced(nd) && nd.log + entries == sent
    ensures Passage(nd, AppendedAll(nd, entries), sent)
    ensures AppendedAll(nd, entries).log == sent
    decreases |entries|
  {
    if entries == [] {
      PassageNone(nd, sent);
    } else {
      var one := Appended(nd, entries[0]);
      AppendPassage(nd, entries[0], sent);
      assert one.log + entries[1..] == sent;
      AppendAllPassage(one, entries[1..], sent);
      PassageTrans(nd, one, AppendedAll(nd, entries), sent);
    }
  }

  /** The log a completed merge ends with. */
  function MergeResult(log: seq<Entry>, sent: seq<Entry>): seq<Entry> {
    if sent <= log then log else sent
  }

  /** The entry loop meets a conflict: it cuts there and appends the rest. */
  lemma ConflictPassage(nd: NodeState, index: nat, entries: seq<Entry>, sent: seq<Entry>)
    requires Synced(nd) && Agree(nd.log, sent, index) && index < |sent| && sent[index..] == entries
    requires index < |nd.log| && nd.log[index].term != sent[index].term
    ensures Passage(nd, AppendedAll(Truncated(nd, index), entries), sent)
    ensures AppendedAll(Truncated(nd, index), entries).log == sent
  {
    TruncatePassage(nd, index, sent);
    assert Truncated(nd, index).log + entries == sent;
    AppendAllPassage(Truncated(nd, index), entries, sent);
    PassageTrans(nd, Truncated(nd, index), AppendedAll(Truncated(nd, index), entries), sent);
  }

  /** The entry loop, from a position up to which the two logs agree. */
  lemma {:induction false} MergePassage(nd: NodeState, index: nat, entries: seq<Entry>, sent: seq<Entry>)
    requires Synced(nd) && Match(nd.log, sent)
    requires Agree(nd.log, sent, index) && sent[index..] == entries
    ensures Passage(nd, Merged(nd, index, entries), sent)
    ensures Merged(nd, index, entries).log == MergeResult(nd.log, sent)
    decreases |entries|
  {
    if entries == [] {
      assert sent == sent[..index];
      PassageNone(nd, sent);
    } else {
      assert sent[index] == entries[0] && sent[index + 1..] == entries[1..];
      if index >= |nd.log| {
        var one := Appended(nd, entries[0]);
        assert nd.log == sent[..index];
        assert one.log == sent[..index + 1];
        AppendPassage(nd, entries[0], sent);
        MergePassage(one, index + 1, entries[1..], sent);
        PassageTrans(nd, one, Merged(one, index + 1, entries[1..]), sent);
      } else if nd.log[index].term != entries[0].term {
        ConflictPassage(nd, index, entries, sent);
      } else {
        MergePassage(nd, index + 1, entries[1..], sent);
      }
    }
  }

  /** `req` was built from `sent`: it carries everything after its previous entry. */
  ghost predicate Carries(req: AppendRequest, sent: seq<Entry>) {
    && -1 <= req.prevLogIndex
    && |sent| == req.prevLogIndex + 1 + |req.entries|
    && sent[req.prevLogIndex + 1..] == req.entries
    && (req.prevLogIndex >= 0 ==> sent[req.prevLogIndex].term == req.prevLogTerm)
    && req.leaderCommit < |sent|
  }

  /** What the consistency check establishes. */
  lemma CheckedAgree(log: seq<Entry>, req: AppendRequest, sent: seq<Entry>)
    requires Match(log, sent) && Carries(req, sent) && !CheckFails(log, req)
    ensures Agree(log, sent, req.prevLogIndex + 1)
  {
  }

  /** A passed check: the follower keeps its log if that extends the sender's, and otherwise takes the sender's. */
  lemma StorePassage(now: NodeState, req: AppendRequest, sent: seq<Entry>)
    requires Synced(now) && Match(now.log, sent) && Carries(req, sent) && !CheckFails(now.log, req)
    ensures Passage(now, Stored(now, req), sent)
    ensures Stored(now, req).log == MergeResult(now.log, sent)
  {
    if HeadConflicts(now.log, req) {
      assert sent == sent[0..] == req.entries;
      var base := Truncated(now, 0);
      TruncatePassage(now, 0, sent);
      MergePassage(base, 0, req.entries, sent);
      PassageTrans(now, base, Stored(now, req), sent);
    } else {
      CheckedAgree(now.log, req, sent);
      MergePassage(now, req.prevLogIndex + 1, req.entries, sent);
    }
  }

  /** A failed check loses nothing the two logs share; a passed one ends with the merge of the two. */
  lemma CheckPassage(now: NodeState, req: AppendRequest, sent: seq<Entry>)
    requires Synced(now) && Match(now.log, sent) && Carries(req, sent)
    ensures Passage(now, Checked(now, req), sent)
    ensures !CheckFails(now.log, req) ==> Checked(now, req).log == MergeResult(now.log, sent)
  {
    if CheckFails(now.log, req) {
      TruncatePassage(now, Min(req.prevLogIndex, |now.log|), sent);
    } else {
      StorePassage(now, req, sent);
    }
  }

  /** What a passage leaves behind when it is interrupted after any record. */
  lemma PassageCut(nd: NodeState, after: NodeState, sent: seq<Entry>, cut: nat)
    requires Passage(nd, after, sent) && |nd.wal| <= cut <= |after.wal|
    ensures var wal := after.wal[..cut];
      var mid := nd.(log := Replay(wal).log, wal := wal);
      && nd.wal <= wal && Synced(mid) && Moves(nd.log, mid.log, sent)
      && (forall i :: |nd.wal| <= i < cut ==> !wal[i].StateRecord?)
  {
    assert Midway(nd, after.wal[..cut], sent);
  }

  lemma PassageEnd(nd: NodeState, after: NodeState, sent: seq<Entry>)
    requires Passage(nd, after, sent)
    ensures after == nd.(log := after.log, wal := after.wal) && nd.wal <= after.wal && Synced(after)
    ensures Moves(nd.log, after.log, sent)
    ensures forall i :: |nd.wal| <= i < |after.wal| ==> !after.wal[i].StateRecord?
  {
    assert after.wal[..|after.wal|] == after.wal;
    assert Midway(nd, after.wal[..|after.wal|], sent);
  }
}
