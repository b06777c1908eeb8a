/** Log entries, write-ahead-log records and their replay (internal/storage/wal.go, internal/raft/node.go). */
module Storage {

  type NodeId = string

  // The empty string is not a node: it stands for "no vote cast".
  const NO_VOTE: NodeId := ""

  const OP_SET: string := "SET"
  const OP_DELETE: string := "DELETE"

  datatype Entry = Entry(index: int, term: nat, operation: string, key: string, value: string)

  datatype Record =
    | StateRecord(term: nat, votedFor: NodeId)
    | EntryRecord(entry: Entry)
    | TruncateRecord(lastKept: int)
    | CommitRecord(commitIndex: int)

  /** The part of a node that survives a crash. */
  datatype Durable = Durable(currentTerm: nat, votedFor: NodeId, log: seq<Entry>, commitIndex: int)

  const FRESH: Durable := Durable(0, NO_VOTE, [], -1)

  function ReplayRecord(d: Durable, r: Record): Durable {
    match r
    case StateRecord(term, votedFor) => d.(currentTerm := term, votedFor := votedFor)
    case EntryRecord(entry) => d.(log := d.log + [entry])
    case TruncateRecord(lastKept) =>
      var length := lastKept + 1;
      if 0 <= length < |d.log| then d.(log := d.log[..length])
      else if length <= 0 then d.(log := [])
      else d
    case CommitRecord(commitIndex) =>
      if commitIndex > d.commitIndex then d.(commitIndex := commitIndex) else d
  }

  function Replay(wal: seq<Record>): Durable {
    if wal == [] then FRESH else ReplayRecord(Replay(wal[..|wal| - 1]), wal[|wal| - 1])
  }

  lemma ReplayAppend(wal: seq<Record>, r: Record)
    ensures Replay(wal + [r]) == ReplayRecord(Replay(wal), r)
  {
    assert (wal + [r])[..|wal|] == wal;
  }

  /** The replayed commit index is the maximum over the records, so it only grows with the file. */
  lemma {:induction false} ReplayCommitGrows(wal: seq<Record>, longer: seq<Record>)
    requires wal <= longer
    ensures Replay(wal).commitIndex <= Replay(longer).commitIndex
    decreases |longer|
  {
    if |wal| < |longer| {
      var shorter := longer[..|longer| - 1];
      assert wal <= shorter;
      ReplayCommitGrows(wal, shorter);
    } else {
      assert wal == longer;
    }
  }
}
