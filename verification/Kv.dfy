/** The replicated state machine (internal/kv/store.go). */
module Kv {
  import opened Storage

  type Data = map<string, string>

  function ApplyEntry(data: Data, e: Entry): Data {
    if e.operation == OP_SET then data[e.key := e.value]
    else if e.operation == OP_DELETE then data - {e.key}
    else data
  }

  /** The map reached by applying a log from the empty store, oldest entry first. */
  function Fold(log: seq<Entry>): Data {
    if log == [] then map[] else ApplyEntry(Fold(log[..|log| - 1]), log[|log| - 1])
  }

  lemma FoldStep(log: seq<Entry>, k: nat)
    requires k < |log|
    ensures Fold(log[..k + 1]) == ApplyEntry(Fold(log[..k]), log[k])
  {
    assert log[..k + 1][..k] == log[..k];
  }

  predicate Touches(e: Entry, k: string) {
    e.key == k && (e.operation == OP_SET || e.operation == OP_DELETE)
  }

  /** Entry `i` sets `k` and nothing after it touches `k`. */
  ghost predicate LastSet(log: seq<Entry>, i: int, k: string) {
    && 0 <= i < |log| && log[i].operation == OP_SET && log[i].key == k
    && forall j :: i < j < |log| ==> !Touches(log[j], k)
  }

  /** The map holds exactly the last writes: a key is there if and only if the last entry to touch it set it. */
  lemma {:induction false} ReadsLastWrite(log: seq<Entry>, k: string)
    ensures k in Fold(log) <==> exists i :: LastSet(log, i, k)
    ensures forall i :: LastSet(log, i, k) ==> k in Fold(log) && Fold(log)[k] == log[i].value
    decreases |log|
  {
    if log != [] {
      var init, last := log[..|log| - 1], log[|log| - 1];
      ReadsLastWrite(init, k);
      if Touches(last, k) {
        if last.operation == OP_SET {
          assert LastSet(log, |log| - 1, k);
        }
      } else {
        forall i ensures LastSet(log, i, k) <==> LastSet(init, i, k) {
          if LastSet(init, i, k) {
            assert forall j :: i < j < |init| ==> log[j] == init[j];
          }
        }
      }
    }
  }

  class Store {
    var data: Data

    constructor ()
      ensures data == map[]
    {
      data := map[];
    }

    method Set(k: string, v: string)
      modifies this
      ensures data == old(data)[k := v]
    {
      data := data[k := v];
    }

    method Delete(k: string)
      modifies this
      ensures data == old(data) - {k}
    {
      data := data - {k};
    }

    method Get(k: string) returns (v: string, ok: bool)
      ensures ok <==> k in data
      ensures v == if k in data then data[k] else ""
    {
      ok := k in data;
      v := if ok then data[k] else "";
    }

    /** A copy: changing the result later cannot change the store. */
    method GetAll() returns (copy: Data)
      ensures copy == data
    {
      copy := map[];
      var rest := data.Keys;
      while rest != {}
        invariant rest <= data.Keys
        invariant copy.Keys == data.Keys - rest
        invariant forall k :: k in copy ==> copy[k] == data[k]
        decreases |rest|
      {
        var k :| k in rest;
        copy := copy[k := data[k]];
        rest := rest - {k};
      }
    }
  }
}
