/**
 The append-only operation log. A record is built from the arguments of one
 `add_record` call and the index the log assigns it.
 */
module OpLog {
  import opened TokenTypes

  /** The arguments of one `add_record` call: a record still without its index. */
  datatype Call = Call(
    caller: Option<Principal>,
    op: Operation,
    from: Principal,
    to: Principal,
    amount: U64,
    fee: U64,
    timestamp: U64
  )

  /** The record that `add_record` stores for call `c` when it assigns index `i`. */
  function Stamp(c: Call, i: nat): OpRecord
  {
    OpRecord(c.caller, c.op, i, c.from, c.to, c.amount, c.fee, c.timestamp)
  }

  /** Every record sits at the position its index names. */
  ghost predicate Dense(log: seq<OpRecord>)
  {
    forall i :: 0 <= i < |log| ==> log[i].index == i
  }

  /** The log left by `add_record` calls `calls`, made one after the other on an empty log. */
  function Replay(calls: seq<Call>): seq<OpRecord>
  {
    if calls == [] then []
    else
      var log := Replay(calls[..|calls| - 1]);
      log + [Stamp(calls[|calls| - 1], |log|)]
  }

  /**
   Replaying calls from an empty log gives one record per call, in call order,
   the k-th call carrying index k: the receipts handed out are 0, 1, 2, ...
   */
  lemma {:induction false} ReplayDense(calls: seq<Call>)
    ensures |Replay(calls)| == |calls|
    ensures forall k :: 0 <= k < |calls| ==> Replay(calls)[k] == Stamp(calls[k], k)
    ensures Dense(Replay(calls))
  {
    if calls != [] {
      var prefix := calls[..|calls| - 1];
      ReplayDense(prefix);
      forall k | 0 <= k < |calls|
        ensures Replay(calls)[k] == Stamp(calls[k], k)
      {
        if k < |prefix| {
          assert calls[k] == prefix[k];
        }
      }
    }
  }

  /** One more call appends exactly one record, indexed by the number of calls before it. */
  lemma ReplayAppend(calls: seq<Call>, c: Call)
    ensures Replay(calls + [c]) == Replay(calls) + [Stamp(c, |calls|)]
  {
    assert (calls + [c])[..|calls|] == calls;
    ReplayDense(calls);
  }
}
