/**
 The canister's global state — metadata, balance table and operation log —
 as one object, with the three operations that change it: `add_record`,
 `init` and `_transfer`.
 */
module TokenState {
  import opened TokenTypes
  import opened OpLog
  import opened Balances

  class Token {
    var metadata: Metadata
    var balances: Balances
    var ops: seq<OpRecord>

    /** The `add_record` calls made so far, oldest first. */
    ghost var calls: seq<Call>

    /** The log is exactly what those calls appended, one after the other, to an empty log. */
    ghost predicate Valid()
      reads this
    {
      ops == Replay(calls)
    }

    /** The state of a freshly installed canister: every global at its default. */
    constructor ()
      ensures Valid() && calls == []
      ensures metadata == DefaultMetadata() && balances == map[] && ops == []
    {
      metadata := DefaultMetadata();
      balances := map[];
      ops := [];
      calls := [];
    }

    /** `balance_of`: the stored balance, zero for a principal without an entry. */
    method BalanceOf(who: Principal) returns (b: U64)
      ensures b == BalanceIn(balances, who)
    {
      if who in balances {
        b := balances[who];
      } else {
        b := 0;
      }
    }

    /**
     `add_record`: append a record whose index is the current length of the log,
     and hand that index back as the receipt.
     */
    method AddRecord(caller: Option<Principal>, op: Operation, from: Principal, to: Principal,
                     amount: U64, fee: U64, timestamp: U64) returns (index: nat)
      requires Valid()
      modifies this`ops, this`calls
      ensures Valid() && Dense(ops)
      ensures calls == old(calls) + [Call(caller, op, from, to, amount, fee, timestamp)]
      ensures index == |old(ops)|
      ensures ops == old(ops) + [OpRecord(caller, op, index, from, to, amount, fee, timestamp)]
    {
      index := |ops|;
      ghost var c := Call(caller, op, from, to, amount, fee, timestamp);
      ReplayDense(calls);
      ReplayAppend(calls, c);
      ops := ops + [OpRecord(caller, op, index, from, to, amount, fee, timestamp)];
      calls := calls + [c];
      ReplayDense(calls);
    }

    /**
     `init`: overwrite the metadata fields one by one (the fee recipient is not
     among them), give the owner the whole supply and log the mint, from the
     management canister, with no fee.
     */
    method Init(logo: string, name: string, symbol: string, decimals: U8, totalSupply: U64,
                owner: Principal, fee: U64, now: U64)
      requires Valid()
      modifies this
      ensures Valid() && Dense(ops)
      ensures metadata == old(metadata).(logo := logo, name := name, symbol := symbol,
        decimals := decimals, totalSupply := totalSupply, owner := owner, fee := fee)
      ensures balances == old(balances)[owner := totalSupply]
      ensures ops == old(ops)
        + [OpRecord(Some(owner), Mint, |old(ops)|, MANAGEMENT_CANISTER, owner, totalSupply, 0, now)]
    {
      metadata := metadata.(logo := logo);
      metadata := metadata.(name := name);
      metadata := metadata.(symbol := symbol);
      metadata := metadata.(decimals := decimals);
      metadata := metadata.(totalSupply := totalSupply);
      metadata := metadata.(owner := owner);
      metadata := metadata.(fee := fee);
      balances := balances[owner := totalSupply];
      var _ := AddRecord(Some(owner), Mint, MANAGEMENT_CANISTER, owner, totalSupply, 0, now);
    }

    /**
     `_transfer`: move `value` from `from` to `to`, dropping the sender's entry
     when it reaches zero and never writing a zero entry for the receiver. The
     `u64` subtraction and addition are checked, so the sender must hold `value`
     and, for two distinct principals, the receiver's new balance must fit.
     */
    method InternalTransfer(from: Principal, to: Principal, value: U64)
      requires value <= BalanceIn(balances, from)
      requires from != to ==> BalanceIn(balances, to) + value < U64_LIMIT
      modifies this`balances
      ensures balances == Move(old(balances), from, to, value)
      ensures from != to ==> BalanceIn(balances, from) == BalanceIn(old(balances), from) - value
      ensures from != to ==> BalanceIn(balances, to) == BalanceIn(old(balances), to) + value
      ensures balances - {from, to} == old(balances) - {from, to}
      ensures from == to && Compact(old(balances)) ==> balances == old(balances)
      ensures Compact(old(balances)) ==> Compact(balances)
      ensures Sum(balances) == Sum(old(balances))
    {
      ghost var before := balances;
      var fromBalance := BalanceOf(from);
      var fromBalanceNew := fromBalance - value;
      if fromBalanceNew != 0 {
        balances := balances[from := fromBalanceNew];
      } else {
        balances := balances - {from};
      }
      assert balances == Debit(before, from, value);

      var toBalance := BalanceOf(to);
      assert from != to ==> toBalance == BalanceIn(before, to) by {
        if from != to {
          assert BalanceIn(balances - {from}, to) == BalanceIn(before - {from}, to);
        }
      }
      var toBalanceNew := toBalance + value;
      if toBalanceNew != 0 {
        balances := balances[to := toBalanceNew];
      }

      MoveToSelf(before, from, value);
      if Compact(before) {
        MoveKeepsCompact(before, from, to, value);
      }
      MoveConserves(before, from, to, value);
    }
  }

  /**
   A canister installed and initialised: its log holds the single mint at
   index 0, the owner holds the whole supply, the fee recipient keeps its
   anonymous default, and the balances add up to the total supply.
   */
  method Deploy(logo: string, name: string, symbol: string, decimals: U8, totalSupply: U64,
                owner: Principal, fee: U64, now: U64) returns (t: Token)
    ensures fresh(t) && t.Valid() && Dense(t.ops)
    ensures t.metadata == Metadata(logo, name, symbol, decimals, totalSupply, owner, fee, ANONYMOUS)
    ensures t.balances == map[owner := totalSupply]
    ensures BalanceIn(t.balances, owner) == totalSupply
    ensures t.ops == [OpRecord(Some(owner), Mint, 0, MANAGEMENT_CANISTER, owner, totalSupply, 0, now)]
    ensures Sum(t.balances) == t.metadata.totalSupply
    ensures Compact(t.balances) <==> totalSupply != 0
  {
    t := new Token();
    t.Init(logo, name, symbol, decimals, totalSupply, owner, fee, now);
    SumSplit(t.balances, owner);
    assert t.balances - {owner} == map[];
  }
}
