/**
 The balance table: a map from principal to `u64` in which an absent principal
 holds zero. The functions here are the table updates `_transfer` performs;
 the lemmas state what they do to single balances and to the sum of all.
 */
module Balances {
  import opened TokenTypes

  type Balances = map<Principal, U64>

  /** `balance_of`: the stored amount, or zero when the principal has no entry. */
  function BalanceIn(m: Balances, who: Principal): U64
  {
    if who in m then m[who] else 0
  }

  /** No entry stores zero: every holder in the table holds something. */
  ghost predicate Compact(m: Balances)
  {
    forall who :: who in m ==> m[who] != 0
  }

  /** Some holder of a non-empty table, the one `Sum` takes out first. */
  ghost function Pick(m: Balances): (who: Principal)
    requires m != map[]
    ensures who in m
  {
    var who :| who in m; who
  }

  /** The sum of all balances. */
  ghost function Sum(m: Balances): nat
    decreases |m.Keys|
  {
    if m == map[] then 0
    else
      var who := Pick(m);
      assert |(m - {who}).Keys| < |m.Keys| by {
        assert (m - {who}).Keys == m.Keys - {who};
      }
      m[who] + Sum(m - {who})
  }

  /** The sum splits into any one balance and the sum of the rest. */
  lemma {:induction false} SumSplit(m: Balances, who: Principal)
    ensures Sum(m) == BalanceIn(m, who) + Sum(m - {who})
    decreases |m.Keys|
  {
    if who !in m {
      assert m - {who} == m;
    } else {
      var k := Pick(m);
      if k != who {
        assert ((m - {k}).Keys) == m.Keys - {k};
        assert ((m - {who}).Keys) == m.Keys - {who};
        SumSplit(m - {k}, who);
        SumSplit(m - {who}, k);
        assert m - {k} - {who} == m - {who} - {k};
      }
    }
  }

  /** Two tables that differ only at `who` have sums that differ by the difference there. */
  lemma SumFrame(m: Balances, r: Balances, who: Principal)
    requires r - {who} == m - {who}
    ensures Sum(r) + BalanceIn(m, who) == Sum(m) + BalanceIn(r, who)
  {
    SumSplit(m, who);
    SumSplit(r, who);
  }

  /** Two distinct holders together never hold more than the sum of all balances. */
  lemma SumCoversPair(m: Balances, a: Principal, b: Principal)
    requires a != b
    ensures BalanceIn(m, a) + BalanceIn(m, b) <= Sum(m)
  {
    SumSplit(m, a);
    SumSplit(m - {a}, b);
    assert BalanceIn(m - {a}, b) == BalanceIn(m, b);
  }

  /**
   The debit half of `_transfer`: lower `from` by `value`, dropping its entry
   when the result is zero. The `u64` subtraction must not underflow.
   */
  function Debit(m: Balances, from: Principal, value: U64): (r: Balances)
    requires value <= BalanceIn(m, from)
    ensures BalanceIn(r, from) == BalanceIn(m, from) - value
    ensures from in r <==> BalanceIn(m, from) != value
    ensures r - {from} == m - {from}
  {
    var newBalance := BalanceIn(m, from) - value;
    if newBalance != 0 then m[from := newBalance] else m - {from}
  }

  /**
   The credit half of `_transfer`: raise `to` by `value`, writing the entry only
   when the result is not zero. The `u64` addition must not overflow.
   */
  function Credit(m: Balances, to: Principal, value: U64): (r: Balances)
    requires BalanceIn(m, to) + value < U64_LIMIT
    ensures BalanceIn(r, to) == BalanceIn(m, to) + value
    ensures to in r <==> to in m || value != 0
    ensures r - {to} == m - {to}
  {
    var newBalance := BalanceIn(m, to) + value;
    if newBalance != 0 then m[to := newBalance] else m
  }

  /**
   What `_transfer` does to the table: the debit, then the credit read from the
   debited table. When `from == to` the credit re-reads the debited balance, so
   only `from != to` has an overflow to exclude.
   */
  function Move(m: Balances, from: Principal, to: Principal, value: U64): (r: Balances)
    requires value <= BalanceIn(m, from)
    requires from != to ==> BalanceIn(m, to) + value < U64_LIMIT
    ensures from != to ==> BalanceIn(r, from) == BalanceIn(m, from) - value
    ensures from != to ==> BalanceIn(r, to) == BalanceIn(m, to) + value
    ensures r - {from, to} == m - {from, to}
    ensures forall who :: who != from && who != to ==> BalanceIn(r, who) == BalanceIn(m, who)
  {
    var debited := Debit(m, from, value);
    assert from != to ==> BalanceIn(debited, to) == BalanceIn(m, to) by {
      if from != to {
        assert BalanceIn(debited - {from}, to) == BalanceIn(m - {from}, to);
      }
    }
    var r := Credit(debited, to, value);
    assert r - {from, to} == m - {from, to} by {
      assert r - {from, to} == (r - {to}) - {from};
      assert m - {from, to} == (m - {from}) - {to};
      assert (debited - {to}) - {from} == (debited - {from}) - {to};
    }
    r
  }

  /**
   A move to oneself changes no balance, even though the debit may have dropped
   the entry on the way; on a compact table it changes nothing at all.
   */
  lemma MoveToSelf(m: Balances, who: Principal, value: U64)
    requires value <= BalanceIn(m, who)
    ensures forall a :: BalanceIn(Move(m, who, who, value), a) == BalanceIn(m, a)
    ensures Compact(m) ==> Move(m, who, who, value) == m
  {
    var debited := Debit(m, who, value);
    var r := Move(m, who, who, value);
    assert BalanceIn(r, who) == BalanceIn(m, who);
    if Compact(m) {
      assert who in r <==> who in m;
      assert r.Keys == m.Keys by {
        assert r.Keys - {who} == (r - {who}).Keys;
        assert m.Keys - {who} == (m - {who}).Keys;
      }
      forall a | a in m
        ensures r[a] == m[a]
      {
        assert BalanceIn(r, a) == BalanceIn(m, a);
      }
    }
  }

  /** A move neither creates nor destroys tokens: the sum of all balances is unchanged. */
  lemma MoveConserves(m: Balances, from: Principal, to: Principal, value: U64)
    requires value <= BalanceIn(m, from)
    requires from != to ==> BalanceIn(m, to) + value < U64_LIMIT
    ensures Sum(Move(m, from, to, value)) == Sum(m)
  {
    var debited := Debit(m, from, value);
    SumFrame(m, debited, from);
    SumFrame(debited, Credit(debited, to, value), to);
  }

  /** A move keeps a compact table compact: it never leaves a zero entry behind. */
  lemma MoveKeepsCompact(m: Balances, from: Principal, to: Principal, value: U64)
    requires value <= BalanceIn(m, from)
    requires from != to ==> BalanceIn(m, to) + value < U64_LIMIT
    requires Compact(m)
    ensures Compact(Move(m, from, to, value))
  {
    var debited := Debit(m, from, value);
    var r := Credit(debited, to, value);
    forall a | a in debited
      ensures debited[a] != 0
    {
      if a != from {
        assert (debited - {from})[a] == (m - {from})[a];
      }
    }
    forall a | a in r
      ensures r[a] != 0
    {
      if a != to {
        assert (r - {to})[a] == (debited - {to})[a];
      }
    }
  }

  /**
   When the balances add up to at most the `u64` range (as they do while they
   add up to the total supply), the credit of a move between two distinct
   holders cannot overflow: only the debit check is ever needed.
   */
  lemma CreditFitsUnderSupply(m: Balances, from: Principal, to: Principal, value: U64)
    requires value <= BalanceIn(m, from)
    requires from != to
    requires Sum(m) < U64_LIMIT
    ensures BalanceIn(m, to) + value < U64_LIMIT
  {
    SumCoversPair(m, from, to);
  }
}
