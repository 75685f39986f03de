# ic-token ledger core in Dafny

A model of the bookkeeping core of the `ic-token` fungible-token canister
(`src/ic-token/src/main.rs`). The canister keeps three pieces of global
state: the token `Metadata`, a balance table from principal to `u64`, and an
append-only log of `OpRecord`s. Three functions change that state:

- `add_record` appends a record whose index is the log's current length and
  returns that index as the receipt;
- `init` writes the metadata, gives the owner the whole supply and logs a
  `Mint` from the management canister (`"aaaaa-aa"`) with fee 0;
- `_transfer` moves an amount between two balances, removing the sender's
  entry when it reaches zero and never inserting a zero entry for the receiver.

Layout:

- `types.dfy` (module `TokenTypes`): principals, `U64`/`U8` as bounded
  integers, `Metadata` and its default, `Operation`, `OpRecord`, `TxError`,
  `TxReceipt`.
- `oplog.dfy` (module `OpLog`): the record an `add_record` call stores
  (`Stamp`), the log left by a sequence of calls (`Replay`), and density of
  indices.
- `balances.dfy` (module `Balances`): the table as a value, `balance_of` with
  its zero default (`BalanceIn`), the sum of all balances, and the two halves
  of `_transfer` (`Debit`, `Credit`, composed as `Move`) with their lemmas.
- `token.dfy` (module `TokenState`): class `Token` holding the canister's
  global state as fields, whose methods `AddRecord`, `Init` and
  `InternalTransfer` update it in place, each proved against the functions
  above; `Deploy` is a fresh canister followed by `init`.

Modelling choices:

- A principal is a value wrapping its byte blob. `"aaaaa-aa"` is the empty
  blob (`MANAGEMENT_CANISTER`), and `Principal::anonymous()` is the blob
  `0x04` (`ANONYMOUS`).
- `balance_of` is defined elsewhere in the program and called by `_transfer`.
  It is modelled as "the stored value if present, else 0", the reading that
  the remove-on-zero logic of `_transfer` relies on.
- `u64` arithmetic is modelled with overflow checks enabled, so an underflow
  or overflow would abort the call rather than wrap. `_transfer` therefore
  takes as preconditions exactly what keeps its arithmetic in range:
  - the sender must hold `value`;
  - when sender and receiver differ, the receiver's balance plus `value` must
    fit in `u64`;
  - when they are the same principal, the receiver's balance is re-read after
    the debit, so the addition cannot overflow.

  `CreditFitsUnderSupply` shows the second condition follows from the first
  whenever the balances add up to less than 2^64.
- The host's `ic::time()` becomes a parameter `now`. The host's global
  variables (`ic::get_mut`) become the fields of `Token`.
- `init` inserts the owner's entry even when `total_supply` is 0. A table
  created that way holds a zero entry. `Deploy` states that the table is
  compact (free of zero entries) exactly when the supply is non-zero. The
  compactness lemmas therefore assume a compact table to start from.

## Model

| member | source | states |
|---|---|---|
| `TokenState.Token.constructor` | src/ic-token/src/main.rs:42-55 | a fresh canister holds `Metadata::default` (empty strings, zero numbers, anonymous owner and fee recipient), an empty balance table and an empty log |
| `TokenState.Token.BalanceOf` | src/ic-token/src/main.rs:165 | `balance_of` returns `BalanceIn` of the table: the stored balance of a principal with an entry, 0 for one without |
| `TokenState.Token.AddRecord` | src/ic-token/src/main.rs:100-122 | returns the log length before the call; the log grows by exactly that one record (the given caller, op, from, to, amount, fee, timestamp, with index equal to the receipt), earlier records untouched; the log stays dense |
| `TokenState.Token.Init` | src/ic-token/src/main.rs:133-161 | overwrites the seven metadata fields it names and keeps `fee_to`; sets the owner's balance to the total supply; appends one `Mint` record from `"aaaaa-aa"` to the owner, caller the owner, fee 0, at the next index |
| `TokenState.Token.InternalTransfer` | src/ic-token/src/main.rs:163-178 | the new table is `Move` of the old one: for distinct principals the sender loses and the receiver gains `value`, every other entry is unchanged; a self-transfer on a compact table changes nothing; compactness and the sum of balances are preserved |
| `TokenState.Deploy` | src/ic-token/src/main.rs:131-161 | after `init` on a fresh canister the owner holds the total supply, the log is the single `Mint` at index 0, the metadata are the arguments with `fee_to` anonymous, the balances add up to the total supply, and the table is compact iff the supply is non-zero |
| `OpLog.ReplayDense` | src/ic-token/src/main.rs:109-121 | successive `add_record` calls on an empty log produce one record per call, in call order, the k-th with index k (receipts 0, 1, 2, ...): the log is dense |
| `OpLog.ReplayAppend` | src/ic-token/src/main.rs:110-114 | one more call appends exactly one record, indexed by the number of earlier calls, and leaves the earlier log as it was |
| `Balances.Debit` | src/ic-token/src/main.rs:164-171 | the sender's balance drops by exactly `value` (which it must cover); its entry is gone iff the new balance is zero; no other entry changes |
| `Balances.Credit` | src/ic-token/src/main.rs:173-177 | the receiver's balance rises by exactly `value` (the sum must fit in `u64`); an entry is created only for a non-zero amount; no other entry changes |
| `Balances.Move` | src/ic-token/src/main.rs:163-178 | for distinct principals the sender loses and the receiver gains exactly `value`; every other principal keeps its entry and its balance; overflow is excluded only for distinct principals |
| `Balances.MoveToSelf` | src/ic-token/src/main.rs:165-177 | a transfer to oneself changes no balance even though the debit may remove the entry on the way; on a compact table the whole table is unchanged |
| `Balances.MoveConserves` | src/ic-token/src/main.rs:163-178 | the sum of all balances is the same before and after a transfer |
| `Balances.MoveKeepsCompact` | src/ic-token/src/main.rs:167-177 | a transfer on a table without zero entries leaves a table without zero entries |
| `Balances.CreditFitsUnderSupply` | src/ic-token/src/main.rs:173-174 | while the balances add up to less than 2^64, the receiver's checked addition cannot overflow once the sender covers `value` |

## Left out

- `transfer`, `transfer_from`, `approve`, the fee split and the allowance table (`Allowances`, line 58): the public entry points that call `_transfer` and the allowance logic are out of scope. `TxError` and `TxReceipt` are declared as data types only.
- `balance_of` is defined elsewhere in the program and is not part of this model. It is modelled as "stored value or zero".
- `UpgradePayload` (lines 61-66) and the Candid/Serde derives: serialization is macro-generated and has no logic to model.
- `TokenInfo` (lines 32-40): host status fields (cycles, deploy time, holder count) with no logic shown.
- Host plumbing: the `#[init]`/`#[candid_method]` attributes, `ic::get_mut` and `ic::time()`. Time is a parameter, and global state is the fields of `Token`.
- `Principal::from_text("aaaaa-aa").unwrap()` is not parsed. It is the constant `MANAGEMENT_CANISTER`.
- `OpRecord.index` is `usize` in the source. It is a `nat` here, so a log long enough to exhaust `usize` is not modelled.
- Arithmetic in a build without overflow checks, where `u64` subtraction would wrap instead of aborting, is not modelled. `_transfer` is taken with checked arithmetic, and its range conditions are preconditions.
- The browser front end (`src/ic_token_assets/src/index.js`) is UI and network code.
