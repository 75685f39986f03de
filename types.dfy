/**
 The value types of the token canister: principals, the fixed-width integers
 the ledger stores, the token metadata and the records of the operation log.
 */
module TokenTypes {

  /** Rust's `u64`; the ledger's arithmetic on it is modelled with overflow checks enabled. */
  const U64_LIMIT: int := 0x1_0000_0000_0000_0000

  type U64 = x: int | 0 <= x < U64_LIMIT

  type U8 = x: int | 0 <= x < 0x100

  /** An Internet Computer principal: an opaque blob of bytes, compared by value. */
  datatype Principal = Principal(bytes: seq<bv8>)

  /** The principal written "aaaaa-aa" (the empty blob); the genesis mint is recorded as coming from it. */
  const MANAGEMENT_CANISTER: Principal := Principal([])

  /** The anonymous principal (the blob 0x04), the default owner and fee recipient. */
  const ANONYMOUS: Principal := Principal([4])

  datatype Option<+T> = None | Some(value: T)

  datatype Result<+T, +E> = Ok(value: T) | Err(error: E)

  /** The token's configuration, held by the canister as one mutable record. */
  datatype Metadata = Metadata(
    logo: string,
    name: string,
    symbol: string,
    decimals: U8,
    totalSupply: U64,
    owner: Principal,
    fee: U64,
    feeTo: Principal
  )

  /** `Metadata::default`: empty strings, zero numbers and the anonymous principal. */
  function DefaultMetadata(): Metadata
  {
    Metadata("", "", "", 0, 0, ANONYMOUS, 0, ANONYMOUS)
  }

  datatype Operation = Mint | Transfer | TransferFrom | Approve

  /** One entry of the operation log; `index` is its position in the log. */
  datatype OpRecord = OpRecord(
    caller: Option<Principal>,
    op: Operation,
    index: nat,
    from: Principal,
    to: Principal,
    amount: U64,
    fee: U64,
    timestamp: U64
  )

  datatype TxError = InsufficientBalance | InsufficientAllowance

  /** What a mutating call answers: the index of its log record, or why it was rejected. */
  type TxReceipt = Result<nat, TxError>
}
