/**
 * Types shared by both versions of the Proof-of-Existence pallet: the
 * principal and claim types, the stored record, the signed origin and the
 * dispatch result the host runtime sees.
 */
module PoeTypes {

  /** Unsigned 64-bit integer: `AccountId` and `BlockNumber` of the mock runtime. */
  newtype u64 = x: int | 0 <= x < 0x1_0000_0000_0000_0000

  type AccountId = u64

  /** A claim is an opaque byte string, typically the hash of a document. */
  type Claim = seq<bv8>

  datatype Option<+T> = None | Some(value: T)

  /** A signed origin carries the sender; `None` is an unsigned origin. */
  type Origin = Option<AccountId>

  /** The stored value `(owner, block number)` of a registered claim. */
  datatype Record = Record(owner: AccountId, block: nat)

  /** `ensure_signed` fails with `BadOrigin`; a pallet error is wrapped in `Module`. */
  datatype DispatchError<+E> = BadOrigin | Module(error: E)

  datatype DispatchResult<+E> = Ok | Err(error: DispatchError<E>)

  /** Two maps agree on every key except `k`. */
  ghost predicate AgreeExcept<K(!new), V>(m: map<K, V>, m': map<K, V>, k: K)
  {
    forall j :: j != k ==> (j in m <==> j in m') && (j in m ==> m[j] == m'[j])
  }
}
