# Proof-of-Existence registry and bubble sort, modelled in Dafny

This project models two parts of the repository.

**The Proof-of-Existence (PoE) pallet.** It is a Substrate runtime module. Signed accounts use it to register, revoke and transfer short opaque byte strings called claims, typically document hashes. One storage map, `Proofs`, takes a claim to `(owner, block number)`. Three dispatch handlers change it:

- `create_claim` registers an unused claim for the sender.
- `revoke_claim` deletes a claim; only its owner may do so.
- `transfer_claim` hands a claim to `dest`; only its owner may do so. It also sets the stored block to the current one.

Each successful handler deposits one event. Each failing handler returns a tagged error. Every check comes before the first write, so a failing call changes nothing.

The pallet exists in two versions, and both are modelled:

- `poe.dfy` (module `Poe`) models the FRAME v2 pallet, `lesson6/benchmarks-poe/pallets/poe/src/lib.rs`.
- `poe_legacy.dfy` (module `PoeLegacy`) models the earlier `decl_module!` pallet in `advance_lesson1/test.rs`. This version checks the claim length only in `create_claim`. Its `Proofs` is a value query that returns a default record for an absent key. Its `transfer_claim` deposits no event.

Each handler appears in two forms:

- A transition function on a value `Chain`: `Create`, `Revoke` and `Transfer`. A `Chain` holds the bound, the current block, `Proofs` and the event log.
- A method of a class (`Poe.Pallet`, `PoeLegacy.PoeModule`) that holds the same four fields and updates them in place. Its postcondition ties the new fields and the result to the transition function.

`poe_runs.dfy` (module `PoeRuns`) models runs. A run is a sequence of calls that the host dispatches one after another, with blocks advancing between them. The module proves what holds of every run:

- keys stay within the bound;
- the event log is extended by exactly the events of the successful calls, in dispatch order, one per success;
- a record changes owner only through a call its owner signed.

`poe_legacy_runs.dfy` (module `PoeLegacyRuns`) does the same for the earlier pallet. There only `create_claim` checks the length, yet no run stores an over-long key. Since its `transfer_claim` deposits nothing, the log holds exactly the successful creates and revokes.

`poe_legacy_tests.dfy` restates the earlier pallet's unit tests (test.rs lines 219-341). Each test becomes a method that builds a fresh `PoeModule` and makes the same calls. Its postcondition is what the test asserts. The eight tests that use two-byte claims take `ClaimLength` as a parameter and hold for every value of at least 2, including the mock's 128. Only the length test depends on the value.

Shared types are in `poe_types.dfy`:

- An account is a `u64`, as in the mock runtime.
- A claim is a `seq<bv8>`.
- The signed origin is an `Option<AccountId>`; `None` stands for an unsigned origin, which `ensure_signed` rejects with `BadOrigin`.
- A pallet error reaches the host as `Module(error)`.

**`bubble_sort`** (`bubble.dfy`, module `Bubble`). It runs two nested loops that swap adjacent out-of-order cells in place. Elements are compared through a key function into `int`, which makes the order a total preorder. Two different elements can then have equal keys, so stability is a property with content. `Pass` and `Passes` describe the inner and outer loop as functions on sequences. Lemmas prove four things about the result of all passes:

- it is sorted;
- it is a permutation of the input;
- it is a stable rearrangement of the input;
- after outer pass `i`, the last `i + 1` cells hold the largest keys in order.

The method works on an `array` and its loop invariants tie the array to those functions.

## Model

| member | source | states |
|---|---|---|
| `Poe.TryBound` | lesson6/benchmarks-poe/pallets/poe/src/lib.rs:72-73 | `BoundedVec::try_from` succeeds iff the claim is at most `MaxClaimLength` bytes, and the bounded claim is byte-equal to the input |
| `Poe.Get` | lesson6/benchmarks-poe/pallets/poe/src/lib.rs:91 | the option query `Proofs::get` answers a record iff the key is stored, and then the stored record |
| `Poe.Create` | lesson6/benchmarks-poe/pallets/poe/src/lib.rs:68-83 | success iff signed, within the bound and unused. Each error is characterised by exactly its condition: `BadOrigin`, `ClaimTooLong` (decided before storage is read), `ProofAlreadyExist`. A failure leaves the whole state unchanged. Success maps the claim to `(sender, current block)`, keeps every other key and appends exactly `ClaimCreated(sender, claim)` |
| `Poe.Revoke` | lesson6/benchmarks-poe/pallets/poe/src/lib.rs:85-99 | success iff signed, within the bound, stored and owned by the sender. Each of `BadOrigin`, `ClaimTooLong`, `ClaimNotExist`, `NotClaimOwner` holds exactly under its condition. A failure changes nothing. Success removes only that key and appends `ClaimRevoked(sender, claim)` |
| `Poe.Transfer` | lesson6/benchmarks-poe/pallets/poe/src/lib.rs:101-122 | the same success and error conditions as revoke. Success sets the record to `(dest, current block)`, also when `dest` is the sender, keeps every other key and appends `ClaimTransferred(sender, dest, claim)` |
| `Poe.CreateThenRevoke` | lesson6/benchmarks-poe/pallets/poe/src/lib.rs:69-98 | a successful create followed by a revoke from the same sender succeeds and restores `Proofs` exactly; a second revoke fails with `ClaimNotExist` |
| `Poe.TransferThenOldOwnerCannotRevoke` | lesson6/benchmarks-poe/pallets/poe/src/lib.rs:111-117 | after a successful transfer to another account, the former owner's revoke fails with `NotClaimOwner` |
| `Poe.Pallet.constructor` | lesson6/benchmarks-poe/pallets/poe/src/lib.rs:38-45 | genesis: empty `Proofs`, empty event log, and the storage invariant holds |
| `Poe.Pallet.Proofs` | lesson6/benchmarks-poe/pallets/poe/src/lib.rs:39 | the getter `proofs` answers the stored record iff the key is present |
| `Poe.Pallet.CreateClaim` | lesson6/benchmarks-poe/pallets/poe/src/lib.rs:68-83 | the in-place handler leaves fields and result exactly as `Create` describes, and keeps the storage invariant |
| `Poe.Pallet.RevokeClaim` | lesson6/benchmarks-poe/pallets/poe/src/lib.rs:85-99 | the in-place handler leaves fields and result exactly as `Revoke` describes, and keeps the storage invariant |
| `Poe.Pallet.TransferClaim` | lesson6/benchmarks-poe/pallets/poe/src/lib.rs:101-122 | the in-place handler leaves fields and result exactly as `Transfer` describes, and keeps the storage invariant |
| `PoeRuns.EventOf` | lesson6/benchmarks-poe/pallets/poe/src/lib.rs:76-120 | a signed create, revoke or transfer has exactly one event, the one its handler deposits; an unsigned call or a new block has none |
| `PoeRuns.Apply` | lesson6/benchmarks-poe/pallets/poe/src/lib.rs:67-123 | one dispatch or block change. It keeps the invariant: keys within `MaxClaimLength` and no record from a future block. The log is extended by exactly the call's own event when the dispatch succeeds, and is unchanged otherwise; so it grows by one event exactly when a dispatch succeeds. A failure leaves `Proofs` unchanged. A stored record loses its key or its owner only through a successful revoke or transfer of that claim signed by its owner |
| `PoeRuns.Run` | lesson6/benchmarks-poe/pallets/poe/src/lib.rs:67-123 | a run yields one result per call, keeps `MaxClaimLength` and never moves the block number back |
| `PoeRuns.RunValid` | lesson6/benchmarks-poe/pallets/poe/src/lib.rs:40-45 | every state reachable from a valid one keeps all keys within `MaxClaimLength` and all stored blocks at or before the current block |
| `PoeRuns.RunEvents` | lesson6/benchmarks-poe/pallets/poe/src/lib.rs:76-120 | over a run the new log is the old log followed by the events of the successful dispatches, each with its own sender, claim and destination, in dispatch order |
| `PoeRuns.RunEventCount` | lesson6/benchmarks-poe/pallets/poe/src/lib.rs:76-120 | over a run the log grows by exactly as many events as there were successful dispatches |
| `PoeRuns.RunOwnerChange` | lesson6/benchmarks-poe/pallets/poe/src/lib.rs:91-113 | if a record stored at the start of a run is gone or has another owner at its end, some call of the run was a revoke or transfer of that claim signed by the original owner, and it succeeded |
| `PoeLegacy.Get` | advance_lesson1/test.rs:37 | the value query `Proofs::get` answers the stored record for a present key and the default `(0, 0)` for an absent one |
| `PoeLegacy.Create` | advance_lesson1/test.rs:77-93 | success iff signed, at most `ClaimLength` bytes and unused. `BadOrigin`, `ClaimLengthTooLarge` and `ProofAlreadyExist` each hold exactly under their condition. A failure changes nothing. Success stores `(sender, current block)`, keeps other keys and appends `ClaimCreated` |
| `PoeLegacy.Revoke` | advance_lesson1/test.rs:98-115 | no length check: success iff signed, stored and owned by the sender. `CalimNotExist` holds for any absent claim, of any length, and `NotClaimOwner` for another owner's claim. A failure changes nothing. Success removes only that key and appends `ClaimRevoked` |
| `PoeLegacy.Transfer` | advance_lesson1/test.rs:119-134 | no length check and the same conditions as revoke. It never changes the event log. Success overwrites an existing key only, with `(dest, current block)`, and keeps other keys |
| `PoeLegacy.LongClaimIsAbsent` | advance_lesson1/test.rs:100-106 | in a valid state, revoking or transferring a claim longer than `ClaimLength` fails with `CalimNotExist`, which is where the FRAME v2 pallet answers `ClaimTooLong` |
| `PoeLegacyRuns.EventOf` | advance_lesson1/test.rs:90-134 | a signed create or revoke has exactly one event, the one its handler deposits; a transfer, an unsigned call or a new block has none |
| `PoeLegacyRuns.Apply` | advance_lesson1/test.rs:77-134 | one dispatch or block change keeps every key within `ClaimLength`. Only `create_claim` can add a key. The block advances only on a new block. The log is extended by exactly the call's own event when the dispatch succeeds, and is unchanged otherwise |
| `PoeLegacyRuns.Run` | advance_lesson1/test.rs:77-134 | a run yields one result per call and keeps `ClaimLength` |
| `PoeLegacyRuns.RunEvents` | advance_lesson1/test.rs:90-134 | over a run the new log is the old log followed by the events of the successful creates and revokes, in dispatch order; transfers add nothing |
| `PoeLegacyRuns.RunValid` | advance_lesson1/test.rs:83-131 | although only create checks the length, no run from a valid state ever stores a key longer than `ClaimLength` |
| `PoeLegacy.PoeModule.constructor` | advance_lesson1/test.rs:31-39 | genesis: empty storage and log; the invariant holds |
| `PoeLegacy.PoeModule.Proofs` | advance_lesson1/test.rs:37 | the getter `proofs` answers the stored record, or the default record for an absent key |
| `PoeLegacy.PoeModule.CreateClaim` | advance_lesson1/test.rs:77-93 | the in-place handler leaves fields and result exactly as `PoeLegacy.Create` describes, and keeps the invariant |
| `PoeLegacy.PoeModule.RevokeClaim` | advance_lesson1/test.rs:98-115 | the in-place handler leaves fields and result exactly as `PoeLegacy.Revoke` describes, and keeps the invariant |
| `PoeLegacy.PoeModule.TransferClaim` | advance_lesson1/test.rs:119-134 | the in-place handler leaves fields and result exactly as `PoeLegacy.Transfer` describes, and keeps the invariant |
| `PoeLegacyTests.CreateClaimWorks` | advance_lesson1/test.rs:220-229 | account 1 creating `[0, 1]` succeeds and `proofs([0, 1])` is `(1, block)`, for every `ClaimLength` of at least 2, the mock's 128 included |
| `PoeLegacyTests.CreateClaimFailedWhenClaimAlreadyExist` | advance_lesson1/test.rs:232-243 | a second create of `[0, 1]` fails with `ProofAlreadyExist` and leaves the state as it was, for every `ClaimLength` of at least 2, the mock's 128 included |
| `PoeLegacyTests.RevokeClaimWorks` | advance_lesson1/test.rs:246-254 | the owner's revoke succeeds, empties `Proofs` and leaves the log `ClaimCreated(1, [0, 1])`, `ClaimRevoked(1, [0, 1])`, for every `ClaimLength` of at least 2, the mock's 128 included |
| `PoeLegacyTests.RevokeClaimFailedWhenClaimIsNotExist` | advance_lesson1/test.rs:257-267 | revoking in an empty registry fails with `CalimNotExist` and changes nothing, for every `ClaimLength` of at least 2, the mock's 128 included |
| `PoeLegacyTests.RevokeClaimFailedWhenIsNotOwner` | advance_lesson1/test.rs:270-282 | account 2 revoking account 1's claim fails with `NotClaimOwner` and changes nothing, for every `ClaimLength` of at least 2, the mock's 128 included |
| `PoeLegacyTests.TransferClaimWorks` | advance_lesson1/test.rs:285-300 | transfer from 1 to 23 succeeds and stores `(23, block)` without an event; afterwards revoking as 1 fails with `NotClaimOwner` and changes nothing, for every `ClaimLength` of at least 2, the mock's 128 included |
| `PoeLegacyTests.TransferClaimFailedWhenIsTransferOwner` | advance_lesson1/test.rs:303-314 | account 2 transferring account 1's claim fails with `NotClaimOwner` and changes nothing, for every `ClaimLength` of at least 2, the mock's 128 included |
| `PoeLegacyTests.TransferClaimFailedWhenClaimNoExist` | advance_lesson1/test.rs:317-329 | transferring `[2, 3]`, never created, fails with `CalimNotExist` and changes nothing, for every `ClaimLength` of at least 2, the mock's 128 included |
| `PoeLegacyTests.CreateClaimTooLargeAsWritten` | advance_lesson1/test.rs:195-198 | with the mock's `ClaimLength` of 128, creating `[0, 1, 2]` succeeds, so the length test's expected error does not occur |
| `PoeLegacyTests.CreateClaimFailedWhenClaimLengthIsTooLarge` | advance_lesson1/test.rs:331-341 | with the intended bound of 2, creating `[0, 1, 2]` fails with `ClaimLengthTooLarge` and changes nothing |
| `Bubble.Swapped` | bubble/src/main.rs:5 | `swap(x, x + 1)` exchanges exactly those two cells and preserves the multiset of elements |
| `Bubble.Step` | bubble/src/main.rs:4-5 | one comparison keeps the length and leaves the two cells in key order. It leaves the list as it was when their keys are already in order, and otherwise exchanges exactly those two cells |
| `Bubble.StepPermutation` | bubble/src/main.rs:4-5 | a comparison keeps the multiset of elements |
| `Bubble.Pass` | bubble/src/main.rs:3-7 | the inner loop keeps the length of the list |
| `Bubble.Passes` | bubble/src/main.rs:2-8 | the outer loop keeps the length of the list |
| `Bubble.BubbleSorted` | bubble/src/main.rs:1-10 | the vector `bubble_sort` leaves keeps its length; its order, permutation and stability are stated by `Bubble.BubbleSortedCorrect` |
| `Bubble.StepKeepsPassInvariant` | bubble/src/main.rs:4-5 | one comparison keeps the inner-loop invariant. A strict inversion never lies in the finished suffix, and the cell just passed holds the largest key so far |
| `Bubble.PassKeepsInvariant` | bubble/src/main.rs:3-7 | at every position of pass `i` the last `i` cells stay finished and the current cell holds the largest key of the prefix |
| `Bubble.PassesTopSorted` | bubble/src/main.rs:2-8 | after outer pass `i` the last `i + 1` cells hold the largest keys in non-decreasing order |
| `Bubble.PassPermutation` | bubble/src/main.rs:3-7 | a pass is a permutation: the multiset of elements is unchanged |
| `Bubble.PassesPermutation` | bubble/src/main.rs:2-8 | any number of passes leaves the multiset of elements unchanged |
| `Bubble.SwapKeepsStable` | bubble/src/main.rs:4-5 | swapping two neighbours whose keys are strictly out of order keeps a one-to-one origin map under which equal keys stay in their original order |
| `Bubble.PassStable` | bubble/src/main.rs:3-7 | a pass keeps the list a stable rearrangement of the original |
| `Bubble.PassesStable` | bubble/src/main.rs:2-8 | after any number of passes the list is a stable rearrangement of the input |
| `Bubble.BubbleSortedCorrect` | bubble/src/main.rs:1-10 | `BubbleSorted`, the result of all passes, has the input's length, is sorted, is a permutation of the input and is stable |
| `Bubble.Swap` | bubble/src/main.rs:5 | the in-place `Vec::swap` of neighbours leaves the array as `Swapped` describes |
| `Bubble.BubbleSort` | bubble/src/main.rs:1-10 | it sorts in place and returns the same array. Afterwards the array is sorted, a permutation of its old contents and a stable rearrangement of them. On an empty list the outer loop never runs, so `len() - 1` is never evaluated |

## Left out

- FRAME machinery is not modelled:
  - the `#[pallet::*]` attributes, `decl_storage!`/`decl_module!`, `Hooks` and `generate_store`;
  - the `Blake2_128Concat` hasher: storage is a plain map keyed by the claim bytes;
  - the internals of `ensure_signed`, replaced by the origin as an `Option`;
  - the host's transactional rollback, which the model does not need because every check precedes the first write.
- Weights and benchmarking (`T::WeightInfo::*`) are generated cost tables whose code is not part of this model. They are left out, and so is the `claim.len() as u32` conversion that feeds them.
- The mock runtime is left out except for three things: `AccountId = u64`, `ClaimLength` (a parameter of the tests that do not depend on its value) and the genesis block. Its `Event = ()` discards events; the model keeps the log the pallet deposits into.
- Block numbers are unbounded naturals: the model has no 64-bit wrap-around of `BlockNumber`. `MaxClaimLength` (a `u32`) and `ClaimLength` (a `usize`) are naturals as well. Neither value can overflow in the comparisons the code makes.
- The host's advance to a new block is modelled only as the `NewBlock` call of a run. The classes take the current block number at construction.
- The functions `main`, their `println!` output, and `add/src/main.rs`, `trafic/src/main.rs` and `draw/src/main.rs` are left out. Those three files do not form compilable code.
- `Bubble.BubbleSort`: Rust's `PartialOrd` comparison is modelled as a comparison of integer keys, which is a total preorder. Partially ordered values such as a floating-point NaN are out of scope.
- The model follows the code of each version as it stands:
  - the earlier pallet checks the length only in `create_claim`;
  - its `transfer_claim` deposits no event;
  - both pallets store the current block on transfer rather than keeping the creation block.

## Findings

| source | as written | input that shows it | evidently intended | confidence | as-written member | corrected member |
|---|---|---|---|---|---|---|
| advance_lesson1/test.rs:195-198 | the mock sets `ClaimLength` to 128, while the comment above it gives the maximum as 2 | `create_claim(Origin::signed(1), vec![0, 1, 2])` succeeds under the mock, so `create_claim_failed_when_claim_length_is_too_large` (lines 331-341), which expects `ClaimLengthTooLarge`, fails | `ClaimLength` of 2, under which all nine tests hold | not executed; high | `PoeLegacyTests.CreateClaimTooLargeAsWritten` | `PoeLegacyTests.CreateClaimFailedWhenClaimLengthIsTooLarge` |
