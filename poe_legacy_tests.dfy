/**
 * The unit tests of the `decl_module!` pallet (`advance_lesson1/test.rs`),
 * each a method that builds a fresh `PoeModule` for the mock runtime and
 * makes the same calls. What a test asserts becomes its postcondition;
 * `assert_noop!` becomes "this error, and the state is the one before".
 * The tests that use only two-byte claims hold for every `ClaimLength` of
 * at least 2, the mock's 128 included; only the length test depends on it.
 */
module PoeLegacyTests {
  import opened PoeTypes
  import opened PoeLegacy

  /** `ClaimLength` as the mock runtime sets it. */
  const MockClaimLength: nat := 128

  /** `ClaimLength` as the comment above it and the length test intend it. */
  const IntendedClaimLength: nat := 2

  /** `create_claim_works`: account 1 registers `[0, 1]` at the current block. */
  method CreateClaimWorks(claimLength: nat, block: nat) returns (r: Result, stored: Record)
    requires claimLength >= 2
    ensures r == Ok && stored == Record(1, block)
  {
    var pallet := new PoeModule(claimLength, block);
    r := pallet.CreateClaim(Some(1), [0, 1]);
    stored := pallet.Proofs([0, 1]);
  }

  /** `create_claim_failed_when_claim_already_exist`. */
  method CreateClaimFailedWhenClaimAlreadyExist(claimLength: nat, block: nat) returns (r: Result, before: Chain, after: Chain)
    requires claimLength >= 2
    ensures r == Err(Module(ProofAlreadyExist)) && after == before
    ensures before.proofs == map[[0, 1] := Record(1, block)]
  {
    var pallet := new PoeModule(claimLength, block);
    var _ := pallet.CreateClaim(Some(1), [0, 1]);
    before := pallet.State();
    r := pallet.CreateClaim(Some(1), [0, 1]);
    after := pallet.State();
  }

  /** `revoke_claim_works`, with the removed key and the event it deposits. */
  method RevokeClaimWorks(claimLength: nat, block: nat) returns (r: Result, after: Chain)
    requires claimLength >= 2
    ensures r == Ok
    ensures after.proofs == map[]
    ensures after.events == [ClaimCreated(1, [0, 1]), ClaimRevoked(1, [0, 1])]
  {
    var pallet := new PoeModule(claimLength, block);
    var _ := pallet.CreateClaim(Some(1), [0, 1]);
    r := pallet.RevokeClaim(Some(1), [0, 1]);
    after := pallet.State();
  }

  /** `revoke_claim_failed_when_claim_is_not_exist`. */
  method RevokeClaimFailedWhenClaimIsNotExist(claimLength: nat, block: nat) returns (r: Result, before: Chain, after: Chain)
    requires claimLength >= 2
    ensures r == Err(Module(CalimNotExist)) && after == before
  {
    var pallet := new PoeModule(claimLength, block);
    before := pallet.State();
    r := pallet.RevokeClaim(Some(1), [0, 1]);
    after := pallet.State();
  }

  /** `revoke_claim_failed_when_is_not_owner`. */
  method RevokeClaimFailedWhenIsNotOwner(claimLength: nat, block: nat) returns (r: Result, before: Chain, after: Chain)
    requires claimLength >= 2
    ensures r == Err(Module(NotClaimOwner)) && after == before
  {
    var pallet := new PoeModule(claimLength, block);
    var _ := pallet.CreateClaim(Some(1), [0, 1]);
    before := pallet.State();
    r := pallet.RevokeClaim(Some(2), [0, 1]);
    after := pallet.State();
  }

  /** `transfer_claim_works`: account 23 owns the claim, and account 1 can no longer revoke it. */
  method TransferClaimWorks(claimLength: nat, block: nat) returns (r: Result, stored: Record, revoke: Result, before: Chain, after: Chain)
    requires claimLength >= 2
    ensures r == Ok && stored == Record(23, block)
    ensures revoke == Err(Module(NotClaimOwner)) && after == before
    ensures after.events == [ClaimCreated(1, [0, 1])]
  {
    var pallet := new PoeModule(claimLength, block);
    var _ := pallet.CreateClaim(Some(1), [0, 1]);
    r := pallet.TransferClaim(Some(1), [0, 1], 23);
    stored := pallet.Proofs([0, 1]);
    before := pallet.State();
    revoke := pallet.RevokeClaim(Some(1), [0, 1]);
    after := pallet.State();
  }

  /** `transfer_claim_failed_when_is_transfer_owner`. */
  method TransferClaimFailedWhenIsTransferOwner(claimLength: nat, block: nat) returns (r: Result, before: Chain, after: Chain)
    requires claimLength >= 2
    ensures r == Err(Module(NotClaimOwner)) && after == before
  {
    var pallet := new PoeModule(claimLength, block);
    var _ := pallet.CreateClaim(Some(1), [0, 1]);
    before := pallet.State();
    r := pallet.TransferClaim(Some(2), [0, 1], 23);
    after := pallet.State();
  }

  /** `transfer_claim_failed_when_claim_no_exist`: `[2, 3]` was never created. */
  method TransferClaimFailedWhenClaimNoExist(claimLength: nat, block: nat) returns (r: Result, before: Chain, after: Chain)
    requires claimLength >= 2
    ensures r == Err(Module(CalimNotExist)) && after == before
  {
    var pallet := new PoeModule(claimLength, block);
    var _ := pallet.CreateClaim(Some(1), [0, 1]);
    before := pallet.State();
    r := pallet.TransferClaim(Some(1), [2, 3], 23);
    after := pallet.State();
  }

  /**
   * `create_claim_failed_when_claim_length_is_too_large` against the mock as
   * written: with `ClaimLength` 128 the three-byte claim is accepted, so the
   * test's expected `ClaimLengthTooLarge` does not occur.
   */
  method CreateClaimTooLargeAsWritten(block: nat) returns (r: Result, after: Chain)
    ensures r == Ok
    ensures after.proofs == map[[0, 1, 2] := Record(1, block)]
  {
    var pallet := new PoeModule(MockClaimLength, block);
    r := pallet.CreateClaim(Some(1), [0, 1, 2]);
    after := pallet.State();
  }

  /** The same test against the intended bound of 2: the call fails and changes nothing. */
  method CreateClaimFailedWhenClaimLengthIsTooLarge(block: nat) returns (r: Result, before: Chain, after: Chain)
    ensures r == Err(Module(ClaimLengthTooLarge)) && after == before
  {
    var pallet := new PoeModule(IntendedClaimLength, block);
    before := pallet.State();
    r := pallet.CreateClaim(Some(1), [0, 1, 2]);
    after := pallet.State();
  }
}
