/**
 * The earlier `decl_module!` Proof-of-Existence pallet (`advance_lesson1/test.rs`).
 *
 * It differs from the FRAME v2 pallet in three ways: only `create_claim`
 * checks the claim length (the checks in the other two handlers are
 * commented out), `Proofs` is a value query that answers a default record
 * for an absent key (so each handler tests `contains_key` first), and a
 * successful `transfer_claim` deposits no event.
 */
module PoeLegacy {
  import opened PoeTypes

  datatype Event =
    | ClaimCreated(sender: AccountId, claim: Claim)
    | ClaimRevoked(sender: AccountId, claim: Claim)

  datatype Error = ProofAlreadyExist | CalimNotExist | NotClaimOwner | ClaimLengthTooLarge

  type Result = DispatchResult<Error>

  /** What a handler reads and writes: `ClaimLength`, the block number, `Proofs` and the events. */
  datatype Chain = Chain(claimLength: nat, block: nat, proofs: map<Claim, Record>, events: seq<Event>)

  datatype Outcome = Outcome(chain: Chain, result: Result)

  /** Every stored key is at most `ClaimLength` bytes long and no record is from a future block. */
  ghost predicate Valid(c: Chain)
  {
    forall k :: k in c.proofs ==> |k| <= c.claimLength && c.proofs[k].block <= c.block
  }

  /** The default of `(AccountId, BlockNumber)`, which a value query answers for an absent key. */
  const DefaultRecord := Record(0, 0)

  /** `Proofs::get` on a value-query map. */
  function Get(proofs: map<Claim, Record>, k: Claim): (r: Record)
    ensures k in proofs ==> r == proofs[k]
    ensures k !in proofs ==> r == DefaultRecord
  {
    if k in proofs then proofs[k] else DefaultRecord
  }

  /** `create_claim`: the only handler that checks the length, and the only one that adds keys. */
  function Create(c: Chain, origin: Origin, claim: Claim): (o: Outcome)
    ensures o.result == Ok <==> origin.Some? && |claim| <= c.claimLength && claim !in c.proofs
    ensures o.result == Err(BadOrigin) <==> origin.None?
    ensures o.result == Err(Module(ClaimLengthTooLarge)) <==> origin.Some? && |claim| > c.claimLength
    ensures o.result == Err(Module(ProofAlreadyExist)) <==>
              origin.Some? && |claim| <= c.claimLength && claim in c.proofs
    ensures o.result != Ok ==> o.chain == c
    ensures o.result == Ok ==>
              && o.chain.claimLength == c.claimLength && o.chain.block == c.block
              && claim in o.chain.proofs && o.chain.proofs[claim] == Record(origin.value, c.block)
              && AgreeExcept(c.proofs, o.chain.proofs, claim)
              && o.chain.events == c.events + [ClaimCreated(origin.value, claim)]
  {
    match origin
    case None => Outcome(c, Err(BadOrigin))
    case Some(sender) =>
      if |claim| > c.claimLength then Outcome(c, Err(Module(ClaimLengthTooLarge)))
      else if claim in c.proofs then Outcome(c, Err(Module(ProofAlreadyExist)))
      else
        var record := Record(sender, c.block);
        Outcome(c.(proofs := c.proofs[claim := record], events := c.events + [ClaimCreated(sender, claim)]), Ok)
  }

  /** `revoke_claim`: no length check; an absent claim of any length is `CalimNotExist`. */
  function Revoke(c: Chain, origin: Origin, claim: Claim): (o: Outcome)
    ensures o.result == Ok <==> origin.Some? && claim in c.proofs && c.proofs[claim].owner == origin.value
    ensures o.result == Err(BadOrigin) <==> origin.None?
    ensures o.result == Err(Module(CalimNotExist)) <==> origin.Some? && claim !in c.proofs
    ensures o.result == Err(Module(NotClaimOwner)) <==>
              origin.Some? && claim in c.proofs && c.proofs[claim].owner != origin.value
    ensures o.result != Err(Module(ClaimLengthTooLarge))
    ensures o.result != Ok ==> o.chain == c
    ensures o.result == Ok ==>
              && o.chain.claimLength == c.claimLength && o.chain.block == c.block
              && claim !in o.chain.proofs
              && AgreeExcept(c.proofs, o.chain.proofs, claim)
              && o.chain.events == c.events + [ClaimRevoked(origin.value, claim)]
  {
    match origin
    case None => Outcome(c, Err(BadOrigin))
    case Some(sender) =>
      if claim !in c.proofs then Outcome(c, Err(Module(CalimNotExist)))
      else
        var record := Get(c.proofs, claim);
        if record.owner != sender then Outcome(c, Err(Module(NotClaimOwner)))
        else Outcome(c.(proofs := c.proofs - {claim}, events := c.events + [ClaimRevoked(sender, claim)]), Ok)
  }

  /** `transfer_claim`: no length check, overwrites an existing key only, and deposits no event. */
  function Transfer(c: Chain, origin: Origin, claim: Claim, dest: AccountId): (o: Outcome)
    ensures o.result == Ok <==> origin.Some? && claim in c.proofs && c.proofs[claim].owner == origin.value
    ensures o.result == Err(BadOrigin) <==> origin.None?
    ensures o.result == Err(Module(CalimNotExist)) <==> origin.Some? && claim !in c.proofs
    ensures o.result == Err(Module(NotClaimOwner)) <==>
              origin.Some? && claim in c.proofs && c.proofs[claim].owner != origin.value
    ensures o.result != Err(Module(ClaimLengthTooLarge))
    ensures o.result != Ok ==> o.chain == c
    ensures o.chain.events == c.events
    ensures o.result == Ok ==>
              && o.chain.claimLength == c.claimLength && o.chain.block == c.block
              && o.chain.proofs.Keys == c.proofs.Keys
              && o.chain.proofs[claim] == Record(dest, c.block)
              && AgreeExcept(c.proofs, o.chain.proofs, claim)
  {
    match origin
    case None => Outcome(c, Err(BadOrigin))
    case Some(sender) =>
      if claim !in c.proofs then Outcome(c, Err(Module(CalimNotExist)))
      else
        var record := Get(c.proofs, claim);
        if record.owner != sender then Outcome(c, Err(Module(NotClaimOwner)))
        else Outcome(c.(proofs := c.proofs[claim := Record(dest, c.block)]), Ok)
  }

  /**
   * Where the FRAME v2 pallet answers `ClaimTooLong`, this one answers
   * `CalimNotExist`: in a valid state no over-long claim is stored.
   */
  lemma LongClaimIsAbsent(c: Chain, sender: AccountId, claim: Claim, dest: AccountId)
    requires Valid(c)
    requires |claim| > c.claimLength
    ensures Revoke(c, Some(sender), claim).result == Err(Module(CalimNotExist))
    ensures Transfer(c, Some(sender), claim, dest).result == Err(Module(CalimNotExist))
  {
  }

  /** The `decl_module!` pallet's storage and configuration as fields (`PoeModule` in the mock). */
  class PoeModule {
    const claimLength: nat
    var block: nat
    var proofs: map<Claim, Record>
    var events: seq<Event>

    function State(): Chain
      reads this
    {
      Chain(claimLength, block, proofs, events)
    }

    /** Genesis: empty storage, no events. */
    constructor (claimLength: nat, block: nat)
      ensures State() == Chain(claimLength, block, map[], [])
      ensures Valid(State())
    {
      this.claimLength := claimLength;
      this.block := block;
      proofs := map[];
      events := [];
    }

    /** The storage getter `proofs`, a value query. */
    function Proofs(claim: Claim): (r: Record)
      reads this
      ensures claim in proofs ==> r == proofs[claim]
      ensures claim !in proofs ==> r == DefaultRecord
    {
      Get(proofs, claim)
    }

    method CreateClaim(origin: Origin, claim: Claim) returns (r: Result)
      modifies this
      ensures Outcome(State(), r) == Create(old(State()), origin, claim)
      ensures Valid(old(State())) ==> Valid(State())
    {
      if origin.None? {
        return Err(BadOrigin);
      }
      var sender := origin.value;
      if |claim| > claimLength {
        return Err(Module(ClaimLengthTooLarge));
      }
      if claim in proofs {
        return Err(Module(ProofAlreadyExist));
      }
      proofs := proofs[claim := Record(sender, block)];
      events := events + [ClaimCreated(sender, claim)];
      r := Ok;
    }

    method RevokeClaim(origin: Origin, claim: Claim) returns (r: Result)
      modifies this
      ensures Outcome(State(), r) == Revoke(old(State()), origin, claim)
      ensures Valid(old(State())) ==> Valid(State())
    {
      if origin.None? {
        return Err(BadOrigin);
      }
      var sender := origin.value;
      if claim !in proofs {
        return Err(Module(CalimNotExist));
      }
      var record := Get(proofs, claim);
      if record.owner != sender {
        return Err(Module(NotClaimOwner));
      }
      proofs := proofs - {claim};
      events := events + [ClaimRevoked(sender, claim)];
      r := Ok;
    }

    method TransferClaim(origin: Origin, claim: Claim, dest: AccountId) returns (r: Result)
      modifies this
      ensures Outcome(State(), r) == Transfer(old(State()), origin, claim, dest)
      ensures Valid(old(State())) ==> Valid(State())
    {
      if origin.None? {
        return Err(BadOrigin);
      }
      var sender := origin.value;
      if claim !in proofs {
        return Err(Module(CalimNotExist));
      }
      var record := Get(proofs, claim);
      if record.owner != sender {
        return Err(Module(NotClaimOwner));
      }
      proofs := proofs[claim := Record(dest, block)];
      r := Ok;
    }
  }
}
