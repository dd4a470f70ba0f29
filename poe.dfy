/**
 * The FRAME v2 Proof-of-Existence pallet (`pallets/poe/src/lib.rs`).
 *
 * The dispatch handlers are first given as transition functions on a value
 * `Chain` (the bound, the current block, the `Proofs` map and the event log),
 * so that lemmas can relate several calls; the class `Pallet` then holds the
 * same state in fields and performs each handler in place, its contract tying
 * the new fields to the transition function.
 */
module Poe {
  import opened PoeTypes

  datatype Event =
    | ClaimCreated(sender: AccountId, claim: Claim)
    | ClaimRevoked(sender: AccountId, claim: Claim)
    | ClaimTransferred(sender: AccountId, dest: AccountId, claim: Claim)

  datatype Error = ProofAlreadyExist | ClaimTooLong | ClaimNotExist | NotClaimOwner

  type Result = DispatchResult<Error>

  /** What a handler reads and writes: `MaxClaimLength`, the block number, `Proofs` and the events. */
  datatype Chain = Chain(maxLen: nat, block: nat, proofs: map<Claim, Record>, events: seq<Event>)

  datatype Outcome = Outcome(chain: Chain, result: Result)

  /** Every key fits the bound (keys are `BoundedVec<u8, MaxClaimLength>`) and no record is from a future block. */
  ghost predicate Valid(c: Chain)
  {
    forall k :: k in c.proofs ==> |k| <= c.maxLen && c.proofs[k].block <= c.block
  }

  /** `BoundedVec::try_from`: the claim itself when it fits the bound, nothing otherwise. */
  function TryBound(maxLen: nat, claim: Claim): (r: Option<Claim>)
    ensures r.Some? <==> |claim| <= maxLen
    ensures r.Some? ==> r.value == claim
  {
    if |claim| <= maxLen then Some(claim) else None
  }

  /** `Proofs::get`, an option query. */
  function Get(proofs: map<Claim, Record>, k: Claim): (r: Option<Record>)
    ensures r.Some? <==> k in proofs
    ensures r.Some? ==> r.value == proofs[k]
  {
    if k in proofs then Some(proofs[k]) else None
  }

  /** `create_claim`: register an unused claim for the sender at the current block. */
  function Create(c: Chain, origin: Origin, claim: Claim): (o: Outcome)
    ensures o.result == Ok <==> origin.Some? && |claim| <= c.maxLen && claim !in c.proofs
    ensures o.result == Err(BadOrigin) <==> origin.None?
    ensures o.result == Err(Module(ClaimTooLong)) <==> origin.Some? && |claim| > c.maxLen
    ensures o.result == Err(Module(ProofAlreadyExist)) <==>
              origin.Some? && |claim| <= c.maxLen && claim in c.proofs
    ensures o.result != Ok ==> o.chain == c
    ensures o.result == Ok ==>
              && o.chain.maxLen == c.maxLen && o.chain.block == c.block
              && claim in o.chain.proofs && o.chain.proofs[claim] == Record(origin.value, c.block)
              && AgreeExcept(c.proofs, o.chain.proofs, claim)
              && o.chain.events == c.events + [ClaimCreated(origin.value, claim)]
  {
    match origin
    case None => Outcome(c, Err(BadOrigin))
    case Some(sender) =>
      match TryBound(c.maxLen, claim)
      case None => Outcome(c, Err(Module(ClaimTooLong)))
      case Some(k) =>
        if k in c.proofs then Outcome(c, Err(Module(ProofAlreadyExist)))
        else
          var record := Record(sender, c.block);
          Outcome(c.(proofs := c.proofs[k := record], events := c.events + [ClaimCreated(sender, claim)]), Ok)
  }

  /** `revoke_claim`: the owner of a registered claim deletes it. */
  function Revoke(c: Chain, origin: Origin, claim: Claim): (o: Outcome)
    ensures o.result == Ok <==>
              origin.Some? && |claim| <= c.maxLen && claim in c.proofs && c.proofs[claim].owner == origin.value
    ensures o.result == Err(BadOrigin) <==> origin.None?
    ensures o.result == Err(Module(ClaimTooLong)) <==> origin.Some? && |claim| > c.maxLen
    ensures o.result == Err(Module(ClaimNotExist)) <==>
              origin.Some? && |claim| <= c.maxLen && claim !in c.proofs
    ensures o.result == Err(Module(NotClaimOwner)) <==>
              origin.Some? && |claim| <= c.maxLen && claim in c.proofs && c.proofs[claim].owner != origin.value
    ensures o.result != Ok ==> o.chain == c
    ensures o.result == Ok ==>
              && o.chain.maxLen == c.maxLen && o.chain.block == c.block
              && claim !in o.chain.proofs
              && AgreeExcept(c.proofs, o.chain.proofs, claim)
              && o.chain.events == c.events + [ClaimRevoked(origin.value, claim)]
  {
    match origin
    case None => Outcome(c, Err(BadOrigin))
    case Some(sender) =>
      match TryBound(c.maxLen, claim)
      case None => Outcome(c, Err(Module(ClaimTooLong)))
      case Some(k) =>
        match Get(c.proofs, k)
        case None => Outcome(c, Err(Module(ClaimNotExist)))
        case Some(record) =>
          if record.owner != sender then Outcome(c, Err(Module(NotClaimOwner)))
          else Outcome(c.(proofs := c.proofs - {k}, events := c.events + [ClaimRevoked(sender, claim)]), Ok)
  }

  /** `transfer_claim`: the owner hands a claim to `dest`; the stored block becomes the current one. */
  function Transfer(c: Chain, origin: Origin, claim: Claim, dest: AccountId): (o: Outcome)
    ensures o.result == Ok <==>
              origin.Some? && |claim| <= c.maxLen && claim in c.proofs && c.proofs[claim].owner == origin.value
    ensures o.result == Err(BadOrigin) <==> origin.None?
    ensures o.result == Err(Module(ClaimTooLong)) <==> origin.Some? && |claim| > c.maxLen
    ensures o.result == Err(Module(ClaimNotExist)) <==>
              origin.Some? && |claim| <= c.maxLen && claim !in c.proofs
    ensures o.result == Err(Module(NotClaimOwner)) <==>
              origin.Some? && |claim| <= c.maxLen && claim in c.proofs && c.proofs[claim].owner != origin.value
    ensures o.result != Ok ==> o.chain == c
    ensures o.result == Ok ==>
              && o.chain.maxLen == c.maxLen && o.chain.block == c.block
              && claim in o.chain.proofs && o.chain.proofs[claim] == Record(dest, c.block)
              && AgreeExcept(c.proofs, o.chain.proofs, claim)
              && o.chain.events == c.events + [ClaimTransferred(origin.value, dest, claim)]
  {
    match origin
    case None => Outcome(c, Err(BadOrigin))
    case Some(sender) =>
      match TryBound(c.maxLen, claim)
      case None => Outcome(c, Err(Module(ClaimTooLong)))
      case Some(k) =>
        match Get(c.proofs, k)
        case None => Outcome(c, Err(Module(ClaimNotExist)))
        case Some(record) =>
          if record.owner != sender then Outcome(c, Err(Module(NotClaimOwner)))
          else
            var moved := Record(dest, c.block);
            Outcome(c.(proofs := c.proofs[k := moved], events := c.events + [ClaimTransferred(sender, dest, claim)]), Ok)
  }

  /** Creating a claim and then revoking it as the same sender restores `Proofs`; a second revoke fails. */
  lemma CreateThenRevoke(c: Chain, sender: AccountId, claim: Claim)
    requires Create(c, Some(sender), claim).result == Ok
    ensures var created := Create(c, Some(sender), claim).chain;
            var revoked := Revoke(created, Some(sender), claim);
            && revoked.result == Ok
            && revoked.chain.proofs == c.proofs
            && Revoke(revoked.chain, Some(sender), claim).result == Err(Module(ClaimNotExist))
  {
  }

  /** After handing a claim to someone else, the former owner can no longer revoke it. */
  lemma TransferThenOldOwnerCannotRevoke(c: Chain, sender: AccountId, claim: Claim, dest: AccountId)
    requires sender != dest
    requires Transfer(c, Some(sender), claim, dest).result == Ok
    ensures Revoke(Transfer(c, Some(sender), claim, dest).chain, Some(sender), claim).result
              == Err(Module(NotClaimOwner))
  {
  }

  /**
   * The pallet's storage and configuration as fields. `maxLen` is the
   * configured `MaxClaimLength`; `block` is what `frame_system` reports as
   * the current block number.
   */
  class Pallet {
    const maxLen: nat
    var block: nat
    var proofs: map<Claim, Record>
    var events: seq<Event>

    function State(): Chain
      reads this
    {
      Chain(maxLen, block, proofs, events)
    }

    /** Genesis: empty storage, no events. */
    constructor (maxLen: nat, block: nat)
      ensures State() == Chain(maxLen, block, map[], [])
      ensures Valid(State())
    {
      this.maxLen := maxLen;
      this.block := block;
      proofs := map[];
      events := [];
    }

    /** The storage getter `proofs`. */
    function Proofs(claim: Claim): (r: Option<Record>)
      reads this
      ensures r.Some? <==> claim in proofs
      ensures r.Some? ==> r.value == proofs[claim]
    {
      Get(proofs, claim)
    }

    method CreateClaim(origin: Origin, claim: Claim) returns (r: Result)
      modifies this
      ensures Outcome(State(), r) == Create(old(State()), origin, claim)
      ensures Valid(old(State())) ==> Valid(State())
    {
      if origin.None? {
        return Err(BadOrigin);
      }
      var sender := origin.value;
      var bounded := TryBound(maxLen, claim);
      if bounded.None? {
        return Err(Module(ClaimTooLong));
      }
      var k := bounded.value;
      if k in proofs {
        return Err(Module(ProofAlreadyExist));
      }
      proofs := proofs[k := Record(sender, block)];
      events := events + [ClaimCreated(sender, claim)];
      r := Ok;
    }

    method RevokeClaim(origin: Origin, claim: Claim) returns (r: Result)
      modifies this
      ensures Outcome(State(), r) == Revoke(old(State()), origin, claim)
      ensures Valid(old(State())) ==> Valid(State())
    {
      if origin.None? {
        return Err(BadOrigin);
      }
      var sender := origin.value;
      var bounded := TryBound(maxLen, claim);
      if bounded.None? {
        return Err(Module(ClaimTooLong));
      }
      var k := bounded.value;
      var found := Get(proofs, k);
      if found.None? {
        return Err(Module(ClaimNotExist));
      }
      if found.value.owner != sender {
        return Err(Module(NotClaimOwner));
      }
      proofs := proofs - {k};
      events := events + [ClaimRevoked(sender, claim)];
      r := Ok;
    }

    method TransferClaim(origin: Origin, claim: Claim, dest: AccountId) returns (r: Result)
      modifies this
      ensures Outcome(State(), r) == Transfer(old(State()), origin, claim, dest)
      ensures Valid(old(State())) ==> Valid(State())
    {
      if origin.None? {
        return Err(BadOrigin);
      }
      var sender := origin.value;
      var bounded := TryBound(maxLen, claim);
      if bounded.None? {
        return Err(Module(ClaimTooLong));
      }
      var k := bounded.value;
      var found := Get(proofs, k);
      if found.None? {
        return Err(Module(ClaimNotExist));
      }
      if found.value.owner != sender {
        return Err(Module(NotClaimOwner));
      }
      proofs := proofs[k := Record(dest, block)];
      events := events + [ClaimTransferred(sender, dest, claim)];
      r := Ok;
    }
  }
}
