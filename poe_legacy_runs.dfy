/**
 * Sequences of calls against the earlier `decl_module!` pallet, as the host
 * dispatches them one after another. Only `create_claim` checks the length,
 * yet no run stores an over-long key; and since `transfer_claim` deposits
 * nothing, the log records exactly the successful creates and revokes.
 */
module PoeLegacyRuns {
  import opened PoeTypes
  import opened PoeLegacy

  /** One dispatchable call of the pallet, or the host moving on to the next block. */
  datatype Call =
    | CreateClaim(origin: Origin, claim: Claim)
    | RevokeClaim(origin: Origin, claim: Claim)
    | TransferClaim(origin: Origin, claim: Claim, dest: AccountId)
    | NewBlock

  /** A dispatched call that returned `Ok`. */
  predicate Succeeded(call: Call, result: Result)
  {
    !call.NewBlock? && result == Ok
  }

  /** The event a successful dispatch of `call` deposits: none for a transfer, an unsigned call or a new block. */
  function EventOf(call: Call): (e: seq<Event>)
    ensures |e| <= 1
    ensures |e| == 1 <==> (call.CreateClaim? || call.RevokeClaim?) && call.origin.Some?
  {
    match call
    case CreateClaim(Some(sender), claim) => [ClaimCreated(sender, claim)]
    case RevokeClaim(Some(sender), claim) => [ClaimRevoked(sender, claim)]
    case _ => []
  }

  function Apply(c: Chain, call: Call): (o: Outcome)
    ensures Valid(c) ==> Valid(o.chain)
    ensures o.chain.claimLength == c.claimLength
    ensures o.chain.block == if call.NewBlock? then c.block + 1 else c.block
    ensures !call.CreateClaim? ==> o.chain.proofs.Keys <= c.proofs.Keys
    ensures o.chain.events == c.events + (if Succeeded(call, o.result) then EventOf(call) else [])
  {
    match call
    case CreateClaim(origin, claim) => Create(c, origin, claim)
    case RevokeClaim(origin, claim) => Revoke(c, origin, claim)
    case TransferClaim(origin, claim, dest) => Transfer(c, origin, claim, dest)
    case NewBlock => Outcome(c.(block := c.block + 1), Ok)
  }

  /** The state after a run and the result of each call, in order. */
  datatype Trace = Trace(chain: Chain, results: seq<Result>)

  function Run(c: Chain, calls: seq<Call>): (t: Trace)
    ensures |t.results| == |calls|
    ensures t.chain.claimLength == c.claimLength
    decreases |calls|
  {
    if calls == [] then Trace(c, [])
    else
      var o := Apply(c, calls[0]);
      var rest := Run(o.chain, calls[1..]);
      Trace(rest.chain, [o.result] + rest.results)
  }

  /** Although only `create_claim` checks the length, no run ever stores a key longer than `ClaimLength`. */
  lemma {:induction false} RunValid(c: Chain, calls: seq<Call>)
    requires Valid(c)
    ensures Valid(Run(c, calls).chain)
    decreases |calls|
  {
    if calls != [] {
      RunValid(Apply(c, calls[0]).chain, calls[1..]);
    }
  }

  /** The events of the successful dispatches among `calls`, in order, given their results. */
  function SuccessEvents(calls: seq<Call>, results: seq<Result>): seq<Event>
    requires |calls| == |results|
  {
    if calls == [] then []
    else (if Succeeded(calls[0], results[0]) then EventOf(calls[0]) else []) + SuccessEvents(calls[1..], results[1..])
  }

  /** The log is only extended, by the events of the successful creates and revokes in dispatch order. */
  lemma {:induction false} RunEvents(c: Chain, calls: seq<Call>)
    ensures var t := Run(c, calls);
            t.chain.events == c.events + SuccessEvents(calls, t.results)
    decreases |calls|
  {
    if calls != [] {
      var o := Apply(c, calls[0]);
      RunEvents(o.chain, calls[1..]);
      var t := Run(c, calls);
      assert t.results[1..] == Run(o.chain, calls[1..]).results;
      assert t.chain.events == o.chain.events + SuccessEvents(calls[1..], t.results[1..]);
    }
  }
}
