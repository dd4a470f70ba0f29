/**
 * Sequences of calls against the FRAME v2 pallet, as the host dispatches
 * them one after another, and the properties that hold of every such run:
 * the storage invariant, the event log that records exactly the events of
 * the successful calls in dispatch order, and owner-only mutation of a record.
 */
module PoeRuns {
  import opened PoeTypes
  import opened Poe

  /** One dispatchable call of the pallet, or the host moving on to the next block. */
  datatype Call =
    | CreateClaim(origin: Origin, claim: Claim)
    | RevokeClaim(origin: Origin, claim: Claim)
    | TransferClaim(origin: Origin, claim: Claim, dest: AccountId)
    | NewBlock

  /** A dispatched call that returned `Ok`; only these emit an event. */
  predicate Succeeded(call: Call, result: Result)
  {
    !call.NewBlock? && result == Ok
  }

  /** `call` is a revoke or a transfer of claim `k` signed by `who`. */
  predicate SignedChange(call: Call, k: Claim, who: AccountId)
  {
    match call
    case RevokeClaim(origin, claim) => origin == Some(who) && claim == k
    case TransferClaim(origin, claim, _) => origin == Some(who) && claim == k
    case _ => false
  }

  /** The event a successful dispatch of `call` deposits; an unsigned call or a new block deposits none. */
  function EventOf(call: Call): (e: seq<Event>)
    ensures |e| <= 1
    ensures |e| == 1 <==> !call.NewBlock? && call.origin.Some?
  {
    match call
    case CreateClaim(Some(sender), claim) => [ClaimCreated(sender, claim)]
    case RevokeClaim(Some(sender), claim) => [ClaimRevoked(sender, claim)]
    case TransferClaim(Some(sender), claim, dest) => [ClaimTransferred(sender, dest, claim)]
    case _ => []
  }

  function Apply(c: Chain, call: Call): (o: Outcome)
    ensures Valid(c) ==> Valid(o.chain)
    ensures o.chain.maxLen == c.maxLen
    ensures o.chain.block == if call.NewBlock? then c.block + 1 else c.block
    ensures o.chain.events == c.events + (if Succeeded(call, o.result) then EventOf(call) else [])
    ensures |o.chain.events| == |c.events| + (if Succeeded(call, o.result) then 1 else 0)
    ensures |o.chain.events| == |c.events| + (if Succeeded(call, o.result) then 1 else 0)
    ensures !Succeeded(call, o.result) ==> o.chain.proofs == c.proofs
    ensures forall k :: k in c.proofs && (k !in o.chain.proofs || o.chain.proofs[k].owner != c.proofs[k].owner) ==>
              Succeeded(call, o.result) && SignedChange(call, k, c.proofs[k].owner)
  {
    match call
    case CreateClaim(origin, claim) => Create(c, origin, claim)
    case RevokeClaim(origin, claim) => Revoke(c, origin, claim)
    case TransferClaim(origin, claim, dest) => Transfer(c, origin, claim, dest)
    case NewBlock => Outcome(c.(block := c.block + 1), Ok)
  }

  /** The state after a run and the result of each call, in order. */
  datatype Trace = Trace(chain: Chain, results: seq<Result>)

  function Run(c: Chain, calls: seq<Call>): (t: Trace)
    ensures |t.results| == |calls|
    ensures t.chain.maxLen == c.maxLen && t.chain.block >= c.block
    decreases |calls|
  {
    if calls == [] then Trace(c, [])
    else
      var o := Apply(c, calls[0]);
      var rest := Run(o.chain, calls[1..]);
      Trace(rest.chain, [o.result] + rest.results)
  }

  /** Number of successful dispatches among `calls`, given their results. */
  function Successes(calls: seq<Call>, results: seq<Result>): nat
    requires |calls| == |results|
  {
    if calls == [] then 0
    else (if Succeeded(calls[0], results[0]) then 1 else 0) + Successes(calls[1..], results[1..])
  }

  /** Every reachable state keeps its keys within the bound and its records in the past. */
  lemma {:induction false} RunValid(c: Chain, calls: seq<Call>)
    requires Valid(c)
    ensures Valid(Run(c, calls).chain)
    decreases |calls|
  {
    if calls != [] {
      RunValid(Apply(c, calls[0]).chain, calls[1..]);
    }
  }

  /** The events of the successful dispatches among `calls`, in order, given their results. */
  function SuccessEvents(calls: seq<Call>, results: seq<Result>): seq<Event>
    requires |calls| == |results|
  {
    if calls == [] then []
    else (if Succeeded(calls[0], results[0]) then EventOf(calls[0]) else []) + SuccessEvents(calls[1..], results[1..])
  }

  /**
   * The log is only extended, and what is appended is exactly the events of
   * the successful dispatches, one each, in the order they were dispatched.
   */
  lemma {:induction false} RunEvents(c: Chain, calls: seq<Call>)
    ensures var t := Run(c, calls);
            t.chain.events == c.events + SuccessEvents(calls, t.results)
    decreases |calls|
  {
    if calls != [] {
      var o := Apply(c, calls[0]);
      RunEvents(o.chain, calls[1..]);
      var t := Run(c, calls);
      assert t.results[1..] == Run(o.chain, calls[1..]).results;
      assert t.chain.events == o.chain.events + SuccessEvents(calls[1..], t.results[1..]);
    }
  }

  /** Each successful dispatch of a run adds exactly one event to the log, and nothing else adds any. */
  lemma {:induction false} RunEventCount(c: Chain, calls: seq<Call>)
    ensures var t := Run(c, calls);
            |t.chain.events| == |c.events| + Successes(calls, t.results)
    decreases |calls|
  {
    if calls != [] {
      var o := Apply(c, calls[0]);
      RunEventCount(o.chain, calls[1..]);
      assert Run(c, calls).results[1..] == Run(o.chain, calls[1..]).results;
    }
  }

  /**
   * If a claim registered at the start of a run is gone or has another owner
   * at its end, then its original owner signed a revoke or transfer of it
   * that succeeded.
   */
  lemma {:induction false} RunOwnerChange(c: Chain, calls: seq<Call>, k: Claim)
    requires k in c.proofs
    requires var after := Run(c, calls).chain.proofs;
             k !in after || after[k].owner != c.proofs[k].owner
    ensures exists i :: 0 <= i < |calls| && SignedChange(calls[i], k, c.proofs[k].owner)
                        && Run(c, calls).results[i] == Ok
    decreases |calls|
  {
    assert calls != [];
    var owner := c.proofs[k].owner;
    var o := Apply(c, calls[0]);
    var rest := Run(o.chain, calls[1..]);
    assert Run(c, calls).results == [o.result] + rest.results;
    if k in o.chain.proofs && o.chain.proofs[k].owner == owner {
      RunOwnerChange(o.chain, calls[1..], k);
      var i :| 0 <= i < |calls[1..]| && SignedChange(calls[1..][i], k, owner) && rest.results[i] == Ok;
      assert SignedChange(calls[i + 1], k, owner) && Run(c, calls).results[i + 1] == Ok;
    } else {
      assert SignedChange(calls[0], k, owner) && Run(c, calls).results[0] == Ok;
    }
  }
}
