/**
  The fencing lease of one identity (attention_store.py, `claim_lease`, `renew_lease`,
  `release_lease`, `_assert_fence`), and what fencing gives over any interleaving of adapters.
 */
module Leases {
  import opened Common

  type Owner = nat

  datatype Lease = Lease(owner: Owner, epoch: nat, expires: int)

  /** The check every fenced mutation starts with. */
  predicate Holds(lease: Option<Lease>, owner: Owner, epoch: nat, now: int) {
    lease.Some? && lease.value.owner == owner && lease.value.epoch == epoch && now < lease.value.expires
  }

  predicate MayClaim(lease: Option<Lease>, owner: Owner, now: int, holderAlive: bool) {
    lease.None? || lease.value.owner == owner || lease.value.expires <= now || !holderAlive
  }

  function Claim(lease: Option<Lease>, owner: Owner, ttl: int, now: int, holderAlive: bool): Option<Lease> {
    if lease.None? then Some(Lease(owner, 1, now + ttl))
    else if lease.value.owner == owner then Some(Lease(owner, lease.value.epoch, now + ttl))
    else if lease.value.expires <= now || !holderAlive then Some(Lease(owner, lease.value.epoch + 1, now + ttl))
    else lease
  }

  function Renew(lease: Option<Lease>, owner: Owner, epoch: nat, ttl: int, now: int): Option<Lease> {
    if Holds(lease, owner, epoch, now) then Some(lease.value.(expires := now + ttl)) else lease
  }

  /** Release does not check the expiry: it only lets the matching lease expire now. */
  function Release(lease: Option<Lease>, owner: Owner, epoch: nat, now: int): Option<Lease> {
    if lease.Some? && lease.value.owner == owner && lease.value.epoch == epoch
    then Some(lease.value.(expires := now))
    else lease
  }

  // ---- Runs: any number of adapters, any order, any clock readings ----

  datatype LeaseCall =
    | ClaimCall(owner: Owner, ttl: int, now: int, holderAlive: bool)
    | RenewCall(owner: Owner, epoch: nat, ttl: int, now: int)
    | ReleaseCall(owner: Owner, epoch: nat, now: int)
    | MutateCall(owner: Owner, epoch: nat, now: int)
    | InputSent(owner: Owner, epoch: nat)

  function Step(lease: Option<Lease>, call: LeaseCall): Option<Lease> {
    match call
    case ClaimCall(owner, ttl, now, alive) => Claim(lease, owner, ttl, now, alive)
    case RenewCall(owner, epoch, ttl, now) => Renew(lease, owner, epoch, ttl, now)
    case ReleaseCall(owner, epoch, now) => Release(lease, owner, epoch, now)
    case MutateCall(_, _, _) => lease
    case InputSent(_, _) => lease
  }

  /** The lease row after a sequence of calls on a database that had none. */
  function After(calls: seq<LeaseCall>): Option<Lease> {
    if calls == [] then None else Step(After(calls[..|calls| - 1]), calls[|calls| - 1])
  }

  function Epoch(lease: Option<Lease>): nat {
    if lease.None? then 0 else lease.value.epoch
  }

  /** Call `i` of the run is a mutation that passed its fence. */
  predicate Succeeds(calls: seq<LeaseCall>, i: nat) {
    i < |calls| && calls[i].MutateCall? &&
    Holds(After(calls[..i]), calls[i].owner, calls[i].epoch, calls[i].now)
  }

  /** The epoch never decreases, and while it stays the same so does its owner. */
  lemma {:induction false} EpochsOnlyGrow(calls: seq<LeaseCall>, i: nat, j: nat)
    requires i <= j <= |calls|
    ensures Epoch(After(calls[..i])) <= Epoch(After(calls[..j]))
    ensures After(calls[..i]).Some? ==> After(calls[..j]).Some?
    ensures After(calls[..i]).Some? && Epoch(After(calls[..i])) == Epoch(After(calls[..j]))
            ==> After(calls[..i]).value.owner == After(calls[..j]).value.owner
    decreases j
  {
    if i < j {
      EpochsOnlyGrow(calls, i, j - 1);
      assert calls[..j][..j - 1] == calls[..j - 1];
    }
  }

  /** Each epoch belongs to one owner, over the whole run. */
  lemma EachEpochHasOneOwner(calls: seq<LeaseCall>, i: nat, j: nat)
    requires i <= |calls| && j <= |calls|
    requires After(calls[..i]).Some? && After(calls[..j]).Some?
    requires Epoch(After(calls[..i])) == Epoch(After(calls[..j]))
    ensures After(calls[..i]).value.owner == After(calls[..j]).value.owner
  {
    if i <= j {
      EpochsOnlyGrow(calls, i, j);
    } else {
      EpochsOnlyGrow(calls, j, i);
    }
  }

  /** Successful fenced mutations carry nondecreasing epochs; two of one epoch come from one owner. */
  lemma SuccessfulMutationsAreOrdered(calls: seq<LeaseCall>, i: nat, j: nat)
    requires i <= j && Succeeds(calls, i) && Succeeds(calls, j)
    ensures calls[i].epoch <= calls[j].epoch
    ensures calls[i].epoch == calls[j].epoch ==> calls[i].owner == calls[j].owner
  {
    EpochsOnlyGrow(calls, i, j);
  }

  /** Once a newer epoch exists, nobody mutates under an older one again. */
  lemma DisplacedOwnerIsFencedOut(calls: seq<LeaseCall>, seen: nat, later: nat)
    requires seen <= later < |calls| && calls[later].MutateCall?
    requires calls[later].epoch < Epoch(After(calls[..seen]))
    ensures !Succeeds(calls, later)
  {
    EpochsOnlyGrow(calls, seen, later);
  }

  /** A claim by anyone but the current owner, once granted, starts a strictly newer epoch. */
  lemma TakeoverStartsNewEpoch(lease: Option<Lease>, owner: Owner, ttl: int, now: int, alive: bool)
    requires MayClaim(lease, owner, now, alive) && (lease.Some? ==> lease.value.owner != owner)
    ensures Claim(lease, owner, ttl, now, alive).Some?
    ensures Epoch(Claim(lease, owner, ttl, now, alive)) == Epoch(lease) + 1
    ensures forall held: nat, at: int :: lease.Some? ==>
              !Holds(Claim(lease, owner, ttl, now, alive), lease.value.owner, held, at)
  {
  }

  /** A lease that has not expired is not taken from a living holder. */
  lemma LiveLeaseIsKept(lease: Lease, call: LeaseCall)
    requires call.ClaimCall? && call.owner != lease.owner && call.now < lease.expires && call.holderAlive
    ensures Step(Some(lease), call) == Some(lease)
  {
  }

  /** The holder's own claim and its renewal in term keep the epoch and move the expiry; its release ends the term at once. */
  lemma OwnCallsMean(lease: Lease, now: int, ttl: int, holderAlive: bool)
    ensures Step(Some(lease), ClaimCall(lease.owner, ttl, now, holderAlive)) == Some(lease.(expires := now + ttl))
    ensures Step(Some(lease), RenewCall(lease.owner, lease.epoch, ttl, now)) == Some(if now < lease.expires then lease.(expires := now + ttl) else lease)
    ensures Step(Some(lease), ReleaseCall(lease.owner, lease.epoch, now)) == Some(lease.(expires := now))
  {
  }

  /** The lease was last claimed or renewed at `i`, by this owner and until this time. */
  predicate GrantedAt(calls: seq<LeaseCall>, i: nat, owner: Owner, epoch: nat, expires: int) {
    && i < |calls| && After(calls[..i + 1]) == Some(Lease(owner, epoch, expires))
    && ((calls[i].ClaimCall? && calls[i].owner == owner && expires == calls[i].now + calls[i].ttl)
        || (calls[i].RenewCall? && calls[i].owner == owner && calls[i].epoch == epoch && expires == calls[i].now + calls[i].ttl
            && Holds(After(calls[..i]), owner, epoch, calls[i].now))
        || (calls[i].ReleaseCall? && calls[i].owner == owner && calls[i].epoch == epoch && expires == calls[i].now))
  }

  /** Every lease there is was granted by its owner's own call, and nothing since has moved its expiry. */
  lemma {:induction false} LeaseIsGranted(calls: seq<LeaseCall>) returns (i: nat)
    requires After(calls).Some?
    ensures var lease := After(calls).value; GrantedAt(calls, i, lease.owner, lease.epoch, lease.expires)
  {
    var n := |calls| - 1;
    var before, lease := After(calls[..n]), After(calls).value;
    assert calls[..n + 1] == calls;
    if before == Some(lease) && !GrantedAt(calls, n, lease.owner, lease.epoch, lease.expires) {
      i := LeaseIsGranted(calls[..n]);
      assert calls[..n][..i + 1] == calls[..i + 1] && calls[..n][..i] == calls[..i];
    } else {
      i := n;
    }
  }

  /** So a mutation succeeds only before the end of a term that its owner claimed or renewed under that epoch. */
  lemma SuccessIsInTerm(calls: seq<LeaseCall>, k: nat) returns (i: nat, expires: int)
    requires Succeeds(calls, k)
    ensures i < k && calls[k].now < expires && GrantedAt(calls, i, calls[k].owner, calls[k].epoch, expires)
  {
    expires := After(calls[..k]).value.expires;
    i := LeaseIsGranted(calls[..k]);
    assert calls[..k][..i + 1] == calls[..i + 1] && calls[..k][..i] == calls[..i];
  }

  // ---- What a displaced adapter can still send ----

  /** Call `i` is an input that the app-server accepted from this owner under this epoch. */
  predicate SentBy(calls: seq<LeaseCall>, i: nat, owner: Owner, epoch: nat) {
    i < |calls| && calls[i] == InputSent(owner, epoch)
  }

  /** The owner passed its fence at `i` and has sent nothing between there and `k`. */
  predicate PreparedAt(calls: seq<LeaseCall>, i: nat, k: nat, owner: Owner, epoch: nat) {
    && i < k && Succeeds(calls, i) && calls[i].owner == owner && calls[i].epoch == epoch
    && forall j :: i < j < k ==> !SentBy(calls, j, owner, epoch)
  }

  /** Each input is sent for a dispatch of its own, prepared in the ledger before it. */
  ghost predicate SendsArePrepared(calls: seq<LeaseCall>) {
    forall k :: 0 <= k < |calls| && calls[k].InputSent? ==> exists i: nat :: PreparedAt(calls, i, k, calls[k].owner, calls[k].epoch)
  }

  /**
    The app-server does not know the lease, so an adapter that was displaced in the middle of a dispatch
    can still have its input accepted. But it has no more than that one: over any interleaving, at most one
    input of an owner and epoch is accepted once a newer epoch has been seen.
   */
  lemma DisplacedOwnerSendsAtMostOnce(calls: seq<LeaseCall>, seen: nat, j: nat, k: nat, owner: Owner, epoch: nat)
    requires SendsArePrepared(calls) && seen <= j && seen <= k
    requires SentBy(calls, j, owner, epoch) && SentBy(calls, k, owner, epoch)
    requires seen <= |calls| && epoch < Epoch(After(calls[..seen]))
    ensures j == k
  {
    if j != k {
      var last := if j < k then k else j;
      var i: nat :| PreparedAt(calls, i, last, owner, epoch);
      DisplacedOwnerIsFencedOut(calls, seen, i);
    }
  }
}
