/** The durable lease table (cloud_offload/queue.py) and the providers' machines, as objects
    updated in place. */
module LeaseQueue {
  import opened Flows
  import opened Prelude
  import opened LeaseProtocol

  /******* The durable lease table *******/

  class JobQueue {
    var leases: map<LeaseId, Lease>

    method CreateLease(l: LeaseId, provider: string, profile: string, now: int) returns (r: Flow<LeaseId>)
      modifies this
      ensures r == if l in old(leases) then Raised else Returned(l)
      ensures leases == if r.Raised? then old(leases)
                        else old(leases)[l := Lease(provider, profile, now, None, Provisioning, false, false)]
    {
      if l in leases {
        return Raised;
      }
      leases := leases[l := Lease(provider, profile, now, None, Provisioning, false, false)];
      r := Returned(l);
    }

    /** Another lease of the same provider is bound to the machine. */
    predicate IsTaken(l: LeaseId, p: PodId)
      requires l in leases
      reads this
    {
      exists k <- leases :: k != l && leases[k].pod == Some(p) && leases[k].provider == leases[l].provider
    }

    /** A lease that is no longer provisioning or active is returned unbound. */
    method BindLease(l: LeaseId, p: PodId) returns (r: Flow<Lease>)
      modifies this
      ensures r.Raised? <==> || l !in old(leases) || old(leases)[l].pod !in {None, Some(p)}
                             || (old(leases)[l].status in {Provisioning, Active} && old(IsTaken(l, p)))
      ensures r.Raised? ==> leases == old(leases)
      ensures r.Returned? ==>
                && leases == old(leases)[l := r.value]
                && if old(leases)[l].status in {Provisioning, Active}
                   then r.value == old(leases)[l].(pod := Some(p), status := Active)
                   else r.value == old(leases)[l]
    {
      if l !in leases {
        return Raised;
      }
      var current := leases[l];
      if current.pod.Some? && current.pod.value != p {
        return Raised;
      }
      if current.status !in {Provisioning, Active} {
        assert leases == leases[l := current];
        return Returned(current);
      }
      if IsTaken(l, p) {
        return Raised;
      }
      leases := leases[l := current.(pod := Some(p), status := Active)];
      r := Returned(leases[l]);
    }

    method RequestLeaseRevocation(l: LeaseId) returns (r: Flow<Lease>)
      modifies this
      ensures r.Raised? <==> l !in old(leases)
      ensures r.Raised? ==> leases == old(leases)
      ensures r.Returned? ==>
                && leases == old(leases)[l := r.value]
                && if old(leases)[l].status in {Provisioning, Active}
                   then r.value == old(leases)[l].(status := RevocationRequested)
                   else r.value == old(leases)[l]
    {
      if l !in leases {
        return Raised;
      }
      var current := leases[l];
      if IsOpen(current) && current.status !in {RevocationRequested, Terminating} {
        leases := leases[l := current.(status := RevocationRequested)];
      }
      assert leases == old(leases)[l := leases[l]];
      r := Returned(leases[l]);
    }

    method RecordTerminationAttempt(l: LeaseId) returns (r: Flow<Lease>)
      modifies this
      ensures r.Raised? <==> l !in old(leases)
      ensures r.Raised? ==> leases == old(leases)
      ensures r.Returned? ==>
                && leases == old(leases)[l := r.value]
                && if old(leases)[l].status != Closed
                   then r.value == old(leases)[l].(status := Terminating, terminationRequested := true)
                   else r.value == old(leases)[l]
    {
      if l !in leases {
        return Raised;
      }
      var current := leases[l];
      if IsOpen(current) {
        leases := leases[l := current.(status := Terminating, terminationRequested := true)];
      }
      assert leases == old(leases)[l := leases[l]];
      r := Returned(leases[l]);
    }

    method ConfirmLeaseTermination(l: LeaseId) returns (r: Flow<Lease>)
      modifies this
      ensures r.Raised? <==> l !in old(leases)
      ensures r.Raised? ==> leases == old(leases)
      ensures r.Returned? ==>
                && r.value == old(leases)[l].(status := Closed, confirmed := true)
                && leases == old(leases)[l := r.value]
    {
      if l !in leases {
        return Raised;
      }
      var current := leases[l];
      if !(current.status.Closed? && current.confirmed) {
        leases := leases[l := current.(status := Closed, confirmed := true)];
      }
      assert leases == old(leases)[l := leases[l]];
      r := Returned(leases[l]);
    }

    method CloseUnboundLease(l: LeaseId) returns (r: Flow<Lease>)
      modifies this
      ensures r.Raised? <==> l !in old(leases) || old(leases)[l].pod.Some?
      ensures r.Raised? ==> leases == old(leases)
      ensures r.Returned? ==>
                && r.value == old(leases)[l].(status := Closed)
                && leases == old(leases)[l := r.value]
    {
      if l !in leases {
        return Raised;
      }
      if leases[l].pod.Some? {
        return Raised;
      }
      leases := leases[l := leases[l].(status := Closed)];
      r := Returned(leases[l]);
    }
  }

  /******* The providers *******/

  class Cloud {
    var pods: map<PodId, Pod>
  }

  /** An identifier that is not in use. */
  method Unused(ids: set<nat>) returns (id: nat)
    ensures id !in ids
  {
    id := 0;
    ghost var rest := ids;
    while id in ids
      invariant rest <= ids && forall k <- ids :: k < id || k in rest
      decreases rest
    {
      rest := rest - {id};
      id := id + 1;
    }
  }
}
