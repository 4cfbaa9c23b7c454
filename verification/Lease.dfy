/** The controller lease of a session (internal/domain/lease.go) and the manager that keeps it. */
module Lease {
  import opened Base

  datatype Lease = Lease(session: ID, holder: ID, revision: int, expiresAt: Time, lastHeartbeat: Time,
                         releasedAt: Option<Time>) {
    predicate Active(at: Time) { releasedAt.None? && revision > 0 && at < expiresAt }

    /** Why the holder may not act at this time under this revision, if it may not. */
    function Refusal(holder: ID, revision: int, at: Time): (r: Option<Code>)
      ensures r.None? ==> holder == this.holder && revision == this.revision && lastHeartbeat <= at < expiresAt
    {
      if this.revision == 0 then Some(LeaseRequired)
      else if revision != this.revision then Some(StaleLease)
      else if this.holder != holder then Some(PermissionDenied)
      else if at == ZERO_TIME || at < lastHeartbeat then Some(InvalidArgument)
      else if !Active(at) then Some(LeaseRequired)
      else None
    }

    function Heartbeat(holder: ID, revision: int, at: Time, duration: int): Outcome<Lease> {
      if Refusal(holder, revision, at).Some? then Err(Refusal(holder, revision, at).value)
      else if duration <= 0 then Err(InvalidArgument)
      else Ok(this.(lastHeartbeat := at, expiresAt := at + duration))
    }

    function Release(holder: ID, revision: int, at: Time): Outcome<Lease> {
      if Refusal(holder, revision, at).Some? then Err(Refusal(holder, revision, at).value)
      else Ok(this.(revision := this.revision + 1, expiresAt := at, lastHeartbeat := at, releasedAt := Some(at)))
    }
  }

  /** A new lease; an active one is never taken, not even by its holder. */
  function Acquire(current: Option<Lease>, session: ID, holder: ID, at: Time, duration: int): Outcome<Lease> {
    if at == ZERO_TIME || duration <= 0 then Err(InvalidArgument)
    else if current.None? then Ok(Lease(session, holder, 1, at + duration, at, None))
    else
      var l := current.value;
      if l.session != session then Err(Conflict)
      else if l.revision < 1 || at < l.lastHeartbeat then Err(InvalidArgument)
      else if l.Active(at) then Err(LeaseHeld)
      else Ok(Lease(session, holder, l.revision + 1, at + duration, at, None))
  }

  /** A holder may act exactly with its own revision, from the last heartbeat until the lease expires or is released. */
  lemma RefusedIff(l: Lease, holder: ID, revision: int, at: Time)
    ensures l.Refusal(holder, revision, at).None? <==>
              && holder == l.holder && revision == l.revision && revision >= 1 && l.releasedAt.None?
              && at != ZERO_TIME && l.lastHeartbeat <= at < l.expiresAt
    ensures l.Refusal(holder, revision, at) == Some(StaleLease) <==> l.revision != 0 && revision != l.revision
    ensures l.Refusal(holder, revision, at) == Some(PermissionDenied) <==>
              l.revision != 0 && revision == l.revision && holder != l.holder
    ensures l.Refusal(holder, revision, at) == Some(InvalidArgument) <==>
              l.revision != 0 && revision == l.revision && holder == l.holder &&
              (at == ZERO_TIME || at < l.lastHeartbeat)
    ensures l.Refusal(holder, revision, at) == Some(LeaseRequired) <==>
              || l.revision == 0
              || (revision == l.revision && holder == l.holder && at != ZERO_TIME && l.lastHeartbeat <= at &&
                  (l.revision < 0 || l.releasedAt.Some? || l.expiresAt <= at))
  {
  }

  /** A heartbeat lets the lease run for the whole duration from then on, and changes nothing else about it. */
  lemma HeartbeatExtends(l: Lease, holder: ID, revision: int, at: Time, duration: int)
    ensures l.Heartbeat(holder, revision, at, duration).Ok? <==> l.Refusal(holder, revision, at).None? && duration > 0
    ensures l.Refusal(holder, revision, at).None? && duration <= 0 ==>
              l.Heartbeat(holder, revision, at, duration) == Err(InvalidArgument)
    ensures l.Refusal(holder, revision, at).Some? ==>
              l.Heartbeat(holder, revision, at, duration) == Err(l.Refusal(holder, revision, at).value)
    ensures l.Heartbeat(holder, revision, at, duration).Ok? ==>
              var n := l.Heartbeat(holder, revision, at, duration).value;
              && n.lastHeartbeat == at && n.expiresAt == at + duration
              && n.(lastHeartbeat := l.lastHeartbeat, expiresAt := l.expiresAt) == l
              && forall t :: n.Refusal(holder, revision, t).None? <==> t != ZERO_TIME && at <= t < at + duration
  {
  }

  /** After a release nobody may act under any revision, and the lease is at the next one. */
  lemma ReleaseEnds(l: Lease, holder: ID, revision: int, at: Time)
    ensures l.Release(holder, revision, at).Ok? <==> l.Refusal(holder, revision, at).None?
    ensures l.Refusal(holder, revision, at).Some? ==>
              l.Release(holder, revision, at) == Err(l.Refusal(holder, revision, at).value)
    ensures l.Release(holder, revision, at).Ok? ==>
              var n := l.Release(holder, revision, at).value;
              && n == Lease(l.session, l.holder, l.revision + 1, at, at, Some(at))
              && forall h, r, t :: n.Refusal(h, r, t).Some?
  {
  }

  /** A lease is taken exactly if there is none, or its own session's is released or expired, never back in time. */
  lemma AcquiresIff(current: Option<Lease>, session: ID, holder: ID, at: Time, duration: int)
    ensures Acquire(current, session, holder, at, duration).Ok? <==>
              && at != ZERO_TIME && duration > 0
              && (current.Some? ==>
                    && current.value.session == session && current.value.revision >= 1
                    && current.value.lastHeartbeat <= at
                    && (current.value.releasedAt.Some? || current.value.expiresAt <= at))
    ensures Acquire(current, session, holder, at, duration).Ok? ==>
              var n := Acquire(current, session, holder, at, duration).value;
              && n.session == session && n.holder == holder && n.lastHeartbeat == at && n.releasedAt.None?
              && n.expiresAt == at + duration
              && n.revision == (if current.None? then 1 else current.value.revision + 1)
    ensures Acquire(current, session, holder, at, duration) == Err(LeaseHeld) <==>
              && at != ZERO_TIME && duration > 0 && current.Some? && current.value.session == session
              && current.value.revision >= 1 && current.value.releasedAt.None?
              && current.value.lastHeartbeat <= at < current.value.expiresAt
    ensures Acquire(current, session, holder, at, duration) == Err(Conflict) <==>
              at != ZERO_TIME && duration > 0 && current.Some? && current.value.session != session
    ensures Acquire(current, session, holder, at, duration) == Err(InvalidArgument) <==>
              || at == ZERO_TIME || duration <= 0
              || (current.Some? && current.value.session == session &&
                  (current.value.revision < 1 || at < current.value.lastHeartbeat))
  {
  }

  // ---- The manager ----

  function RowOf(leases: map<ID, Lease>, session: ID): Option<Lease> {
    if session in leases then Some(leases[session]) else None
  }

  class Manager {
    var leases: map<ID, Lease>
    const duration: int

    /** Every stored lease is under its own session and has a revision. */
    ghost predicate Valid()
      reads this
    {
      forall s | s in leases :: leases[s].session == s && leases[s].revision >= 1
    }

    constructor (duration: int)
      ensures Valid() && leases == map[] && this.duration == duration
    {
      this.duration := duration;
      leases := map[];
    }

    /** Compare-and-swap against the stored revision; zero stands for no row. */
    method Save(lease: Lease, expected: int) returns (failure: Option<Code>)
      modifies this`leases
      ensures failure.None? <==>
                if expected == 0 then lease.revision == 1 && lease.session !in old(leases)
                else lease.session in old(leases) && old(leases)[lease.session].revision == expected
      ensures leases == if failure.None? then old(leases)[lease.session := lease] else old(leases)
      ensures failure.Some? ==> failure == Some(StaleLease)
    {
      if expected == 0 {
        if lease.revision != 1 || lease.session in leases { return Some(StaleLease); }
      } else if lease.session !in leases || leases[lease.session].revision != expected {
        return Some(StaleLease);
      }
      leases := leases[lease.session := lease];
      return None;
    }

    /** Read, compute and swap under the lock, so the swap never finds another revision. */
    method AcquireLease(session: ID, holder: ID, at: Time) returns (r: Outcome<Lease>)
      requires Valid()
      modifies this`leases
      ensures Valid()
      ensures r == Acquire(RowOf(old(leases), session), session, holder, at, duration)
      ensures leases == if r.Ok? then old(leases)[session := r.value] else old(leases)
    {
      var current := RowOf(leases, session);
      r := Acquire(current, session, holder, at, duration);
      if r.Err? { return; }
      var expected := if current.Some? then current.value.revision else 0;
      var failure := Save(r.value, expected);
      if failure.Some? { r := Err(StaleLease); }
    }

    method HeartbeatLease(session: ID, holder: ID, revision: int, at: Time) returns (r: Outcome<Lease>)
      requires Valid()
      modifies this`leases
      ensures Valid()
      ensures r == if session in old(leases) then old(leases)[session].Heartbeat(holder, revision, at, duration)
                   else Err(NotFound)
      ensures leases == if r.Ok? then old(leases)[session := r.value] else old(leases)
    {
      if session !in leases { return Err(NotFound); }
      var lease := leases[session];
      r := lease.Heartbeat(holder, revision, at, duration);
      if r.Err? { return; }
      var failure := Save(r.value, lease.revision);
      if failure.Some? { r := Err(StaleLease); }
    }

    method ReleaseLease(session: ID, holder: ID, revision: int, at: Time) returns (r: Outcome<Lease>)
      requires Valid()
      modifies this`leases
      ensures Valid()
      ensures r == if session in old(leases) then old(leases)[session].Release(holder, revision, at) else Err(NotFound)
      ensures leases == if r.Ok? then old(leases)[session := r.value] else old(leases)
    {
      if session !in leases { return Err(NotFound); }
      var lease := leases[session];
      r := lease.Release(holder, revision, at);
      if r.Err? { return; }
      var failure := Save(r.value, lease.revision);
      if failure.Some? { r := Err(StaleLease); }
    }
  }
}
