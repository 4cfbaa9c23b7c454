/** The session record and its life cycle (internal/domain/session.go). */
module SessionDomain {
  import opened Base

  datatype SessionStatus = Starting | Running | Stopping | Exited | Failed | Killed {

    predicate Terminal() { Exited? || Failed? || Killed? }

    /** The edges of the transition table. */
    predicate Allows(next: SessionStatus) {
      match this
      case Starting => next.Running? || next.Failed? || next.Killed?
      case Running => next.Stopping? || next.Failed? || next.Killed?
      case Stopping => next.Exited? || next.Failed? || next.Killed?
      case _ => false
    }

    /** How far a session has come. Every edge of the table raises it. */
    function Rank(): nat {
      match this
      case Starting => 0
      case Running => 1
      case Stopping => 2
      case _ => 3
    }
  }

  datatype Capability = SessionResume | OtherCapability(name: nat)

  /** A canonical capability snapshot is sorted and free of repeats, so it is a set. */
  datatype Session = Session(
    device: ID,
    account: Option<ID>,
    provider: Provider,
    credential: ID,
    profile: ID,
    workspace: ID,
    providerSession: Option<nat>,
    resumedFrom: Option<ID>,
    status: SessionStatus,
    startedAt: Time,
    endedAt: Option<Time>,
    exitCode: Option<int>,
    capabilities: set<Capability>,
    failure: Option<nat>,
    rowid: nat)

  /** What a session is frozen to at its start and passes on to a resumed one. */
  datatype Tuple = Tuple(device: ID, account: Option<ID>, provider: Provider, credential: ID, profile: ID,
                         workspace: ID, capabilities: set<Capability>)

  function TupleOf(s: Session): Tuple {
    Tuple(s.device, s.account, s.provider, s.credential, s.profile, s.workspace, s.capabilities)
  }

  /** Validates a new record and clears what only a transition may set. */
  function NewSession(s: Session): (r: Outcome<Session>)
    ensures r.Ok? <==>
              && s.status == Starting && s.startedAt != ZERO_TIME && (s.provider == Codex ==> s.account.Some?)
              && (s.resumedFrom.Some? ==> SessionResume in s.capabilities)
    ensures r.Ok? ==>
              && r.value.endedAt.None? && r.value.exitCode.None? && r.value.failure.None?
              && r.value.(endedAt := s.endedAt, exitCode := s.exitCode, failure := s.failure) == s
    ensures r == Err(InvalidArgument) <==> s.startedAt == ZERO_TIME || (s.provider == Codex && s.account.None?)
    ensures r.Err? && r.code != InvalidArgument ==>
              r.code == if s.status != Starting then InvalidTransition else PermissionDenied
  {
    if s.startedAt == ZERO_TIME then Err(InvalidArgument)
    else if s.provider == Codex && s.account.None? then Err(InvalidArgument)
    else if s.status != Starting then Err(InvalidTransition)
    else if s.resumedFrom.Some? && SessionResume !in s.capabilities then Err(PermissionDenied)
    else Ok(s.(endedAt := None, exitCode := None, failure := None))
  }

  /** Applies one edge, or refuses. Only a terminal edge writes exit metadata. */
  function Transition(s: Session, next: SessionStatus, at: Time, exitCode: Option<int>, failure: Option<nat>)
    : (r: Outcome<Session>)
    ensures r.Ok? <==>
              && at != ZERO_TIME && s.startedAt <= at && s.status.Allows(next) && (next == Failed ==> failure.Some?)
              && (next.Terminal() || (exitCode.None? && failure.None?))
    ensures r.Ok? ==> s.status.Rank() < r.value.status.Rank() && !s.status.Terminal()
    ensures r.Ok? && next.Terminal() ==>
              r.value.endedAt == Some(at) && r.value.exitCode == exitCode && r.value.failure == failure
    ensures r.Err? ==>
              r.code == if at != ZERO_TIME && !s.status.Allows(next) then InvalidTransition else InvalidArgument
    ensures r.Ok? && (s.endedAt.Some? <==> s.status.Terminal()) ==>
              (r.value.endedAt.Some? <==> r.value.status.Terminal())
    ensures r.Ok? ==> TupleOf(r.value) == TupleOf(s) && r.value.startedAt == s.startedAt
  {
    if at == ZERO_TIME then Err(InvalidArgument)
    else if s.status.Terminal() then Err(InvalidTransition)
    else if !s.status.Allows(next) then Err(InvalidTransition)
    else if at < s.startedAt then Err(InvalidArgument)
    else if next == Failed && failure.None? then Err(InvalidArgument)
    else if !next.Terminal() && (exitCode.Some? || failure.Some?) then Err(InvalidArgument)
    else if next.Terminal() then
      Ok(s.(status := next, endedAt := Some(at), exitCode := exitCode, failure := failure))
    else Ok(s.(status := next))
  }

  /** A new starting session that continues a terminal one. */
  function Resume(s: Session, id: ID, newId: ID, at: Time): (r: Outcome<Session>)
    ensures r.Ok? <==>
              && s.status.Terminal() && newId != id && s.endedAt.Some? && s.endedAt.value <= at && at != ZERO_TIME
              && SessionResume in s.capabilities && (s.provider == Codex ==> s.account.Some?)
    ensures r.Ok? ==>
              && r.value.status == Starting && r.value.startedAt == at && r.value.endedAt.None?
              && r.value.exitCode.None? && r.value.failure.None?
              && r.value.resumedFrom == Some(id) && TupleOf(r.value) == TupleOf(s)
              && r.value.providerSession == s.providerSession
    ensures r.Err? ==>
              r.code == if !s.status.Terminal() then InvalidTransition
                        else if SessionResume !in s.capabilities then PermissionDenied
                        else if newId == id then Conflict
                        else InvalidArgument
  {
    if !s.status.Terminal() then Err(InvalidTransition)
    else if SessionResume !in s.capabilities then Err(PermissionDenied)
    else if newId == id then Err(Conflict)
    else if s.endedAt.None? || at < s.endedAt.value then Err(InvalidArgument)
    else NewSession(s.(resumedFrom := Some(id), status := Starting, startedAt := at))
  }
}
