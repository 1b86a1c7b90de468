/** How long a blocked worker thread waits, against how long the hub does. */
module Deadlines {
  import opened Wrappers

  const DEFAULT_COMMAND_TIMEOUT := 900.0
  const RESULT_MARGIN := 30.0
  const FABRIC_TIMEOUT := 120.0
  const PULL_TIMEOUT := 14400.0

  /** The synchronous methods: the three that name a deadline somewhere, and the rest. */
  datatype Operation = PullImage | InstallBundle | ConfigureFabric | Other(name: string)

  /** What the operation passes on to the hub. */
  function CallTimeout(op: Operation): Option<real> {
    match op
    case PullImage => Some(PULL_TIMEOUT)
    case _ => None
  }

  /** What the blocking wrapper is told. */
  function RunTimeout(op: Operation): Option<real> {
    match op
    case PullImage => Some(PULL_TIMEOUT)
    case InstallBundle | ConfigureFabric => Some(FABRIC_TIMEOUT)
    case Other(_) => None
  }

  function HubDeadline(op: Operation, service: Option<real>, hubDefault: real): real {
    var timeout := if CallTimeout(op).None? then service else CallTimeout(op);
    if timeout.None? then hubDefault else timeout.value
  }

  /** `service or DEFAULT_COMMAND_TIMEOUT`: a zero is as good as none. */
  function ThreadDeadline(op: Operation, service: Option<real>): real {
    match RunTimeout(op)
    case Some(t) => t
    case None => if service.Some? && service.value != 0.0 then service.value else DEFAULT_COMMAND_TIMEOUT
  }

  function ThreadWait(op: Operation, service: Option<real>): real { ThreadDeadline(op, service) + RESULT_MARGIN }

  /** When the hub resolves a call it took up `lag` after the thread began to wait, on a node that
      answers after `work`, or never. */
  function HubResolves(lag: real, work: Option<real>, deadline: real): real {
    lag + (if work.Some? && work.value < deadline then work.value else deadline)
  }

  predicate GivesUpFirst(op: Operation, service: Option<real>, hubDefault: real, lag: real, work: Option<real>) {
    ThreadWait(op, service) < HubResolves(lag, work, HubDeadline(op, service, hubDefault))
  }

  /** With the loop at most `slack` behind, only the hub ever ends a call. */
  ghost predicate Outlasts(op: Operation, service: Option<real>, hubDefault: real, slack: real) {
    forall lag, work :: 0.0 <= lag <= slack ==> !GivesUpFirst(op, service, hubDefault, lag, work)
  }

  /** The condition for each operation, on the service's own timeout and the hub's default. */
  predicate Suits(op: Operation, service: Option<real>, hubDefault: real, slack: real) {
    match op
    case PullImage => slack <= 30.0
    case InstallBundle | ConfigureFabric => (if service.Some? then service.value else hubDefault) + slack <= 150.0
    case Other(_) =>
      if service.None? then hubDefault + slack <= 930.0
      else slack <= 30.0 + (if service.value == 0.0 then 900.0 else 0.0)
  }

  /** A thread never gives up before the hub exactly when these bounds hold. */
  lemma OutlastsIff(op: Operation, service: Option<real>, hubDefault: real, slack: real)
    requires 0.0 <= slack
    ensures Outlasts(op, service, hubDefault, slack) <==> Suits(op, service, hubDefault, slack)
  {
    if !Suits(op, service, hubDefault, slack) {
      assert GivesUpFirst(op, service, hubDefault, slack, None);
    }
  }

  /** As shipped (no service timeout, the hub's default) every method outlasts a loop up to the
      margin behind, except the two that bound the thread and not the hub; a pull may take four
      hours, anything else fifteen minutes. */
  lemma AsShipped(op: Operation)
    ensures Outlasts(op, None, 900.0, 30.0) <==> !op.InstallBundle? && !op.ConfigureFabric?
    ensures HubDeadline(op, None, 900.0) == if op.PullImage? then 14400.0 else 900.0
    ensures ThreadWait(op, None) ==
      if op.PullImage? then 14430.0 else if op.InstallBundle? || op.ConfigureFabric? then 150.0 else 930.0
  {
    OutlastsIff(op, None, 900.0, 30.0);
  }

  /** Those two blame the event loop whenever the node takes over 150 seconds, although the loop
      is not behind at all and the hub is still waiting, or has the answer. */
  lemma FabricBlamesTheLoop(op: Operation, work: Option<real>)
    requires op.InstallBundle? || op.ConfigureFabric?
    ensures GivesUpFirst(op, None, 900.0, 0.0, work) <==> work.None? || work.value > 150.0
  {
  }
}
