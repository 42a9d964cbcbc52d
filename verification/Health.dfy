/** `Health` of src/slackbot/socket_mode.rs: two flags, a notification permit that
    saturates at one, one waiter, and any number of notifiers. Every atomic action is
    a step, so a notifier may stop between its store and its notification. */
module HealthMonitor {
  import opened Harvest

  datatype Outcome = Ready | Failed(message: string)

  /** Where the waiter stands in `wait_ready` or `wait_failure`. */
  datatype Place = Checking | Loading | Awaiting | Parked | Ended(outcome: Outcome)

  /** `owed` notifiers have stored their flag but not notified yet; `startup` tells
      `wait_ready` from the `wait_failure` that follows it. */
  datatype State = State(ready: bool, failure: Option<string>, permit: bool, owed: nat, startup: bool, at: Place)

  const START := State(false, None, false, 0, true, Checking)

  datatype Step = Hello(sameApp: bool, complaint: string) | Fail(message: string) | Notify | Wait | Watch

  function Kept(failure: Option<string>, message: string): Option<string> {
    if failure.Some? then failure else Some(message)
  }

  function Failing(s: State, message: string): State { s.(failure := Kept(s.failure, message), owed := s.owed + 1) }

  function Notified(s: State): State {
    if s.at.Parked? then s.(at := Checking) else s.(permit := true)
  }

  function Waited(s: State): State {
    match s.at
    case Checking =>
      if s.failure.Some? then s.(at := Ended(Failed(s.failure.value)))
      else s.(at := if s.startup then Loading else Awaiting)
    case Loading => s.(at := if s.ready then Ended(Ready) else Awaiting)
    case Awaiting => if s.permit then s.(permit := false, at := Checking) else s.(at := Parked)
    case Parked => s
    case Ended(_) => s
  }

  /** A step that is not possible changes nothing. */
  function Next(s: State, step: Step): State {
    match step
    case Hello(sameApp, complaint) => if sameApp then s.(ready := true, owed := s.owed + 1) else Failing(s, complaint)
    case Fail(message) => Failing(s, message)
    case Notify => if s.owed > 0 then Notified(s.(owed := s.owed - 1)) else s
    case Wait => Waited(s)
    case Watch => if s.at == Ended(Ready) then s.(startup := false, at := Checking) else s
  }

  function Run(steps: seq<Step>): State {
    if steps == [] then START else Next(Run(steps[..|steps| - 1]), steps[|steps| - 1])
  }

  /** What the waiter is waiting for has happened. */
  predicate Due(s: State) { s.failure.Some? || (s.startup && s.ready) }

  ghost predicate Inv(s: State) {
    && (s.at.Parked? ==> !s.permit)
    && (s.at.Loading? ==> s.startup)
    && (s.at.Loading? && s.failure.Some? ==> s.permit || s.owed > 0)
    && ((s.at.Awaiting? || s.at.Parked?) && Due(s) ==> s.permit || s.owed > 0)
    && (s.at.Ended? && s.at.outcome.Failed? ==> s.failure == Some(s.at.outcome.message))
    && (s.at == Ended(Ready) ==> s.ready && s.startup)
  }

  lemma {:induction false} EveryRun(steps: seq<Step>)
    ensures Inv(Run(steps))
  {
    if steps != [] {
      EveryRun(steps[..|steps| - 1]);
    }
  }

  /** A parked waiter whose event has happened is about to be notified: once every
      notifier has finished, nobody is parked over an event that has happened. */
  lemma NoLostWakeup(steps: seq<Step>)
    ensures var s := Run(steps); s.at.Parked? && Due(s) ==> s.owed > 0
  {
    EveryRun(steps);
  }

  function Alone(s: State, n: nat): State
    decreases n
  {
    if n == 0 then s else Alone(Waited(s), n - 1)
  }

  lemma AloneFour(s: State)
    ensures Alone(s, 4) == Waited(Waited(Waited(Waited(s))))
  {
  }

  /** Once the notifiers have finished, a waiter whose event has happened ends within
      four steps of its own, whatever permits are left over; one that watches for a
      failure, or that is past the point of seeing a hello, reports the failure. */
  lemma WaiterEnds(steps: seq<Step>)
    ensures var s, e := Run(steps), Alone(Run(steps), 4);
      s.owed == 0 && Due(s) ==> e.at.Ended? && (!s.startup || !s.ready ==> e.at.outcome == Failed(s.failure.value))
  {
    EveryRun(steps);
    AloneFour(Run(steps));
  }

  /** The complaint of the earliest failure among the steps. */
  function FirstFailure(steps: seq<Step>): Option<string> {
    if steps == [] then None
    else if steps[0].Fail? then Some(steps[0].message)
    else if steps[0].Hello? && !steps[0].sameApp then Some(steps[0].complaint)
    else FirstFailure(steps[1..])
  }

  lemma {:induction false} FirstOfLonger(steps: seq<Step>)
    requires steps != []
    ensures var init := FirstFailure(steps[..|steps| - 1]);
      FirstFailure(steps) == if init.Some? then init else FirstFailure([steps[|steps| - 1]])
  {
    if |steps| > 1 {
      FirstOfLonger(steps[1..]);
      assert steps[1..][..|steps[1..]| - 1] == steps[..|steps| - 1][1..];
    } else {
      assert steps == [steps[0]] && steps[..0] == [];
    }
  }

  /** The failure slot holds the first failure of the run, and a waiter that reports a
      failure reports that one. */
  lemma {:induction false} FirstFailureStays(steps: seq<Step>)
    ensures Run(steps).failure == FirstFailure(steps)
    ensures Run(steps).at.Ended? && Run(steps).at.outcome.Failed? ==>
      FirstFailure(steps) == Some(Run(steps).at.outcome.message)
  {
    EveryRun(steps);
    if steps != [] {
      FirstFailureStays(steps[..|steps| - 1]);
      FirstOfLonger(steps);
    }
  }

  /** The object, step by step; `s` is what the machine says about it. */
  class Health {
    var ready: bool
    var failure: Option<string>
    var permit: bool

    predicate Is(s: State)
      reads this
    {
      s.ready == ready && s.failure == failure && s.permit == permit
    }

    constructor ()
      ensures Is(START)
    {
      ready, failure, permit := false, None, false;
    }

    method StoreFailure(message: string, ghost s: State)
      requires Is(s)
      modifies this`failure
      ensures Is(Next(s, Step.Fail(message)))
    {
      if failure.None? { failure := Some(message); }
    }

    method StoreReady(ghost s: State)
      requires Is(s)
      modifies this`ready
      ensures forall complaint :: Is(Next(s, Hello(true, complaint)))
    {
      ready := true;
    }

    /** A parked waiter takes the notification instead of leaving a permit. */
    method NotifyOne(parked: bool, ghost s: State)
      requires Is(s) && s.owed > 0 && (parked <==> s.at.Parked?)
      modifies this`permit
      ensures Is(Next(s, Notify))
    {
      if !parked { permit := true; }
    }

    /** One turn of either loop when no notifier runs in between; the reads are
        separate steps of the machine. */
    method Turn(startup: bool, ghost s: State) returns (at: Place)
      requires Is(s) && s.at.Checking? && s.startup == startup
      modifies this`permit
      ensures var n := if s.startup && s.failure.None? then 3 else 2; Is(Alone(s, n)) && at == Alone(s, n).at
    {
      assert Alone(s, 3) == Alone(Waited(s), 2) == Alone(Waited(Waited(s)), 1) && Alone(s, 2) == Alone(Waited(s), 1);
      if failure.Some? { return Ended(Failed(failure.value)); }
      if startup && ready { return Ended(Ready); }
      if permit {
        permit := false;
        return Checking;
      }
      return Parked;
    }
  }
}
