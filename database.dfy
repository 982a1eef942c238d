/** The database-connection lifecycle manager of database/db.js: a process-wide
    object holding `isConnected` and `retryCount`, driven by the driver's
    connection events, by the outcome of each connect attempt, by the
    bounded-retry handler, by the disconnection handler and by the termination
    signal.

    Everything the manager does to the world around it (calling connect()
    again, waiting RETRY_INTERVAL, process.exit) comes back as an `Action`;
    everything the driver does (resolving or rejecting a connect, firing an
    event, closing) arrives as a parameter. */
module Database {

  /** How many times a failed connection is retried before the process gives up. */
  const MaxRetries: nat := 3

  datatype Option<T> = None | Some(value: T)

  /** The driver events the manager subscribes to when it is constructed. */
  datatype DriverEvent = Connected | Error | Disconnected

  /** How one connection attempt ends. */
  datatype Attempt =
    | NoUri        // the URI variable is unset: connect() throws before reaching the driver
    | Established  // the driver's connect resolved
    | Refused      // the driver's connect rejected

  /** What the manager asks of the process around it once a transition is done. */
  datatype Action =
    | Idle             // nothing further
    | Retry            // wait the retry interval (5000 ms), then call connect() again
    | Reconnect        // call connect() again at once
    | Exit(code: int)  // end the process with this status

  /** What the driver reports about the connection itself; opaque to the manager. */
  datatype DriverConnection = DriverConnection(readyState: int, host: Option<string>, name: Option<string>)

  /** The snapshot handed to the health controller. */
  datatype ConnectionStatus = ConnectionStatus(isConnected: bool, readyState: int, host: Option<string>, name: Option<string>)

  /** The manager's own state. */
  datatype State = State(isConnected: bool, retryCount: nat)

  /** The state right after construction. */
  const Initial: State := State(false, 0)

  /** The bound the retry handler keeps. */
  predicate WithinRetryBound(s: State) {
    s.retryCount <= MaxRetries
  }

  /** One input to the manager, in the order the event loop delivers them. */
  datatype Input =
    | Event(event: DriverEvent)       // a driver event fires
    | ConnectCall(attempt: Attempt)   // connect() runs and its attempt ends so
    | ConnectionErrorCall             // handleConnectionError() runs
    | TerminationSignal(closed: bool) // SIGTERM: the close succeeded or failed

  datatype Transition = Transition(state: State, action: Action)

  /** The manager's transition function, as the source is written:
      "connected" and "error" set the flag; "disconnected" leaves it alone and
      asks for a reconnect only when the flag is already false; connect()
      resets the counter on success and swallows every failure; the retry
      handler counts up to MaxRetries and then gives up with status 1; the
      termination hook exits 0 or 1 according to the close. */
  function Step(s: State, input: Input): (t: Transition)
    ensures WithinRetryBound(s) ==> WithinRetryBound(t.state)
    ensures input.Event? && input.event.Disconnected? ==> t.state == s
  {
    match input
    case Event(Connected) => Transition(s.(isConnected := true), Idle)
    case Event(Error) => Transition(s.(isConnected := false), Idle)
    case Event(Disconnected) => Transition(s, if s.isConnected then Idle else Reconnect)
    case ConnectCall(attempt) =>
      Transition(if attempt == Established then s.(retryCount := 0) else s, Idle)
    case ConnectionErrorCall =>
      if s.retryCount < MaxRetries then Transition(s.(retryCount := s.retryCount + 1), Retry)
      else Transition(s, Exit(1))
    case TerminationSignal(closed) => Transition(s, Exit(if closed then 0 else 1))
  }

  /** The state after the inputs, one after another. No sequence of inputs
      drives the counter past MaxRetries. */
  function Run(s: State, inputs: seq<Input>): (r: State)
    ensures WithinRetryBound(s) ==> WithinRetryBound(r)
    decreases |inputs|
  {
    if inputs == [] then s else Run(Step(s, inputs[0]).state, inputs[1..])
  }

  /** Reference reading of the connection flag: scanning back from the most
      recent input, the first "connected" event makes it true and the first
      "error" event false; with neither, it is what it was at the start. */
  function LastVerdict(inputs: seq<Input>, initial: bool): bool
    decreases |inputs|
  {
    if inputs == [] then initial
    else match inputs[|inputs| - 1]
      case Event(Connected) => true
      case Event(Error) => false
      case _ => LastVerdict(inputs[..|inputs| - 1], initial)
  }

  lemma {:induction false} RunSnoc(s: State, inputs: seq<Input>, last: Input)
    ensures Run(s, inputs + [last]) == Step(Run(s, inputs), last).state
    decreases |inputs|
  {
    if inputs == [] {
      assert [] + [last] == [last];
    } else {
      assert (inputs + [last])[1..] == inputs[1..] + [last];
      RunSnoc(Step(s, inputs[0]).state, inputs[1..], last);
    }
  }

  /** The connection flag after any inputs is decided by the most recent
      "connected" or "error" event alone: connect attempts, the handlers and
      "disconnected" events never change it. */
  lemma {:induction false} ConnectedFlagFollowsLastEvent(s: State, inputs: seq<Input>)
    ensures Run(s, inputs).isConnected == LastVerdict(inputs, s.isConnected)
    decreases |inputs|
  {
    if inputs != [] {
      var front, last := inputs[..|inputs| - 1], inputs[|inputs| - 1];
      assert inputs == front + [last];
      RunSnoc(s, front, last);
      ConnectedFlagFollowsLastEvent(s, front);
    }
  }

  /** As written, a "disconnected" event that follows a "connected" one
      neither clears the flag nor asks for a reconnect: until an "error" event
      arrives, the drop is not recovered and the flag goes on claiming a live
      connection. */
  lemma DisconnectAfterConnectIsIgnored(s: State)
    ensures Step(Step(s, Event(Connected)).state, Event(Disconnected))
         == Transition(s.(isConnected := true), Idle)
    ensures Run(s, [Event(Connected), Event(Disconnected)]).isConnected
  {
    assert [Event(Connected), Event(Disconnected)][1..] == [Event(Disconnected)];
  }

  /** Once an "error" event has cleared the flag, the next "disconnected"
      event does ask for a reconnect. */
  lemma ErrorThenDisconnectReconnects(s: State)
    ensures Step(Step(s, Event(Error)).state, Event(Disconnected)) == Transition(s.(isConnected := false), Reconnect)
  {
  }

  // ---------------------------------------------------------------------------
  // The connect -> handleConnectionError -> connect chain

  /** Where a chain of attempts ends: the state, how many attempts it made and
      what it asks for last (`Idle` after a success, `Exit(1)` when the handler
      gives up, `Retry` when one more attempt is owed but no outcome is given). */
  datatype Outcome = Outcome(state: State, attempts: nat, action: Action)

  /** The chain begun by one connect() call as the catch block evidently meant
      it: each failed attempt enters the retry handler, whose `Retry` leads to
      the next attempt. `results` are the attempts' outcomes in order.

      From a state within the bound, the chain makes at most
      MaxRetries - retryCount + 1 attempts, every attempt before its last
      failed, and it ends in one of three ways: success with the counter back
      at 0, exhaustion with exit status 1 and the counter at MaxRetries, or
      running out of outcomes with a retry still owed. The connection flag is
      never touched. */
  function Chain(s: State, results: seq<Attempt>): (o: Outcome)
    ensures o.state.isConnected == s.isConnected
    ensures o.attempts <= |results|
    ensures forall k :: 0 <= k < o.attempts - 1 ==> results[k] != Established
    ensures o.action == Idle <==> 0 < o.attempts && results[o.attempts - 1] == Established
    ensures o.action == Idle ==> o.state.retryCount == 0
    ensures o.action == Retry ==> o.attempts == |results|
    ensures o.action == Idle || o.action == Retry || o.action == Exit(1)
    ensures WithinRetryBound(s) ==>
      && WithinRetryBound(o.state)
      && o.attempts <= MaxRetries - s.retryCount + 1
      && (o.action == Exit(1) ==> o.state.retryCount == MaxRetries
                                  && o.attempts == MaxRetries - s.retryCount + 1)
    decreases |results|
  {
    if results == [] then Outcome(s, 0, Retry)
    else
      var t := Step(s, ConnectCall(results[0])).state;
      if results[0] == Established then Outcome(t, 1, Idle)
      else
        var h := Step(t, ConnectionErrorCall);
        if h.action == Retry then
          var o := Chain(h.state, results[1..]);
          assert forall k :: 0 <= k < o.attempts ==> results[k + 1] == results[1..][k];
          Outcome(o.state, o.attempts + 1, o.action)
        else Outcome(h.state, 1, h.action)
  }

  /** A chain whose first j attempts fail and whose next one succeeds, with j
      within the retries left, connects on attempt j + 1 and resets the
      counter, whatever it was before. */
  lemma {:induction false} ChainSucceeds(s: State, results: seq<Attempt>, j: nat)
    requires WithinRetryBound(s)
    requires j < |results| && j <= MaxRetries - s.retryCount
    requires results[j] == Established
    requires forall k :: 0 <= k < j ==> results[k] != Established
    ensures Chain(s, results) == Outcome(s.(retryCount := 0), j + 1, Idle)
    decreases j
  {
    if j > 0 {
      var h := Step(s, ConnectionErrorCall).state;
      ChainSucceeds(h, results[1..], j - 1);
    }
  }

  /** A chain whose first MaxRetries - retryCount + 1 attempts all fail gives
      up on the last of them with exit status 1, and makes no further attempt. */
  lemma {:induction false} ChainGivesUp(s: State, results: seq<Attempt>)
    requires WithinRetryBound(s)
    requires MaxRetries - s.retryCount < |results|
    requires forall k :: 0 <= k <= MaxRetries - s.retryCount ==> results[k] != Established
    ensures Chain(s, results) == Outcome(s.(retryCount := MaxRetries), MaxRetries - s.retryCount + 1, Exit(1))
    decreases MaxRetries - s.retryCount
  {
    if s.retryCount < MaxRetries {
      var h := Step(s, ConnectionErrorCall).state;
      ChainGivesUp(h, results[1..]);
    }
  }

  /** From a fresh manager whose counter starts at 0, with the catch block
      calling the handler and the retry delay resolving: two failures and then
      a success end on the third attempt with the counter back at 0; three
      failures still owe a fourth attempt, and only the fourth failure ends
      the process. */
  lemma FreshManagerScenarios()
    ensures Chain(Initial, [Refused, NoUri, Established]) == Outcome(Initial, 3, Idle)
    ensures Chain(Initial, [Refused, Refused, Refused]) == Outcome(State(false, 3), 3, Retry)
    ensures Chain(Initial, [Refused, Refused, Refused, Refused, Established]) == Outcome(State(false, 3), 4, Exit(1))
  {
    ChainSucceeds(Initial, [Refused, NoUri, Established], 2);
    ChainGivesUp(Initial, [Refused, Refused, Refused, Refused, Established]);
    var s3 := [Refused, Refused, Refused];
    assert s3[1..] == [Refused, Refused] && s3[1..][1..] == [Refused] && s3[1..][1..][1..] == [];
  }

  /** As written, a refused first attempt is swallowed: nothing is retried and
      the counter stays at 0, where the intended chain would retry once. */
  lemma RefusedConnectIsNeverRetried()
    ensures Step(Initial, ConnectCall(Refused)) == Transition(Initial, Idle)
    ensures Chain(Initial, [Refused]) == Outcome(State(false, 1), 1, Retry)
  {
  }

  // ---------------------------------------------------------------------------
  // The manager object

  class DatabaseConnection {
    var isConnected: bool
    var retryCount: nat

    function Current(): State
      reads this
    {
      State(isConnected, retryCount)
    }

    predicate Valid()
      reads this
    {
      WithinRetryBound(Current())
    }

    /** The source assigns `this.retrycount` (lower-case c), so its
        `retryCount` starts out undefined; here it starts at 0. */
    constructor ()
      ensures Valid() && Current() == Initial
    {
      isConnected := false;
      retryCount := 0;
    }

    /** The three callbacks registered on the driver's connection. */
    method Notify(event: DriverEvent) returns (action: Action)
      modifies this
      ensures Transition(Current(), action) == Step(old(Current()), Event(event))
      ensures event == Connected ==> isConnected && retryCount == old(retryCount) && action == Idle
      ensures event == Error ==> !isConnected && retryCount == old(retryCount) && action == Idle
      ensures event == Disconnected ==> Current() == old(Current())
      ensures event == Disconnected ==> (action == Reconnect <==> !isConnected)
      ensures old(Valid()) ==> Valid()
    {
      match event
      case Connected =>
        isConnected := true;
        action := Idle;
      case Error =>
        isConnected := false;
        action := Idle;
      case Disconnected =>
        action := HandleDisconnection();
    }

    /** Asks for a fresh connect() exactly when the flag says the manager is
        not connected; changes nothing. */
    method HandleDisconnection() returns (action: Action)
      ensures action == Reconnect <==> !isConnected
      ensures action == Idle <==> isConnected
    {
      if !isConnected {
        action := Reconnect;
      } else {
        action := Idle;
      }
    }

    /** connect() as written: an unset URI or a refused attempt is caught and
        logged, and the catch block only names handleConnectionError without
        calling it, so a failure changes nothing. A success resets the counter;
        the flag is left to the "connected" event. */
    method Connect(attempt: Attempt)
      modifies this
      ensures Current() == Step(old(Current()), ConnectCall(attempt)).state
      ensures isConnected == old(isConnected)
      ensures attempt == Established ==> retryCount == 0
      ensures attempt != Established ==> retryCount == old(retryCount)
      ensures old(Valid()) ==> Valid()
    {
      if attempt == Established {
        retryCount := 0;
      }
    }

    /** The bounded-retry handler: below MaxRetries it counts one more retry
        and asks for another attempt after the retry interval; at the bound it
        gives up with exit status 1 and asks for no further attempt.
        In the source the delay's promise never resolves (its callback names
        `resolve` without calling it), so the connect() that should follow a
        retry never runs; `Retry` stands for the delay as intended, ending in
        that connect(). */
    method HandleConnectionError() returns (action: Action)
      modifies this
      ensures Transition(Current(), action) == Step(old(Current()), ConnectionErrorCall)
      ensures isConnected == old(isConnected)
      ensures old(retryCount) < MaxRetries ==> retryCount == old(retryCount) + 1 && action == Retry
      ensures old(retryCount) >= MaxRetries ==> retryCount == old(retryCount) && action == Exit(1)
      ensures old(Valid()) ==> Valid()
    {
      if retryCount < MaxRetries {
        retryCount := retryCount + 1;
        action := Retry;
      } else {
        action := Exit(1);
      }
    }

    /** connect() with its catch block calling handleConnectionError(), and
        each `Retry` followed by the next attempt, until an attempt succeeds,
        the handler gives up or the given outcomes run out. */
    method ConnectWithRetries(results: seq<Attempt>) returns (attempts: nat, action: Action)
      requires Valid()
      modifies this
      ensures Valid()
      ensures Outcome(Current(), attempts, action) == Chain(old(Current()), results)
      ensures attempts <= |results| && attempts <= MaxRetries - old(retryCount) + 1
      ensures action == Idle ==> 0 < attempts && retryCount == 0 && results[attempts - 1] == Established
      ensures action.Exit? ==> action == Exit(1) && retryCount == MaxRetries
    {
      ghost var start := Current();
      attempts, action := 0, Retry;
      while attempts < |results| && action == Retry
        invariant attempts <= |results|
        invariant Valid()
        invariant action == Retry ==>
          var o := Chain(Current(), results[attempts..]);
          Chain(start, results) == Outcome(o.state, o.attempts + attempts, o.action)
        invariant action != Retry ==> Chain(start, results) == Outcome(Current(), attempts, action)
        decreases |results| - attempts, if action == Retry then 1 else 0
      {
        var result := results[attempts];
        assert results[attempts..][0] == result;
        assert results[attempts..][1..] == results[attempts + 1..];
        Connect(result);
        if result == Established {
          action := Idle;
        } else {
          action := HandleConnectionError();
        }
        attempts := attempts + 1;
      }
    }

    /** The SIGTERM hook: exit status 0 when the close succeeds, 1 when it fails. */
    method HandleAppTermination(closed: bool) returns (action: Action)
      ensures action == Exit(0) <==> closed
      ensures action == Exit(1) <==> !closed
    {
      if closed {
        action := Exit(0);
      } else {
        action := Exit(1);
      }
    }

    /** A snapshot for the health controller; changes nothing. The snapshot is
        a value, so later changes to the manager do not reach it. */
    method GetConnectionStatus(conn: DriverConnection) returns (status: ConnectionStatus)
      ensures status.isConnected == isConnected
      ensures status.readyState == conn.readyState && status.host == conn.host && status.name == conn.name
    {
      status := ConnectionStatus(isConnected, conn.readyState, conn.host, conn.name);
    }
  }
}
