/** The reconnection protocol of the Redis client: event listeners, one timer, one attempt. */
module RedisReconnection {

  /** The service's four fields, and around them what the runtime holds for it: pending timers and
      reconnect attempts whose promise is not settled yet. */
  datatype State = State(
    connected: bool, ready: bool, reconnecting: bool, attempts: nat,
    timers: nat, inFlight: nat, disconnects: nat)

  datatype Event =
    | ErrorEvent | ReadyEvent | ConnectEvent | DisconnectEvent
    | InitialConnectFails
    | TimerFires
    | AttemptSucceeds | AttemptFails

  const Initial := State(false, false, false, 0, 0, 0, 0)

  function StartReconnectionStrategy(s: State): State {
    if s.reconnecting then s
    else s.(reconnecting := true,
            disconnects := if s.connected then s.disconnects + 1 else s.disconnects,
            timers := s.timers + 1)
  }

  /** Timers only fire, and attempts only settle, when there is one. */
  predicate Enabled(s: State, e: Event) {
    match e
    case TimerFires => s.timers > 0
    case AttemptSucceeds => s.inFlight > 0
    case AttemptFails => s.inFlight > 0
    case _ => true
  }

  function Step(s: State, e: Event, max: int): State
    requires Enabled(s, e)
  {
    match e
    case ErrorEvent => StartReconnectionStrategy(s.(connected := false, ready := false))
    case ReadyEvent => s.(ready := true)
    case ConnectEvent => s.(connected := true)
    case DisconnectEvent => s.(connected := false)
    case InitialConnectFails => StartReconnectionStrategy(s)
    case TimerFires => s.(timers := s.timers - 1, inFlight := s.inFlight + 1)
    case AttemptSucceeds => s.(inFlight := s.inFlight - 1, reconnecting := false, attempts := 0)
    case AttemptFails =>
      var s1 := s.(inFlight := s.inFlight - 1, attempts := s.attempts + 1, reconnecting := false);
      if s1.attempts > max then s1 else StartReconnectionStrategy(s1)
  }

  class BaseRedisService {
    const maxReconnectionAttempts: int
    var connected: bool
    var ready: bool
    var reconnecting: bool
    var reconnectionAttempts: nat
    /** The runtime's side. */
    var timers: nat
    var inFlight: nat
    var disconnects: nat

    constructor (max: int)
      ensures View() == Initial && maxReconnectionAttempts == max
    {
      maxReconnectionAttempts := max;
      connected, ready, reconnecting, reconnectionAttempts := false, false, false, 0;
      timers, inFlight, disconnects := 0, 0, 0;
    }

    function View(): State
      reads this
    {
      State(connected, ready, reconnecting, reconnectionAttempts, timers, inFlight, disconnects)
    }

    method StartReconnection()
      modifies this
      ensures View() == StartReconnectionStrategy(old(View()))
    {
      if reconnecting { return; }
      reconnecting := true;
      if connected { disconnects := disconnects + 1; }
      timers := timers + 1;
    }

    method OnError()
      modifies this
      ensures View() == Step(old(View()), ErrorEvent, maxReconnectionAttempts)
    {
      connected := false;
      ready := false;
      StartReconnection();
    }

    method OnReady()
      modifies this
      ensures View() == Step(old(View()), ReadyEvent, maxReconnectionAttempts)
    {
      ready := true;
    }

    method OnConnect()
      modifies this
      ensures View() == Step(old(View()), ConnectEvent, maxReconnectionAttempts)
    {
      connected := true;
    }

    method OnDisconnect()
      modifies this
      ensures View() == Step(old(View()), DisconnectEvent, maxReconnectionAttempts)
    {
      connected := false;
    }

    /** `startConnectionAsync`, once its connect call has settled. */
    method StartConnection(succeeds: bool)
      modifies this
      ensures View() == if succeeds then old(View()) else Step(old(View()), InitialConnectFails, maxReconnectionAttempts)
    {
      if !succeeds { StartReconnection(); }
    }

    method OnTimer()
      requires Enabled(View(), TimerFires)
      modifies this
      ensures View() == Step(old(View()), TimerFires, maxReconnectionAttempts)
    {
      timers := timers - 1;
      inFlight := inFlight + 1;
    }

    method OnAttemptResolved()
      requires Enabled(View(), AttemptSucceeds)
      modifies this
      ensures View() == Step(old(View()), AttemptSucceeds, maxReconnectionAttempts)
    {
      inFlight := inFlight - 1;
      reconnecting := false;
      reconnectionAttempts := 0;
    }

    method OnAttemptRejected()
      requires Enabled(View(), AttemptFails)
      modifies this
      ensures View() == Step(old(View()), AttemptFails, maxReconnectionAttempts)
    {
      inFlight := inFlight - 1;
      reconnectionAttempts := reconnectionAttempts + 1;
      reconnecting := false;
      if reconnectionAttempts > maxReconnectionAttempts { return; }
      StartReconnection();
    }
  }

  // ---- runs ----

  ghost predicate IsRun(s: State, es: seq<Event>, max: int)
    decreases |es|
  {
    es == [] || (Enabled(s, es[0]) && IsRun(Step(s, es[0], max), es[1..], max))
  }

  function Run(s: State, es: seq<Event>, max: int): State
    requires IsRun(s, es, max)
    decreases |es|
  {
    if es == [] then s else Run(Step(s, es[0], max), es[1..], max)
  }

  /** Exactly one timer or attempt is outstanding while reconnecting, none otherwise. */
  predicate OneOutstanding(s: State) {
    s.timers + s.inFlight == if s.reconnecting then 1 else 0
  }

  /** `reconnecting` is exact over every interleaving of events: never two timers, never two
      attempts, never a timer beside an attempt. */
  lemma {:induction false} OneOutstandingAlways(s: State, es: seq<Event>, max: int)
    requires OneOutstanding(s) && IsRun(s, es, max)
    ensures OneOutstanding(Run(s, es, max))
    decreases |es|
  {
    if es != [] {
      OneOutstandingAlways(Step(s, es[0], max), es[1..], max);
    }
  }

  function Count(es: seq<Event>, e: Event): nat
    decreases |es|
  {
    if es == [] then 0 else (if es[0] == e then 1 else 0) + Count(es[1..], e)
  }

  /** A chain is started from outside, by an error or the failed first connection, although the
      attempts are already used up. */
  predicate StartsExhausted(s: State, e: Event, max: int) {
    (e.ErrorEvent? || e.InitialConnectFails?) && !s.reconnecting && s.attempts > max
  }

  function ExhaustedStarts(s: State, es: seq<Event>, max: int): nat
    requires IsRun(s, es, max)
    decreases |es|
  {
    if es == [] then 0
    else (if StartsExhausted(s, es[0], max) then 1 else 0) + ExhaustedStarts(Step(s, es[0], max), es[1..], max)
  }

  /** The attempts the service may still make before it gives up. */
  function Budget(s: State, max: int): int {
    var left := max + 1 - s.attempts;
    if s.reconnecting && left < 1 then 1 else if left < 0 then 0 else left
  }

  /** Without a success a failed attempt uses exactly one unit of the budget, and nothing else changes
      it but a start from outside after exhaustion, which adds one: the measure of a chain. */
  lemma StepUsesBudget(s: State, e: Event, max: int)
    requires OneOutstanding(s) && Enabled(s, e) && e != AttemptSucceeds
    ensures Budget(Step(s, e, max), max) + (if e == AttemptFails then 1 else 0)
         == Budget(s, max) + (if StartsExhausted(s, e, max) then 1 else 0)
  {
  }

  /** A start from outside after exhaustion sets one timer, for one more attempt. */
  lemma ExhaustedStartTriesAgain(s: State, e: Event, max: int)
    requires OneOutstanding(s) && StartsExhausted(s, e, max)
    ensures var t := Step(s, e, max);
            t.reconnecting && t.timers == 1 && t.inFlight == 0 && Budget(s, max) == 0 && Budget(t, max) == 1
  {
  }

  /** Failures and what is left of the budget account for the budget and the starts from outside. */
  lemma {:induction false} FailuresUseBudget(s: State, es: seq<Event>, max: int)
    requires OneOutstanding(s) && IsRun(s, es, max) && AttemptSucceeds !in es
    ensures Count(es, AttemptFails) + Budget(Run(s, es, max), max) == Budget(s, max) + ExhaustedStarts(s, es, max)
    decreases |es|
  {
    if es != [] {
      StepUsesBudget(s, es[0], max);
      OneOutstandingAlways(s, [es[0]], max);
      FailuresUseBudget(Step(s, es[0], max), es[1..], max);
    }
  }

  lemma {:induction false} TimersAndAttempts(s: State, es: seq<Event>, max: int)
    requires IsRun(s, es, max) && AttemptSucceeds !in es
    ensures s.inFlight + Count(es, TimerFires) == Count(es, AttemptFails) + Run(s, es, max).inFlight
    decreases |es|
  {
    if es != [] {
      TimersAndAttempts(Step(s, es[0], max), es[1..], max);
    }
  }

  /** From zero attempts and without a success, at most `max + 1` attempts are made, plus one for
      each later start from outside; all of them have failed exactly when the service has given up,
      with the attempts used up and nothing outstanding. */
  lemma ChainGivesUp(s: State, es: seq<Event>, max: int)
    requires OneOutstanding(s) && s.attempts == 0 && s.inFlight == 0
    requires IsRun(s, es, max) && AttemptSucceeds !in es
    ensures max >= 0 ==> Budget(s, max) == max + 1
    ensures Count(es, TimerFires) <= Budget(s, max) + ExhaustedStarts(s, es, max)
    ensures var end := Run(s, es, max);
            Count(es, AttemptFails) == Budget(s, max) + ExhaustedStarts(s, es, max) <==>
            !end.reconnecting && end.timers == end.inFlight == 0 && end.attempts > max
  {
    OneOutstandingAlways(s, es, max);
    FailuresUseBudget(s, es, max);
    TimersAndAttempts(s, es, max);
    assert Run(s, es, max).inFlight <= Budget(Run(s, es, max), max);
  }

  /** Once started, a chain without a success goes on until the attempts are used up. */
  lemma {:induction false} NeverStopsEarly(s: State, es: seq<Event>, max: int)
    requires s.reconnecting || s.attempts > max
    requires IsRun(s, es, max) && AttemptSucceeds !in es
    ensures Run(s, es, max).reconnecting || Run(s, es, max).attempts > max
    decreases |es|
  {
    if es != [] {
      NeverStopsEarly(Step(s, es[0], max), es[1..], max);
    }
  }

  // ---- attempts, flags and disconnects ----

  lemma {:induction false} RunSplit(s: State, es: seq<Event>, k: nat, max: int)
    requires k <= |es| && IsRun(s, es, max)
    ensures IsRun(s, es[..k], max) && IsRun(Run(s, es[..k], max), es[k..], max)
    ensures Run(s, es, max) == Run(Run(s, es[..k], max), es[k..], max)
    decreases k
  {
    if k > 0 {
      RunSplit(Step(s, es[0], max), es[1..], k - 1, max);
      assert es[..k][1..] == es[1..][..k - 1] && es[1..][k - 1..] == es[k..];
    } else {
      assert es[..0] == [] && es[0..] == es;
    }
  }

  lemma {:induction false} AttemptsCountFailures(s: State, es: seq<Event>, max: int)
    requires IsRun(s, es, max) && AttemptSucceeds !in es
    ensures Run(s, es, max).attempts == s.attempts + Count(es, AttemptFails)
    decreases |es|
  {
    if es != [] {
      AttemptsCountFailures(Step(s, es[0], max), es[1..], max);
    }
  }

  /** The attempts counted are the failures since the last success, and a success leaves nothing
      outstanding, with the whole budget restored. */
  lemma AttemptsSinceSuccess(s: State, es: seq<Event>, k: nat, max: int)
    requires OneOutstanding(s) && IsRun(s, es, max)
    requires k < |es| && es[k] == AttemptSucceeds && AttemptSucceeds !in es[k + 1..]
    ensures Run(s, es, max).attempts == Count(es[k + 1..], AttemptFails)
    ensures IsRun(s, es[..k + 1], max)
    ensures var t := Run(s, es[..k + 1], max);
            !t.reconnecting && t.timers == t.inFlight == 0 && (max >= 0 ==> Budget(t, max) == max + 1)
  {
    RunSplit(s, es, k, max);
    RunSplit(s, es, k + 1, max);
    RunSplit(s, es[..k + 1], k, max);
    var before, t := Run(s, es[..k], max), Run(s, es[..k + 1], max);
    assert es[..k + 1][..k] == es[..k] && es[..k + 1][k..] == [AttemptSucceeds];
    assert t == Step(before, AttemptSucceeds, max);
    OneOutstandingAlways(s, es[..k], max);
    AttemptsCountFailures(t, es[k + 1..], max);
  }

  ghost predicate NoneOf(es: seq<Event>, clears: set<Event>) {
    forall k :: 0 <= k < |es| ==> es[k] !in clears
  }

  ghost predicate SetAt(es: seq<Event>, k: int, sets: Event, clears: set<Event>) {
    0 <= k < |es| && es[k] == sets && NoneOf(es[k + 1..], clears)
  }

  /** An event that sets the flag comes after every event that clears it, or it was set and never
      cleared. */
  ghost predicate SetLast(es: seq<Event>, sets: Event, clears: set<Event>, before: bool) {
    (before && NoneOf(es, clears)) || exists k :: SetAt(es, k, sets, clears)
  }

  lemma SetAtShift(es: seq<Event>, k: int, sets: Event, clears: set<Event>)
    requires es != [] && k > 0
    ensures SetAt(es, k, sets, clears) <==> SetAt(es[1..], k - 1, sets, clears)
  {
    if k < |es| {
      assert es[1..][k..] == es[k + 1..];
    }
  }

  lemma SetLastStep(es: seq<Event>, sets: Event, clears: set<Event>, before: bool)
    requires es != [] && sets !in clears
    ensures SetLast(es, sets, clears, before)
       <==> SetLast(es[1..], sets, clears, es[0] == sets || (before && es[0] !in clears))
  {
    assert NoneOf(es, clears) <==> es[0] !in clears && NoneOf(es[1..], clears) by {
      assert es == [es[0]] + es[1..];
    }
    assert SetAt(es, 0, sets, clears) <==> es[0] == sets && NoneOf(es[1..], clears);
    if exists k :: SetAt(es, k, sets, clears) {
      var k :| SetAt(es, k, sets, clears);
      if k > 0 { SetAtShift(es, k, sets, clears); }
    }
    if exists k :: SetAt(es[1..], k, sets, clears) {
      var k :| SetAt(es[1..], k, sets, clears);
      SetAtShift(es, k + 1, sets, clears);
    }
  }

  /** Over every run the two flags follow their events: an error clears both, a disconnect only
      `connected`. */
  lemma {:induction false} FlagsFollowEvents(s: State, es: seq<Event>, max: int)
    requires IsRun(s, es, max)
    ensures Run(s, es, max).connected <==> SetLast(es, ConnectEvent, {ErrorEvent, DisconnectEvent}, s.connected)
    ensures Run(s, es, max).ready <==> SetLast(es, ReadyEvent, {ErrorEvent}, s.ready)
    decreases |es|
  {
    if es != [] {
      SetLastStep(es, ConnectEvent, {ErrorEvent, DisconnectEvent}, s.connected);
      SetLastStep(es, ReadyEvent, {ErrorEvent}, s.ready);
      FlagsFollowEvents(Step(s, es[0], max), es[1..], max);
    }
  }

  /** The client is disconnected exactly when a chain starts, or goes on, while it counts as connected;
      never after an error, which has cleared that flag. */
  lemma DisconnectsIff(s: State, e: Event, max: int)
    requires Enabled(s, e)
    ensures Step(s, e, max).disconnects == s.disconnects
         + (if s.connected && ((e == InitialConnectFails && !s.reconnecting) || (e == AttemptFails && s.attempts < max))
            then 1 else 0)
  {
  }
}
