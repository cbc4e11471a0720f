/** The AAudio backend's estimate of how long a stream has been playing since its last
    callback, with the time spent stopped taken out. Times are unsigned 64-bit nanoseconds and
    subtraction wraps around. */
module PositionEstimates {

  const TWO_TO_THE_64: int := 0x1_0000_0000_0000_0000

  type Time = t: int | 0 <= t < TWO_TO_THE_64

  function Minus(a: Time, b: Time): Time {
    if a >= b then a - b else a - b + TWO_TO_THE_64
  }

  datatype Phase =
    | None
    | Play
    | Pause(timestamp: Time)
    | Resume(pauseTime: Time)

  datatype Estimate = Estimate(phase: Phase, callbackTimestamp: Time)

  predicate CanStop(phase: Phase) {
    phase.Play? || phase.Resume?
  }

  predicate CanStart(phase: Phase) {
    phase.None? || phase.Pause?
  }

  function Stopped(e: Estimate, t: Time): Estimate
    requires CanStop(e.phase)
  {
    e.(phase := Pause(if e.phase.Play? then t else Minus(t, e.phase.pauseTime)))
  }

  function Started(e: Estimate, t: Time): Estimate
    requires CanStart(e.phase)
  {
    e.(phase := if e.phase.Pause? then Resume(Minus(t, e.phase.timestamp)) else Play)
  }

  /** The estimate after a poll that sees `last` as the time of the last callback. */
  function Polled(e: Estimate, last: Time): Estimate {
    match e.phase
    case Play => e.(callbackTimestamp := last)
    case Resume(_) => if e.callbackTimestamp == last then e else Estimate(Play, last)
    case _ => e
  }

  function Elapsed(e: Estimate, now: Time, last: Time): Time {
    match e.phase
    case Play => Minus(now, last)
    case Resume(pauseTime) =>
      if e.callbackTimestamp == last then Minus(Minus(now, last), pauseTime) else Minus(now, last)
    case Pause(timestamp) => Minus(timestamp, e.callbackTimestamp)
    case None => 0
  }

  /** The time played since the callback at `last` that a phase stands for at `now`. */
  function Recorded(phase: Phase, last: Time, now: int): int {
    match phase
    case None => 0
    case Play => now - last
    case Pause(timestamp) => timestamp - last
    case Resume(pauseTime) => now - last - pauseTime
  }

  /** The recorded times lie between the callback and `now`, so no subtraction wraps. */
  predicate InRange(phase: Phase, last: Time, now: int) {
    match phase
    case None => false
    case Play => last <= now
    case Pause(timestamp) => last <= timestamp <= now
    case Resume(pauseTime) => 0 <= pauseTime <= now - last
  }

  class PositionEstimate {
    var phase: Phase
    var callbackTimestamp: Time
    var initPosition: Time

    function Value(): Estimate
      reads this
    {
      Estimate(phase, callbackTimestamp)
    }

    constructor ()
      ensures Value() == Estimate(None, 0) && initPosition == 0
    {
      phase, callbackTimestamp, initPosition := None, 0, 0;
    }

    /** Freezes the recorded time, whatever the last callback was, until the next start. */
    method Stop(timestamp: Time)
      requires CanStop(phase)
      modifies this`phase
      ensures CanStart(phase)
      ensures forall last: Time, now: Time | InRange(old(phase), last, timestamp) && timestamp <= now ::
                InRange(phase, last, now) && Recorded(phase, last, now) == Recorded(old(phase), last, timestamp)
      ensures Value() == Stopped(old(Value()), timestamp)
    {
      if phase.Play? {
        phase := Pause(timestamp);
      } else {
        phase := Pause(Minus(timestamp, phase.pauseTime));
      }
    }

    /** Lets the recorded time run on from where the stop froze it. */
    method Start(timestamp: Time)
      requires CanStart(phase)
      modifies this`phase
      ensures CanStop(phase)
      ensures forall last: Time, now: Time | InRange(old(phase), last, timestamp) && timestamp <= now ::
                InRange(phase, last, now)
                && Recorded(phase, last, now) == Recorded(old(phase), last, timestamp) + (now - timestamp)
      ensures old(phase).None? ==> forall last: Time, now: Time :: Recorded(phase, last, now) == now - last
      ensures Value() == Started(old(Value()), timestamp)
    {
      if phase.Pause? {
        phase := Resume(Minus(timestamp, phase.timestamp));
      } else {
        phase := Play;
      }
    }

    /** Returns the recorded time: after a callback not seen before, the time since that callback;
        else what was recorded before the poll, which leaves it as it is. */
    method ElapsedTimeSinceCallback(now: Time, lastCallbackTimestamp: Time) returns (elapsed: Time)
      requires phase.Pause? ==> callbackTimestamp == lastCallbackTimestamp
      modifies this`phase, this`callbackTimestamp
      ensures InRange(phase, lastCallbackTimestamp, now) ==> elapsed == Recorded(phase, lastCallbackTimestamp, now)
      ensures old(callbackTimestamp) == lastCallbackTimestamp ==> phase == old(phase)
      ensures old(callbackTimestamp) != lastCallbackTimestamp && CanStop(old(phase)) ==> phase == Play
      ensures old(phase).None? ==> elapsed == 0 && phase.None?
      ensures !old(phase).None? ==> callbackTimestamp == lastCallbackTimestamp
      ensures elapsed == Elapsed(old(Value()), now, lastCallbackTimestamp)
      ensures Value() == Polled(old(Value()), lastCallbackTimestamp)
    {
      if phase.Play? {
        if callbackTimestamp != lastCallbackTimestamp {
          callbackTimestamp := lastCallbackTimestamp;
        }
        return Minus(now, lastCallbackTimestamp);
      } else if phase.Resume? {
        if callbackTimestamp == lastCallbackTimestamp {
          return Minus(Minus(now, lastCallbackTimestamp), phase.pauseTime);
        }
        callbackTimestamp := lastCallbackTimestamp;
        phase := Play;
        return Minus(now, lastCallbackTimestamp);
      } else if phase.Pause? {
        return Minus(phase.timestamp, callbackTimestamp);
      } else {
        return 0;
      }
    }

    method Reinit(position: Time)
      modifies this
      ensures Value() == Estimate(None, 0) && initPosition == position
    {
      initPosition := position;
      phase := None;
      callbackTimestamp := 0;
    }
  }

  // ----- Pause accounting -----

  datatype Event = StopAt(t: Time) | StartAt(t: Time) | PollAt(t: Time)

  /** Events after the callback at `last`, none before the time `from`, each a call the source
      allows: stops while playing, starts while stopped, polls that have seen that callback. */
  predicate Legal(e: Estimate, last: Time, from: Time, events: seq<Event>)
    decreases |events|
  {
    events == [] ||
    (from <= events[0].t
     && (match events[0]
         case StopAt(t) => CanStop(e.phase) && Legal(Stopped(e, t), last, t, events[1..])
         case StartAt(t) => e.phase.Pause? && Legal(Started(e, t), last, t, events[1..])
         case PollAt(t) => e.callbackTimestamp == last && Legal(Polled(e, last), last, t, events[1..])))
  }

  function After(e: Estimate, last: Time, from: Time, events: seq<Event>): Estimate
    requires Legal(e, last, from, events)
    decreases |events|
  {
    if events == [] then e
    else
      match events[0]
      case StopAt(t) => After(Stopped(e, t), last, t, events[1..])
      case StartAt(t) => After(Started(e, t), last, t, events[1..])
      case PollAt(t) => After(Polled(e, last), last, t, events[1..])
  }

  /** The time actually played from `since` until `now`, by the stops and starts alone. */
  function PlayedTime(playing: bool, since: int, events: seq<Event>, now: int): int
    decreases |events|
  {
    if events == [] then (if playing then now - since else 0)
    else
      match events[0]
      case StopAt(t) => (if playing then t - since else 0) + PlayedTime(false, t, events[1..], now)
      case StartAt(t) => PlayedTime(true, t, events[1..], now)
      case PollAt(t) => (if playing then t - since else 0) + PlayedTime(playing, t, events[1..], now)
  }

  /** The sum of the stopped intervals, by the stops and starts alone. */
  function PausedTime(playing: bool, since: int, events: seq<Event>, now: int): int
    decreases |events|
  {
    if events == [] then (if playing then 0 else now - since)
    else
      match events[0]
      case StopAt(t) => PausedTime(false, t, events[1..], now)
      case StartAt(t) => (if playing then 0 else t - since) + PausedTime(true, t, events[1..], now)
      case PollAt(t) => (if playing then 0 else t - since) + PausedTime(playing, t, events[1..], now)
  }

  /** The last event's time, or `from`. */
  function LastTime(from: Time, events: seq<Event>): Time {
    if events == [] then from else events[|events| - 1].t
  }

  lemma {:induction false} RecordsPlayedTime(e: Estimate, last: Time, from: Time, events: seq<Event>, now: Time)
    requires InRange(e.phase, last, from)
    requires Legal(e, last, from, events) && LastTime(from, events) <= now
    ensures var f := After(e, last, from, events);
            && InRange(f.phase, last, now)
            && f.callbackTimestamp == e.callbackTimestamp
            && Recorded(f.phase, last, now)
               == Recorded(e.phase, last, from) + PlayedTime(CanStop(e.phase), from, events, now)
    decreases |events|
  {
    if events != [] {
      var t, rest := events[0].t, events[1..];
      assert LastTime(from, events) == LastTime(t, rest);
      match events[0]
      case StopAt(_) => RecordsPlayedTime(Stopped(e, t), last, t, rest, now);
      case StartAt(_) => RecordsPlayedTime(Started(e, t), last, t, rest, now);
      case PollAt(_) => RecordsPlayedTime(Polled(e, last), last, t, rest, now);
    }
  }

  lemma {:induction false} PlayedAndPaused(e: Estimate, last: Time, from: Time, events: seq<Event>, now: Time)
    requires Legal(e, last, from, events) && !e.phase.None?
    ensures PlayedTime(CanStop(e.phase), from, events, now)
            + PausedTime(CanStop(e.phase), from, events, now) == now - from
    decreases |events|
  {
    if events != [] {
      var t, rest := events[0].t, events[1..];
      match events[0]
      case StopAt(_) => PlayedAndPaused(Stopped(e, t), last, t, rest, now);
      case StartAt(_) => PlayedAndPaused(Started(e, t), last, t, rest, now);
      case PollAt(_) => PlayedAndPaused(Polled(e, last), last, t, rest, now);
    }
  }

  /** The elapsed time is exactly the time played since the callback, and the recorded pause
      time exactly the sum of the stopped intervals: over any legal stops, starts and polls
      after a callback at `last` that was polled once while playing. */
  lemma ElapsedIsPlayedTime(last: Time, from: Time, events: seq<Event>, now: Time)
    requires last <= from
    requires Legal(Estimate(Play, last), last, from, events) && LastTime(from, events) <= now
    ensures var f := After(Estimate(Play, last), last, from, events);
            && Elapsed(f, now, last) == (from - last) + PlayedTime(true, from, events, now)
            && (f.phase.Resume? ==> f.phase.pauseTime == PausedTime(true, from, events, now))
  {
    RecordsPlayedTime(Estimate(Play, last), last, from, events, now);
    PlayedAndPaused(Estimate(Play, last), last, from, events, now);
  }

  /** Without that poll, the first poll after a resume is right if and only if nothing was
      paused: it takes the old callback for a new one and counts the pauses as played. */
  lemma UnpolledResumeIff(e: Estimate, last: Time, from: Time, events: seq<Event>, now: Time)
    requires e.phase == Play && e.callbackTimestamp != last && last <= from
    requires Legal(e, last, from, events) && LastTime(from, events) <= now
    requires After(e, last, from, events).phase.Resume?
    ensures Elapsed(After(e, last, from, events), now, last)
              == (from - last) + PlayedTime(true, from, events, now)
            <==> PausedTime(true, from, events, now) == 0
  {
    RecordsPlayedTime(e, last, from, events, now);
    PlayedAndPaused(e, last, from, events, now);
  }
}
