/** The end-of-utterance heuristic of the chat client: every speech result
    cancels the pending silence timer and arms a new one 2500 ms ahead; only a
    timer that is left to expire finalizes the latest text
    (client/src/components/Chatbot.jsx:45-53). Time is an integer number of
    milliseconds. */
module SilenceTimer {
  import opened Wrappers

  const SilenceDelay := 2500

  /** A pending `setTimeout`: when it expires and the text it will send. */
  datatype Timer = Timer(deadline: int, text: string)

  /** The timer a speech result heard at `now` arms. */
  function Arm(now: int, text: string): (t: Timer)
    ensures t.deadline - now == SilenceDelay && t.text == text
  {
    Timer(now + SilenceDelay, text)
  }

  predicate Due(t: Timer, now: int) {
    t.deadline <= now
  }

  /** What the timer sees: a (trimmed, joined) speech result, or the clock
      reaching a new time. */
  datatype Event = Heard(at: int, text: string) | Tick(at: int)

  /** One event against the single pending timer: a result replaces the
      pending timer, whatever it was; a tick at or past the deadline fires it
      and hands its text over for sending. */
  function Step(pending: Option<Timer>, e: Event): (r: (Option<Timer>, Option<string>))
    ensures e.Heard? ==> r == (Some(Arm(e.at, e.text)), None)
    ensures r.1.Some? <==> e.Tick? && pending.Some? && Due(pending.value, e.at)
    ensures r.1.Some? ==> r == (None, Some(pending.value.text))
    ensures r.1.None? && e.Tick? ==> r.0 == pending
  {
    match e
    case Heard(at, text) => (Some(Arm(at, text)), None)
    case Tick(at) =>
      if pending.Some? && Due(pending.value, at) then (None, Some(pending.value.text))
      else (pending, None)
  }

  /** The timer left pending and the texts finalized, in order, after `events`. */
  function Run(pending: Option<Timer>, events: seq<Event>): (Option<Timer>, seq<string>)
    decreases |events|
  {
    if events == [] then (pending, [])
    else
      var step := Step(pending, events[0]);
      var rest := Run(step.0, events[1..]);
      (rest.0, (if step.1.Some? then [step.1.value] else []) + rest.1)
  }

  /** Running two stretches of events is running their concatenation. */
  lemma {:induction false} RunAppend(pending: Option<Timer>, a: seq<Event>, b: seq<Event>)
    ensures var (mid, outA) := Run(pending, a);
            var (last, outB) := Run(mid, b);
            Run(pending, a + b) == (last, outA + outB)
    decreases |a|
  {
    if a == [] {
      assert a + b == b;
      var (last, outB) := Run(pending, b);
      assert [] + outB == outB;
    } else {
      assert (a + b)[0] == a[0] && (a + b)[1..] == a[1..] + b;
      var (next, out) := Step(pending, a[0]);
      RunAppend(next, a[1..], b);
      var (mid, outA) := Run(next, a[1..]);
      var (last, outB) := Run(mid, b);
      var head := if out.Some? then [out.value] else [];
      assert Run(pending, a) == (mid, head + outA);
      assert Run(pending, a + b) == (last, head + (outA + outB));
      assert head + (outA + outB) == (head + outA) + outB;
    }
  }

  /** No tick reaches the deadline in force when it happens: every tick comes
      before `deadline`, and each result moves the deadline to 2500 ms after it. */
  predicate KeepsTalking(events: seq<Event>, deadline: int) {
    if events == [] then true
    else match events[0]
      case Heard(at, _) => KeepsTalking(events[1..], at + SilenceDelay)
      case Tick(at) => at < deadline && KeepsTalking(events[1..], deadline)
  }

  /** The timer armed by the last result in `events`, or `t` when there is none. */
  function LastArmed(t: Timer, events: seq<Event>): Timer
    decreases |events|
  {
    if events == [] then t
    else LastArmed(if events[0].Heard? then Arm(events[0].at, events[0].text) else t, events[1..])
  }

  /** While results keep arriving before the deadline, nothing is finalized and
      exactly one timer is pending: the one armed by the latest result. */
  lemma {:induction false} NothingFinalizedWhileTalking(t: Timer, events: seq<Event>)
    requires KeepsTalking(events, t.deadline)
    ensures Run(Some(t), events) == (Some(LastArmed(t, events)), [])
    decreases |events|
  {
    if events != [] {
      match events[0]
      case Heard(at, text) =>
        NothingFinalizedWhileTalking(Arm(at, text), events[1..]);
        var rest := Run(Some(Arm(at, text)), events[1..]);
        assert Run(Some(t), events).1 == [] + rest.1;
      case Tick(at) =>
        assert at < t.deadline;
        assert Step(Some(t), events[0]) == (Some(t), None);
        NothingFinalizedWhileTalking(t, events[1..]);
        var rest := Run(Some(t), events[1..]);
        assert rest == (Some(LastArmed(t, events[1..])), []);
        assert Run(Some(t), events) == (rest.0, [] + rest.1);
        assert [] + rest.1 == [];
        assert LastArmed(t, events) == LastArmed(t, events[1..]);
        assert Run(Some(t), events) == (Some(LastArmed(t, events)), []);
    }
  }

  /** After a burst of results with no silence of 2500 ms, a tick finalizes
      exactly when it comes 2500 ms or more after the last result, and it
      sends the last result's text; before that it finalizes nothing. */
  lemma FinalizesLatestAfterSilence(first: Timer, events: seq<Event>, now: int)
    requires KeepsTalking(events, first.deadline)
    ensures var last := LastArmed(first, events);
            Run(Some(first), events + [Tick(now)])
              == if Due(last, now) then (None, [last.text]) else (Some(last), [])
  {
    NothingFinalizedWhileTalking(first, events);
    RunAppend(Some(first), events, [Tick(now)]);
    var last := LastArmed(first, events);
    var tick := [Tick(now)];
    assert tick[1..] == [];
    var whole := Run(Some(first), events + tick);
    var expected: (Option<Timer>, seq<string>) :=
      if Due(last, now) then (None, [last.text]) else (Some(last), []);
    assert Run(Some(last), tick) == (expected.0, expected.1 + []);
    assert whole == (expected.0, [] + (expected.1 + []));
    assert [] + (expected.1 + []) == expected.1;
  }
}
