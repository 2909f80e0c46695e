/** The scheduling rule of the live voice session, as pure functions on the
    playback cursor, and the timeline it produces for a run of audio chunks.

    Time is in seconds of the output audio context's clock, as exact reals. */
module Playback {

  /** A point on (or a span of) the audio clock; the clock starts at 0. */
  type Seconds = r: real | r >= 0.0

  /** An audio chunk as the scheduler sees it: the clock reading taken when the
      chunk is handled, and the duration of the decoded buffer. */
  datatype Arrival = Arrival(clock: Seconds, duration: Seconds)

  /** Where a chunk starts: at the cursor, unless the clock has already passed it,
      in which case it starts now. This is `Math.max(nextStartTime, currentTime)`. */
  function StartAt(cursor: Seconds, clock: Seconds): (start: Seconds)
    ensures start >= cursor && start >= clock
    ensures start == cursor || start == clock
  {
    if cursor >= clock then cursor else clock
  }

  /** The cursor after scheduling one chunk: the end of that chunk. */
  function Advance(cursor: Seconds, a: Arrival): (next: Seconds)
    ensures next >= cursor + a.duration && next >= a.clock + a.duration
    ensures next == cursor + a.duration || next == a.clock + a.duration
  {
    StartAt(cursor, a.clock) + a.duration
  }

  /** The cursor after scheduling every chunk of `arrivals`, in order, from `cursor`. */
  function CursorAfter(cursor: Seconds, arrivals: seq<Arrival>): (end: Seconds)
    decreases |arrivals|
  {
    if |arrivals| == 0 then cursor
    else CursorAfter(Advance(cursor, arrivals[0]), arrivals[1..])
  }

  /** The start time given to each chunk of `arrivals`, scheduled in order from `cursor`. */
  function Starts(cursor: Seconds, arrivals: seq<Arrival>): (starts: seq<Seconds>)
    ensures |starts| == |arrivals|
    decreases |arrivals|
  {
    if |arrivals| == 0 then []
    else [StartAt(cursor, arrivals[0].clock)] + Starts(Advance(cursor, arrivals[0]), arrivals[1..])
  }

  /** The sum of the durations of `arrivals`. */
  function TotalDuration(arrivals: seq<Arrival>): (total: Seconds)
    decreases |arrivals|
  {
    if |arrivals| == 0 then 0.0 else arrivals[0].duration + TotalDuration(arrivals[1..])
  }

  /** Scheduling one more chunk extends the timeline by exactly that chunk: it starts
      at `StartAt` of the cursor reached so far, and the cursor moves to its end. */
  lemma {:induction false} ScheduleOneMore(cursor: Seconds, arrivals: seq<Arrival>, a: Arrival)
    ensures CursorAfter(cursor, arrivals + [a]) == Advance(CursorAfter(cursor, arrivals), a)
    ensures Starts(cursor, arrivals + [a])
         == Starts(cursor, arrivals) + [StartAt(CursorAfter(cursor, arrivals), a.clock)]
    decreases |arrivals|
  {
    if |arrivals| == 0 {
      assert arrivals + [a] == [a];
    } else {
      assert (arrivals + [a])[0] == arrivals[0];
      assert (arrivals + [a])[1..] == arrivals[1..] + [a];
      ScheduleOneMore(Advance(cursor, arrivals[0]), arrivals[1..], a);
    }
  }

  /** Without an interruption the cursor never moves backwards. */
  lemma {:induction false} CursorNeverDecreases(cursor: Seconds, arrivals: seq<Arrival>)
    ensures CursorAfter(cursor, arrivals) >= cursor
    decreases |arrivals|
  {
    if |arrivals| > 0 {
      CursorNeverDecreases(Advance(cursor, arrivals[0]), arrivals[1..]);
    }
  }

  /** Every chunk ends no later than the final cursor. */
  lemma {:induction false} EndsBeforeCursor(cursor: Seconds, arrivals: seq<Arrival>, i: nat)
    requires i < |arrivals|
    ensures Starts(cursor, arrivals)[i] + arrivals[i].duration <= CursorAfter(cursor, arrivals)
    decreases |arrivals|
  {
    if i == 0 {
      CursorNeverDecreases(Advance(cursor, arrivals[0]), arrivals[1..]);
    } else {
      EndsBeforeCursor(Advance(cursor, arrivals[0]), arrivals[1..], i - 1);
    }
  }

  /** No chunk starts in the past: each starts at or after the clock reading taken
      when it was handled. */
  lemma {:induction false} NeverInThePast(cursor: Seconds, arrivals: seq<Arrival>, i: nat)
    requires i < |arrivals|
    ensures Starts(cursor, arrivals)[i] >= arrivals[i].clock
    ensures Starts(cursor, arrivals)[i] >= cursor
    decreases |arrivals|
  {
    if i > 0 {
      NeverInThePast(Advance(cursor, arrivals[0]), arrivals[1..], i - 1);
    }
  }

  /** Chunks never overlap: a later chunk starts no earlier than an earlier one ends. */
  lemma {:induction false} NoOverlap(cursor: Seconds, arrivals: seq<Arrival>, i: nat, j: nat)
    requires i < j < |arrivals|
    ensures Starts(cursor, arrivals)[i] + arrivals[i].duration <= Starts(cursor, arrivals)[j]
    decreases |arrivals|
  {
    var next := Advance(cursor, arrivals[0]);
    if i == 0 {
      NeverInThePast(next, arrivals[1..], j - 1);
    } else {
      NoOverlap(next, arrivals[1..], i - 1, j - 1);
    }
  }

  /** Gapless playback: a chunk handled before its predecessor has finished starts
      exactly when the predecessor ends. */
  lemma {:induction false} BackToBack(cursor: Seconds, arrivals: seq<Arrival>, i: nat)
    requires i + 1 < |arrivals|
    requires arrivals[i + 1].clock <= Starts(cursor, arrivals)[i] + arrivals[i].duration
    ensures Starts(cursor, arrivals)[i + 1] == Starts(cursor, arrivals)[i] + arrivals[i].duration
    decreases |arrivals|
  {
    if i > 0 {
      BackToBack(Advance(cursor, arrivals[0]), arrivals[1..], i - 1);
    }
  }

  /** When every chunk is handled no later than the moment the chunks before it would
      have finished, the chunks play back to back from the cursor: chunk i starts at the
      cursor plus the durations of the chunks before it, and the final cursor is the
      starting cursor plus the total duration. */
  lemma {:induction false} PromptChunksPlayBackToBack(cursor: Seconds, arrivals: seq<Arrival>)
    requires forall i :: 0 <= i < |arrivals| ==> arrivals[i].clock <= cursor + TotalDuration(arrivals[..i])
    ensures forall i :: 0 <= i < |arrivals| ==> Starts(cursor, arrivals)[i] == cursor + TotalDuration(arrivals[..i])
    ensures CursorAfter(cursor, arrivals) == cursor + TotalDuration(arrivals)
    decreases |arrivals|
  {
    if |arrivals| > 0 {
      var a, rest := arrivals[0], arrivals[1..];
      assert arrivals[..0] == [];
      var next := Advance(cursor, a);
      assert next == cursor + a.duration;
      forall i | 0 <= i < |rest|
        ensures rest[i].clock <= next + TotalDuration(rest[..i])
      {
        assert arrivals[..i + 1][1..] == rest[..i];
      }
      PromptChunksPlayBackToBack(next, rest);
      forall i | 0 <= i < |arrivals|
        ensures Starts(cursor, arrivals)[i] == cursor + TotalDuration(arrivals[..i])
      {
        if i > 0 {
          assert arrivals[..i][1..] == rest[..i - 1];
        }
      }
    }
  }
}
