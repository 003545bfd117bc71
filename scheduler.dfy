/**
 * The playback scheduler of the live voice widget
 * (components/LiveVoiceAssistant.tsx), on values: the cursor
 * `nextStartTimeRef`, the set `sourcesRef` of live sources and the steps that
 * change them. A source is only an id with a start time and a duration; ids
 * stand for the distinct objects `createBufferSource` returns. Time is in
 * seconds on the output context's clock.
 */
module Scheduler {

  /** A scheduled AudioBufferSourceNode. */
  datatype Source = Source(id: nat, start: real, duration: real)

  function End(s: Source): real {
    s.start + s.duration
  }

  /**
   * `cursor` is `nextStartTimeRef`, `sources` is `sourcesRef`; `stopped` records
   * every source on which `stop()` was called and `created` counts the sources
   * created so far (it gives each new source a fresh id).
   */
  datatype Playback = Playback(cursor: real, sources: set<Source>, stopped: set<Source>, created: nat)

  const Silent := Playback(0.0, {}, {}, 0)

  function Max(a: real, b: real): (m: real)
    ensures m >= a && m >= b
    ensures m == a || m == b
  {
    if a >= b then a else b
  }

  /** The cursor moves up to the output clock before a segment is decoded. */
  function CatchUp(p: Playback, now: real): Playback {
    p.(cursor := Max(p.cursor, now))
  }

  /** The source the next `Enqueue` creates. */
  function NextSource(p: Playback, duration: real): Source {
    Source(p.created, p.cursor, duration)
  }

  /** A decoded segment starts at the cursor, the cursor advances by its duration and it is tracked. */
  function Enqueue(p: Playback, duration: real): Playback {
    p.(cursor := p.cursor + duration, sources := p.sources + {NextSource(p, duration)}, created := p.created + 1)
  }

  /** Stops every tracked source and empties the set; the cursor is left alone. */
  function StopAll(p: Playback): Playback {
    p.(sources := {}, stopped := p.stopped + p.sources)
  }

  /** Barge-in: stops every tracked source, empties the set and resets the cursor to 0. */
  function Interrupt(p: Playback): Playback {
    StopAll(p).(cursor := 0.0)
  }

  /** A source's `ended` event removes it from the set. */
  function Ended(p: Playback, s: Source): Playback {
    p.(sources := p.sources - {s})
  }

  /**
   * The scheduler's invariant: tracked sources have fresh, distinct ids, end by
   * the cursor, never overlap in output time, and are never ones already stopped.
   */
  ghost predicate Valid(p: Playback) {
    && (forall s :: s in p.sources ==> 0.0 <= s.duration && End(s) <= p.cursor && s.id < p.created)
    && (forall s :: s in p.stopped ==> s.id < p.created)
    && (forall a, b :: a in p.sources && b in p.sources && a != b ==> End(a) <= b.start || End(b) <= a.start)
    && (forall a, b :: a in p.sources && b in p.stopped ==> a.id != b.id)
  }

  lemma SilentIsValid()
    ensures Valid(Silent)
  {
  }

  /** On arrival the segment starts at max(cursor, now): never before now, never before the previous cursor. */
  lemma ArrivalStart(p: Playback, now: real, duration: real)
    ensures var s := NextSource(CatchUp(p, now), duration);
      && s.start == Max(p.cursor, now)
      && s.start >= now && s.start >= p.cursor
      && Enqueue(CatchUp(p, now), duration).cursor == End(s)
      && Enqueue(CatchUp(p, now), duration).sources == p.sources + {s}
  {
  }

  /** Scheduling a segment keeps the invariant: the new source overlaps none of the tracked ones. */
  lemma {:induction false} ArrivalPreservesValid(p: Playback, now: real, duration: real)
    requires Valid(p) && duration >= 0.0
    ensures Valid(Enqueue(CatchUp(p, now), duration))
    ensures NextSource(CatchUp(p, now), duration) !in p.sources
  {
    var c := CatchUp(p, now);
    var s := NextSource(c, duration);
    var q := Enqueue(c, duration);
    forall a | a in q.sources ensures 0.0 <= a.duration && End(a) <= q.cursor && a.id < q.created {
      if a != s {
        assert End(a) <= p.cursor <= c.cursor;
      }
    }
    forall a, b | a in q.sources && b in q.sources && a != b ensures End(a) <= b.start || End(b) <= a.start {
      if a == s {
        assert End(b) <= c.cursor == a.start;
      } else if b == s {
        assert End(a) <= c.cursor == b.start;
      }
    }
  }

  lemma {:induction false} CatchUpPreservesValid(p: Playback, now: real)
    requires Valid(p)
    ensures Valid(CatchUp(p, now))
  {
    forall s | s in p.sources ensures End(s) <= CatchUp(p, now).cursor {
    }
  }

  /** `ended` removes exactly that source and leaves the others tracked. */
  lemma EndedRemovesOnlyIt(p: Playback, s: Source)
    requires Valid(p)
    ensures s !in Ended(p, s).sources
    ensures forall t :: t in p.sources && t != s ==> t in Ended(p, s).sources
    ensures Ended(p, s).cursor == p.cursor
    ensures Valid(Ended(p, s))
  {
  }

  /** Barge-in leaves nothing tracked, the cursor at 0 and every previously tracked source stopped. */
  lemma InterruptEffect(p: Playback)
    requires Valid(p)
    ensures Interrupt(p).sources == {} && Interrupt(p).cursor == 0.0
    ensures p.sources <= Interrupt(p).stopped
    ensures Valid(Interrupt(p))
  {
  }

  lemma StopAllEffect(p: Playback)
    requires Valid(p)
    ensures StopAll(p).sources == {} && StopAll(p).cursor == p.cursor
    ensures p.sources <= StopAll(p).stopped
    ensures Valid(StopAll(p))
  {
  }

  // ---------------------------------------------------------------------
  // A burst of segments with no interrupt between them

  /** A segment's arrival: the output clock when it arrives and its duration. */
  datatype Arrival = Arrival(now: real, duration: real)

  /** The state after scheduling `arrivals` in order, and the sources they became. */
  function Burst(p: Playback, arrivals: seq<Arrival>): (r: (Playback, seq<Source>))
    decreases |arrivals|
  {
    if arrivals == [] then (p, [])
    else
      var c := CatchUp(p, arrivals[0].now);
      var rest := Burst(Enqueue(c, arrivals[0].duration), arrivals[1..]);
      (rest.0, [NextSource(c, arrivals[0].duration)] + rest.1)
  }

  /** The sources of a burst keep their arrival order, ids and durations, start no earlier than they arrive, and the cursor ends after the last. */
  lemma {:induction false} BurstShape(p: Playback, arrivals: seq<Arrival>)
    requires forall k :: 0 <= k < |arrivals| ==> arrivals[k].duration >= 0.0
    ensures |Burst(p, arrivals).1| == |arrivals|
    ensures forall k :: 0 <= k < |arrivals| ==>
      && Burst(p, arrivals).1[k].id == p.created + k
      && Burst(p, arrivals).1[k].duration == arrivals[k].duration
      && Burst(p, arrivals).1[k].start >= arrivals[k].now
      && Burst(p, arrivals).1[k].start >= p.cursor
    ensures Burst(p, arrivals).0.cursor ==
      if arrivals == [] then p.cursor else End(Burst(p, arrivals).1[|arrivals| - 1])
    ensures Burst(p, arrivals).0.cursor >= p.cursor
    decreases |arrivals|
  {
    if arrivals != [] {
      var c := CatchUp(p, arrivals[0].now);
      var next := Enqueue(c, arrivals[0].duration);
      BurstShape(next, arrivals[1..]);
      var srcs := Burst(p, arrivals).1;
      var rest := Burst(next, arrivals[1..]).1;
      assert srcs == [NextSource(c, arrivals[0].duration)] + rest;
      forall k | 0 < k < |arrivals| ensures srcs[k] == rest[k - 1] && arrivals[k] == arrivals[1..][k - 1] {
      }
    }
  }

  /** Segment 0 starts at max(cursor, now); segment k > 0 at max(end of segment k - 1, now). */
  lemma {:induction false} BurstRecurrence(p: Playback, arrivals: seq<Arrival>)
    requires forall k :: 0 <= k < |arrivals| ==> arrivals[k].duration >= 0.0
    ensures |Burst(p, arrivals).1| == |arrivals|
    ensures |arrivals| > 0 ==> Burst(p, arrivals).1[0].start == Max(p.cursor, arrivals[0].now)
    ensures forall k :: 0 < k < |arrivals| ==>
      Burst(p, arrivals).1[k].start == Max(End(Burst(p, arrivals).1[k - 1]), arrivals[k].now)
    decreases |arrivals|
  {
    BurstShape(p, arrivals);
    if arrivals != [] {
      var c := CatchUp(p, arrivals[0].now);
      var next := Enqueue(c, arrivals[0].duration);
      BurstRecurrence(next, arrivals[1..]);
      var srcs := Burst(p, arrivals).1;
      var rest := Burst(next, arrivals[1..]).1;
      assert srcs == [NextSource(c, arrivals[0].duration)] + rest;
      forall k | 0 < k < |arrivals|
        ensures srcs[k].start == Max(End(srcs[k - 1]), arrivals[k].now)
      {
        assert srcs[k] == rest[k - 1] && arrivals[k] == arrivals[1..][k - 1];
        if k == 1 {
          assert next.cursor == End(srcs[0]);
        } else {
          assert srcs[k - 1] == rest[k - 2];
        }
      }
    }
  }

  /** Sources each starting after the previous one ends, with non-negative durations, are pairwise ordered. */
  lemma {:induction false} ChainOrdered(srcs: seq<Source>, j: nat, k: nat)
    requires forall i :: 0 <= i < |srcs| ==> srcs[i].duration >= 0.0
    requires forall i :: 0 < i < |srcs| ==> End(srcs[i - 1]) <= srcs[i].start
    requires j < k < |srcs|
    ensures End(srcs[j]) <= srcs[k].start
    decreases k - j
  {
    if j + 1 < k {
      ChainOrdered(srcs, j, k - 1);
      assert srcs[k - 1].start <= End(srcs[k - 1]) <= srcs[k].start;
    }
  }

  /**
   * Segments scheduled with no interrupt between them play back to back: segment k
   * starts at max(its arrival clock, the end of segment k - 1), never before it
   * arrives, and no two of them overlap.
   */
  lemma {:induction false} BurstBackToBack(p: Playback, arrivals: seq<Arrival>)
    requires forall k :: 0 <= k < |arrivals| ==> arrivals[k].duration >= 0.0
    ensures |Burst(p, arrivals).1| == |arrivals|
    ensures forall k :: 0 < k < |arrivals| ==>
      Burst(p, arrivals).1[k].start == Max(End(Burst(p, arrivals).1[k - 1]), arrivals[k].now)
    ensures forall k :: 0 < k < |arrivals| && arrivals[k].now <= End(Burst(p, arrivals).1[k - 1]) ==>
      Burst(p, arrivals).1[k].start == End(Burst(p, arrivals).1[k - 1])
    ensures forall j, k :: 0 <= j < k < |arrivals| ==> End(Burst(p, arrivals).1[j]) <= Burst(p, arrivals).1[k].start
  {
    BurstShape(p, arrivals);
    BurstRecurrence(p, arrivals);
    var srcs := Burst(p, arrivals).1;
    forall j, k | 0 <= j < k < |srcs| ensures End(srcs[j]) <= srcs[k].start {
      ChainOrdered(srcs, j, k);
    }
  }
}
