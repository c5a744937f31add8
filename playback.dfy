/** Playback scheduling in the client (`playAudio`, lines 157-193): decoded
    chunks are queued on the audio context's timeline behind a single cursor,
    `audioQueueTime`. The context's clock is an input (`now`), and "start the
    buffer source at t" is an output. */
module Playback {
  import opened Common
  import opened SampleCodec
  import opened Pcm16

  /** The sample rate of every buffer created for playback (line 175). */
  const SampleRate: nat := 24000

  /** The delay added to the clock when the queue has run dry (line 184). */
  const GuardInterval: real := 0.1

  /** `audioBuffer.duration` of a buffer of n samples at 24000 Hz. */
  function Duration(n: nat): (d: real)
    ensures 0.0 <= d
    ensures d * SampleRate as real == n as real
  {
    n as real / SampleRate as real
  }

  /** `Math.max(audioQueueTime, currentTime + 0.1)`: the later of the cursor
      and the guarded clock. */
  function StartTime(cursor: real, now: real): (t: real)
    ensures cursor <= t && now + GuardInterval <= t
    ensures t == cursor || t == now + GuardInterval
  {
    if cursor >= now + GuardInterval then cursor else now + GuardInterval
  }

  /** One call that reaches the scheduling step: the clock reading and the
      number of samples decoded. */
  datatype Chunk = Chunk(now: real, length: nat)

  /** The interval a buffer source is scheduled to play. */
  datatype Slot = Slot(start: real, end: real)

  /** The intervals assigned to successive chunks, starting from a cursor. */
  function Schedule(cursor: real, chunks: seq<Chunk>): (slots: seq<Slot>)
    ensures |slots| == |chunks|
    decreases |chunks|
  {
    if chunks == [] then []
    else
      var start := StartTime(cursor, chunks[0].now);
      var end := start + Duration(chunks[0].length);
      [Slot(start, end)] + Schedule(end, chunks[1..])
  }

  /** The cursor after the chunks have been scheduled. */
  function CursorAfter(cursor: real, chunks: seq<Chunk>): (c: real)
    decreases |chunks|
  {
    if chunks == [] then cursor
    else CursorAfter(StartTime(cursor, chunks[0].now) + Duration(chunks[0].length), chunks[1..])
  }

  /** Every slot lies between the starting cursor and the final cursor, no
      slot starts before its clock reading plus the guard interval, and each
      slot lasts exactly its chunk's duration. */
  lemma {:induction false} ScheduleBounds(cursor: real, chunks: seq<Chunk>)
    ensures cursor <= CursorAfter(cursor, chunks)
    ensures forall i :: 0 <= i < |chunks| ==>
              var s := Schedule(cursor, chunks)[i];
              cursor <= s.start && chunks[i].now + GuardInterval <= s.start &&
              s.end == s.start + Duration(chunks[i].length) &&
              s.end <= CursorAfter(cursor, chunks)
    decreases |chunks|
  {
    if chunks != [] {
      var end := StartTime(cursor, chunks[0].now) + Duration(chunks[0].length);
      ScheduleBounds(end, chunks[1..]);
      var slots := Schedule(cursor, chunks);
      assert slots[1..] == Schedule(end, chunks[1..]);
      forall i | 1 <= i < |chunks|
        ensures slots[i] == Schedule(end, chunks[1..])[i - 1] && chunks[i] == chunks[1..][i - 1]
      {
      }
    }
  }

  /** No chunk starts before an earlier chunk ends: playback follows call
      order without overlap. */
  lemma {:induction false} ScheduleInOrder(cursor: real, chunks: seq<Chunk>, i: nat, j: nat)
    requires i < j < |chunks|
    ensures Schedule(cursor, chunks)[i].end <= Schedule(cursor, chunks)[j].start
    decreases |chunks|
  {
    var end := StartTime(cursor, chunks[0].now) + Duration(chunks[0].length);
    var slots := Schedule(cursor, chunks);
    assert slots[1..] == Schedule(end, chunks[1..]);
    if i == 0 {
      ScheduleBounds(end, chunks[1..]);
      assert slots[j] == Schedule(end, chunks[1..])[j - 1];
    } else {
      ScheduleInOrder(end, chunks[1..], i - 1, j - 1);
      assert slots[i] == Schedule(end, chunks[1..])[i - 1];
      assert slots[j] == Schedule(end, chunks[1..])[j - 1];
    }
  }

  /** While the cursor is ahead of every clock reading plus the guard
      interval, chunks play back to back: the first starts at the cursor and
      each later one exactly where the previous one ends. */
  lemma {:induction false} ScheduleContiguous(cursor: real, chunks: seq<Chunk>)
    requires forall k :: 0 <= k < |chunks| ==> chunks[k].now + GuardInterval <= cursor
    ensures |chunks| > 0 ==> Schedule(cursor, chunks)[0].start == cursor
    ensures forall i :: 0 < i < |chunks| ==>
              Schedule(cursor, chunks)[i].start == Schedule(cursor, chunks)[i - 1].end
    decreases |chunks|
  {
    if chunks != [] {
      var end := StartTime(cursor, chunks[0].now) + Duration(chunks[0].length);
      var slots := Schedule(cursor, chunks);
      var rest := Schedule(end, chunks[1..]);
      assert cursor <= end;
      ScheduleContiguous(end, chunks[1..]);
      assert slots[1..] == rest;
      forall i | 0 < i < |chunks| ensures slots[i].start == slots[i - 1].end {
        if i == 1 {
          assert slots[1] == rest[0];
        } else {
          assert slots[i] == rest[i - 1] && slots[i - 1] == rest[i - 2];
        }
      }
    }
  }

  /** Scheduling one more chunk appends one slot, which starts at the cursor
      left by the earlier chunks (or at the guarded clock). */
  lemma {:induction false} ScheduleAppend(cursor: real, chunks: seq<Chunk>, c: Chunk)
    ensures var start := StartTime(CursorAfter(cursor, chunks), c.now);
            Schedule(cursor, chunks + [c])
              == Schedule(cursor, chunks) + [Slot(start, start + Duration(c.length))] &&
            CursorAfter(cursor, chunks + [c]) == start + Duration(c.length)
    decreases |chunks|
  {
    if chunks != [] {
      var end := StartTime(cursor, chunks[0].now) + Duration(chunks[0].length);
      assert (chunks + [c])[1..] == chunks[1..] + [c];
      ScheduleAppend(end, chunks[1..], c);
    }
  }

  /** A started buffer source: its start time and its channel data. */
  datatype Played = Played(start: real, samples: seq<real>)

  /** The globals `audioContext` and `audioQueueTime` of the client. The
      ghost fields record every chunk scheduled since the context was created
      and the cursor at that moment. */
  class Player {
    var hasContext: bool
    var queueTime: real
    ghost var origin: real
    ghost var chunks: seq<Chunk>

    ghost predicate Valid()
      reads this
    {
      (!hasContext ==> chunks == []) &&
      (hasContext ==> queueTime == CursorAfter(origin, chunks))
    }

    /** The intervals played so far, in call order. */
    ghost function Slots(): seq<Slot>
      reads this
    {
      Schedule(origin, chunks)
    }

    /** The initial globals: no context, `audioQueueTime = 0`. */
    constructor ()
      ensures Valid() && !hasContext && queueTime == 0.0 && chunks == []
    {
      hasContext := false;
      queueTime := 0.0;
      origin := 0.0;
      chunks := [];
    }

    /** Lazy creation of the context (lines 170-173, also lines 19-22): the
        cursor starts at the new context's clock, and an existing context and
        cursor are left alone. */
    method EnsureContext(now: real)
      requires Valid()
      modifies this
      ensures Valid() && hasContext && chunks == old(chunks)
      ensures queueTime == if old(hasContext) then old(queueTime) else now
      ensures old(hasContext) ==> origin == old(origin)
    {
      if !hasContext {
        hasContext := true;
        queueTime := now;
        origin := now;
      }
    }

    /** The scheduling step (lines 183-188): start at the later of the cursor
        and the guarded clock, then move the cursor to the end of the chunk. */
    method Enqueue(now: real, n: nat) returns (start: real)
      requires Valid() && hasContext
      modifies this
      ensures Valid() && hasContext && origin == old(origin)
      ensures chunks == old(chunks) + [Chunk(now, n)]
      ensures start == StartTime(old(queueTime), now)
      ensures old(queueTime) <= start && now + GuardInterval <= start
      ensures queueTime == start + Duration(n) && old(queueTime) <= queueTime
      ensures Slots() == old(Slots()) + [Slot(start, queueTime)]
      ensures forall i :: 0 <= i < |old(Slots())| ==> old(Slots())[i].end <= start
    {
      ScheduleBounds(origin, chunks);
      ScheduleAppend(origin, chunks, Chunk(now, n));
      start := if queueTime >= now + GuardInterval then queueTime else now + GuardInterval;
      queueTime := start + n as real / SampleRate as real;
      chunks := chunks + [Chunk(now, n)];
    }

    /** `playAudio` (lines 157-193): decode the payload, convert it to
        floats, create the context if needed, and schedule the buffer. A
        payload that fails to decode raises before anything is scheduled, so
        the context and the cursor are untouched. A payload of zero samples
        makes `createBuffer` (line 175) raise after the context exists, so
        the context may have been created, but nothing is scheduled. */
    method PlayAudio(base64Audio: string, now: real) returns (r: Result<Played, JsError>)
      requires Valid()
      modifies this
      ensures Valid()
      ensures DecodePayload(base64Audio).Err? ==>
                r == Err(DecodePayload(base64Audio).error) &&
                hasContext == old(hasContext) && queueTime == old(queueTime) && chunks == old(chunks)
      ensures DecodePayload(base64Audio).Ok? && DecodePayload(base64Audio).value == [] ==>
                r == Err(NotSupportedError) && hasContext &&
                queueTime == (if old(hasContext) then old(queueTime) else now) &&
                chunks == old(chunks)
      ensures r.Ok? <==> DecodePayload(base64Audio).Ok? && DecodePayload(base64Audio).value != []
      ensures r.Ok? ==>
                var pcm := DecodePayload(base64Audio).value;
                var cursor := if old(hasContext) then old(queueTime) else now;
                hasContext &&
                |r.value.samples| == |pcm| &&
                (forall i :: 0 <= i < |pcm| ==> r.value.samples[i] == Dequantize(pcm[i])) &&
                r.value.start == StartTime(cursor, now) &&
                queueTime == r.value.start + Duration(|pcm|) &&
                chunks == old(chunks) + [Chunk(now, |pcm|)]
    {
      var decoded := DecodeAudio(base64Audio);
      if decoded.Err? {
        return Err(decoded.error);
      }
      var float32Array := Int16ToFloat32(decoded.value);
      EnsureContext(now);
      if float32Array.Length == 0 {
        return Err(NotSupportedError);
      }
      var startTime := Enqueue(now, float32Array.Length);
      r := Ok(Played(startTime, float32Array[..]));
    }
  }
}
