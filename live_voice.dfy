/**
 * The live voice widget (components/LiveVoiceAssistant.tsx) as a state
 * machine: the connection flags and references, the capture callback, and the
 * `onmessage` handler that schedules decoded audio and handles barge-in.
 *
 * Each callback runs to completion as one atomic step. The remote endpoint,
 * the microphone request and the output clock are inputs: the outcome of
 * `getUserMedia` is a parameter of `StartSession`, every server message and
 * the clock reading `outputCtx.currentTime` are parameters of `OnMessage`.
 */
module LiveVoice {
  import opened Wrappers
  import opened PcmCodec
  import opened Scheduler

  /**
   * The inline audio of a server message, after `atob`: absent (no model
   * turn, no first part, no inline data, or an empty data string, which the
   * guard treats as false); a model turn without a `parts` array, where the
   * optional chain stops guarding and reading `parts[0]` throws a TypeError
   * before anything else happens; a data string `atob` rejects; or the binary
   * string it returns.
   */
  datatype InlineAudio = NoAudio | Malformed | Undecodable | Audio(binary: string)

  datatype ServerMessage = ServerMessage(audio: InlineAudio, interrupted: bool)

  /**
   * Everything the widget keeps: the two rendered flags, whether the session,
   * input-context and output-context references are set, whether the capture
   * processor is running, the blobs handed to the session in order, and the
   * playback scheduler.
   */
  datatype VoiceState = VoiceState(
    isActive: bool,
    isConnecting: bool,
    hasSession: bool,
    hasInputContext: bool,
    hasOutputContext: bool,
    capturing: bool,
    sent: seq<Blob>,
    playback: Playback)

  const Initial := VoiceState(false, false, false, false, false, false, [], Silent)

  /** The widget's invariant: capture runs only on a live input context, and the scheduler's own. */
  ghost predicate Consistent(v: VoiceState) {
    && (v.capturing ==> v.hasInputContext)
    && Scheduler.Valid(v.playback)
  }

  /** `startSession`: both contexts are created before the microphone is requested; if it is refused, only `isConnecting` is rolled back. */
  function Start(v: VoiceState, micGranted: bool): VoiceState {
    var prepared := v.(isConnecting := true, hasInputContext := true, hasOutputContext := true);
    if micGranted then prepared.(hasSession := true) else prepared.(isConnecting := false)
  }

  /** `onopen`: connected; the capture processor is wired to the input context. */
  function Open(v: VoiceState): VoiceState {
    v.(isConnecting := false, isActive := true, capturing := v.hasInputContext)
  }

  /** `onaudioprocess`: a captured frame of integer samples is packed and sent. */
  function Capture(v: VoiceState, frame: seq<int>): VoiceState {
    v.(sent := v.sent + [BlobOf(frame)])
  }

  /** The duration of an inline audio payload at 24 kHz mono, or the error decoding it throws. */
  function SegmentDuration(binary: string): Result<real, AudioError> {
    match DecodedChannels(BinaryToBytes(binary), OutputSampleRate, 1)
    case Failure(e) => Failure(e)
    case Success(channels) => Success(Duration(|channels[0]|, OutputSampleRate))
  }

  /** The interrupt check at the end of `onmessage`. */
  function InterruptCheck(v: VoiceState, interrupted: bool): VoiceState {
    if interrupted then v.(playback := Interrupt(v.playback)) else v
  }

  /**
   * The audio part of `onmessage`, and whether the handler goes on to the
   * interrupt check. With no audio nothing happens. A malformed model turn
   * throws while the payload is read, which ends the handler at once. With
   * audio present the cursor first moves up to the clock; a payload that
   * cannot be decoded then throws, which ends the handler; otherwise the
   * segment is scheduled.
   */
  function PlaySegment(v: VoiceState, audio: InlineAudio, now: real): (VoiceState, bool) {
    match audio
    case NoAudio => (v, true)
    case Malformed => (v, false)
    case Undecodable => (v.(playback := CatchUp(v.playback, now)), false)
    case Audio(binary) =>
      var caught := CatchUp(v.playback, now);
      match SegmentDuration(binary)
      case Failure(_) => (v.(playback := caught), false)
      case Success(d) => (v.(playback := Enqueue(caught, d)), true)
  }

  /** `onmessage`: the audio part, then, unless it threw, the interrupt flag of the same message. */
  function Receive(v: VoiceState, msg: ServerMessage, now: real): VoiceState {
    var (w, completed) := PlaySegment(v, msg.audio, now);
    if completed then InterruptCheck(w, msg.interrupted) else w
  }

  /** A source's `ended` event. */
  function SourceEnded(v: VoiceState, s: Source): VoiceState {
    v.(playback := Ended(v.playback, s))
  }

  /** `stopSession`: closes and drops the session and both contexts, stops every source and clears both flags. */
  function Stop(v: VoiceState): VoiceState {
    v.(hasSession := false, hasInputContext := false, hasOutputContext := false, capturing := false,
       isActive := false, isConnecting := false, playback := StopAll(v.playback))
  }

  // ---------------------------------------------------------------------
  // Properties

  /** A decodable payload has a positive duration: createBuffer refuses zero frames. */
  lemma SegmentDurationPositive(binary: string)
    requires SegmentDuration(binary).Success?
    ensures SegmentDuration(binary).value > 0.0
  {
    var bytes := BinaryToBytes(binary);
    var samples := Int16View(bytes).value;
    assert FrameCount(|samples|, 1) >= 1;
    var channels := DecodedChannels(bytes, OutputSampleRate, 1).value;
    assert |channels[0]| == |samples|;
  }

  /** A payload with an odd number of bytes makes the Int16 view throw. */
  lemma OddPayloadThrows(binary: string)
    requires |binary| % 2 == 1
    ensures SegmentDuration(binary) == Failure(RangeError)
  {
  }

  /** A blob of n >= 1 captured samples, sent back as a payload, plays for n / 24000 seconds. */
  lemma {:induction false} CapturedFramePlaysItsLength(samples: seq<Int16>)
    requires |samples| >= 1
    ensures SegmentDuration(BlobOf(samples).data) == Success(Duration(|samples|, OutputSampleRate))
  {
    assert Quantize(samples) == samples;
    var bytes := LittleEndian(samples);
    BytesRoundTrip(bytes);
    MonoDecode(samples, OutputSampleRate);
  }

  lemma {:induction false} PlaySegmentPreservesValid(v: VoiceState, audio: InlineAudio, now: real)
    requires Consistent(v)
    ensures Consistent(PlaySegment(v, audio, now).0)
  {
    if audio.Audio? {
      var r := SegmentDuration(audio.binary);
      if r.Success? {
        SegmentDurationPositive(audio.binary);
        ArrivalPreservesValid(v.playback, now, r.value);
      } else {
        CatchUpPreservesValid(v.playback, now);
      }
    } else if audio.Undecodable? {
      CatchUpPreservesValid(v.playback, now);
    }
  }

  lemma {:induction false} ReceivePreservesValid(v: VoiceState, msg: ServerMessage, now: real)
    requires Consistent(v)
    ensures Consistent(Receive(v, msg, now))
  {
    var (w, completed) := PlaySegment(v, msg.audio, now);
    PlaySegmentPreservesValid(v, msg.audio, now);
    InterruptEffect(w.playback);
  }

  /** A message carrying both audio and the interrupt flag leaves nothing scheduled and the cursor at 0. */
  lemma AudioThenInterrupt(v: VoiceState, binary: string, now: real)
    requires SegmentDuration(binary).Success?
    ensures var w := Receive(v, ServerMessage(Audio(binary), true), now);
      && w.playback.sources == {} && w.playback.cursor == 0.0
      && v.playback.sources <= w.playback.stopped
      && NextSource(CatchUp(v.playback, now), SegmentDuration(binary).value) in w.playback.stopped
  {
  }

  /** A payload that cannot be decoded skips the interrupt flag of the same message. */
  lemma UndecodableSkipsInterrupt(v: VoiceState, msg: ServerMessage, now: real)
    requires msg.audio.Undecodable? || (msg.audio.Audio? && SegmentDuration(msg.audio.binary).Failure?)
    ensures Receive(v, msg, now).playback.sources == v.playback.sources
    ensures Receive(v, msg, now).playback.cursor == Max(v.playback.cursor, now)
  {
  }

  /** A model turn without `parts` throws before the cursor moves, so the message changes nothing, its interrupt flag included. */
  lemma MalformedIgnored(v: VoiceState, interrupted: bool, now: real)
    ensures Receive(v, ServerMessage(Malformed, interrupted), now) == v
  {
  }

  /** After barge-in, the next segment starts at the clock reading, not at the old cursor. */
  lemma BargeIn(v: VoiceState, t1: real, binary: string, t2: real)
    requires SegmentDuration(binary).Success? && t2 >= 0.0
    ensures var w := Receive(v, ServerMessage(NoAudio, true), t1);
      && w.playback.sources == {} && w.playback.cursor == 0.0
      && Receive(w, ServerMessage(Audio(binary), false), t2).playback.sources
           == {Source(v.playback.created, t2, SegmentDuration(binary).value)}
  {
  }

  /** Two segments with no interrupt between them: the second starts when the first ends, or at its own arrival if later. */
  lemma {:induction false} ConsecutiveSegments(v: VoiceState, b1: string, t1: real, b2: string, t2: real)
    requires SegmentDuration(b1).Success? && SegmentDuration(b2).Success?
    ensures var w1 := Receive(v, ServerMessage(Audio(b1), false), t1);
      var s1 := NextSource(CatchUp(v.playback, t1), SegmentDuration(b1).value);
      var s2 := NextSource(CatchUp(w1.playback, t2), SegmentDuration(b2).value);
      && s1 in w1.playback.sources
      && Receive(w1, ServerMessage(Audio(b2), false), t2).playback.sources == w1.playback.sources + {s2}
      && s2.start == Max(End(s1), t2)
      && End(s1) <= s2.start
  {
    var w1 := Receive(v, ServerMessage(Audio(b1), false), t1);
    var s1 := NextSource(CatchUp(v.playback, t1), SegmentDuration(b1).value);
    assert w1.playback.cursor == End(s1);
  }

  /** A server message and the output clock's reading when it arrives. */
  datatype Timed = Timed(msg: ServerMessage, now: real)

  /** The messages handled in order, each as one `onmessage` step. */
  function ReceiveAll(v: VoiceState, events: seq<Timed>): VoiceState
    decreases |events|
  {
    if events == [] then v else ReceiveAll(Receive(v, events[0].msg, events[0].now), events[1..])
  }

  /** Message k carries decodable audio lasting `arrivals[k].duration`, arrives at `arrivals[k].now` and has no interrupt flag. */
  ghost predicate Uninterrupted(events: seq<Timed>, arrivals: seq<Arrival>) {
    && |events| == |arrivals|
    && forall k :: 0 <= k < |events| ==>
      && events[k].now == arrivals[k].now
      && events[k].msg.audio.Audio? && !events[k].msg.interrupted
      && SegmentDuration(events[k].msg.audio.binary) == Success(arrivals[k].duration)
  }

  /**
   * Any number of decodable, uninterrupted messages schedule exactly the
   * burst of their segments: the widget's playback ends as `Burst` says, so
   * `BurstBackToBack` describes what `onmessage` plays, and nothing else in
   * the widget changes.
   */
  lemma {:induction false} MessagesFormBurst(v: VoiceState, events: seq<Timed>, arrivals: seq<Arrival>)
    requires Uninterrupted(events, arrivals)
    ensures ReceiveAll(v, events) == v.(playback := Burst(v.playback, arrivals).0)
    decreases |events|
  {
    if events != [] {
      var w := Receive(v, events[0].msg, events[0].now);
      assert w == v.(playback := Enqueue(CatchUp(v.playback, arrivals[0].now), arrivals[0].duration));
      assert Uninterrupted(events[1..], arrivals[1..]) by {
        forall k | 0 <= k < |events| - 1
          ensures events[1..][k] == events[k + 1] && arrivals[1..][k] == arrivals[k + 1]
        {
        }
      }
      MessagesFormBurst(w, events[1..], arrivals[1..]);
    }
  }

  /** `stopSession` is idempotent. */
  lemma StopIdempotent(v: VoiceState)
    ensures Stop(Stop(v)) == Stop(v)
  {
  }

  /** After `stopSession` nothing is tracked, both flags are false, every reference is cleared and the cursor is where it was. */
  lemma StopEndState(v: VoiceState)
    requires Consistent(v)
    ensures var w := Stop(v);
      && w.playback.sources == {} && v.playback.sources <= w.playback.stopped
      && !w.isActive && !w.isConnecting
      && !w.hasSession && !w.hasInputContext && !w.hasOutputContext && !w.capturing
      && w.playback.cursor == v.playback.cursor
      && Consistent(w)
  {
    StopAllEffect(v.playback);
  }

  /** A refused microphone leaves the widget neither connecting nor active-from-this-start, with no session. */
  lemma StartRefused(v: VoiceState)
    ensures !Start(v, false).isConnecting
    ensures Start(v, false).hasSession == v.hasSession
    ensures Start(v, false).isActive == v.isActive
    ensures Start(v, false).playback == v.playback
  {
  }

  lemma OperationsPreserveValid(v: VoiceState, micGranted: bool, frame: seq<int>, s: Source)
    requires Consistent(v)
    ensures Consistent(Start(v, micGranted)) && Consistent(Open(v)) && Consistent(Capture(v, frame))
    ensures Consistent(SourceEnded(v, s)) && Consistent(Stop(v))
  {
    EndedRemovesOnlyIt(v.playback, s);
    StopAllEffect(v.playback);
  }

  /** The decoding step of `onmessage`: the payload is decoded as 24 kHz mono and the buffer's duration taken. */
  method DecodeSegment(binary: string) returns (r: Result<real, AudioError>)
    ensures r == SegmentDuration(binary)
  {
    var bytes := Decode(binary);
    var decoded := DecodeAudioData(bytes, OutputSampleRate, 1);
    if decoded.Failure? {
      return Failure(decoded.error);
    }
    var audioBuffer := decoded.value;
    r := Success(Duration(audioBuffer.channelData.Length1, audioBuffer.sampleRate));
  }

  // ---------------------------------------------------------------------
  // The component

  class LiveVoiceAssistant {
    var isActive: bool
    var isConnecting: bool
    var hasSession: bool
    var hasInputContext: bool
    var hasOutputContext: bool
    var capturing: bool
    var sent: seq<Blob>
    var nextStartTime: real
    var sources: set<Source>
    var stopped: set<Source>
    var created: nat

    function State(): VoiceState
      reads this
    {
      VoiceState(isActive, isConnecting, hasSession, hasInputContext, hasOutputContext, capturing, sent,
                 Playback(nextStartTime, sources, stopped, created))
    }

    ghost predicate Valid()
      reads this
    {
      Consistent(State())
    }

    constructor ()
      ensures State() == Initial && Valid()
    {
      isActive, isConnecting := false, false;
      hasSession, hasInputContext, hasOutputContext, capturing := false, false, false, false;
      sent := [];
      nextStartTime, sources, stopped, created := 0.0, {}, {}, 0;
    }

    method StartSession(micGranted: bool)
      requires Valid()
      modifies this
      ensures Valid() && State() == Start(old(State()), micGranted)
    {
      isConnecting := true;
      hasInputContext := true;
      hasOutputContext := true;
      if !micGranted {
        isConnecting := false;
        return;
      }
      hasSession := true;
    }

    method OnOpen()
      requires Valid()
      modifies this
      ensures Valid() && State() == Open(old(State()))
    {
      isConnecting := false;
      isActive := true;
      capturing := hasInputContext;
    }

    method OnAudioProcess(frame: seq<int>)
      requires Valid() && capturing
      modifies this
      ensures Valid() && State() == Capture(old(State()), frame)
      ensures sent == old(sent) + [BlobOf(frame)]
    {
      var pcmBlob := CreateBlob(frame);
      sent := sent + [pcmBlob];
    }

    method OnMessage(msg: ServerMessage, now: real)
      requires Valid()
      modifies this
      ensures Valid() && State() == Receive(old(State()), msg, now)
    {
      ReceivePreservesValid(State(), msg, now);
      var completed := PlayAudio(msg.audio, now);
      if completed && msg.interrupted {
        InterruptPlayback();
      }
    }

    /** The audio part of `onmessage`; `completed` is false when reading or decoding the payload threw and ended the handler. */
    method PlayAudio(audio: InlineAudio, now: real) returns (completed: bool)
      modifies this
      ensures (State(), completed) == PlaySegment(old(State()), audio, now)
    {
      if audio.NoAudio? {
        return true;
      }
      if audio.Malformed? {
        return false;
      }
      CatchUpClock(now);
      if audio.Undecodable? {
        return false;
      }
      var decoded := DecodeSegment(audio.binary);
      if decoded.Failure? {
        return false;
      }
      Schedule(decoded.value);
      completed := true;
    }

    /** The cursor moves up to the output clock if it has fallen behind. */
    method CatchUpClock(now: real)
      modifies this
      ensures State() == old(State()).(playback := CatchUp(old(State()).playback, now))
    {
      nextStartTime := Max(nextStartTime, now);
    }

    /** A new source starts at the cursor, which advances by its duration, and is tracked. */
    method Schedule(duration: real)
      modifies this
      ensures State() == old(State()).(playback := Enqueue(old(State()).playback, duration))
    {
      var source := Source(created, nextStartTime, duration);
      created := created + 1;
      nextStartTime := nextStartTime + duration;
      sources := sources + {source};
    }

    /** Barge-in: every source is stopped and the cursor goes back to 0. */
    method InterruptPlayback()
      modifies this
      ensures State() == InterruptCheck(old(State()), true)
    {
      StopSources();
      nextStartTime := 0.0;
    }

    /** Calls `stop()` on every tracked source and clears the set. */
    method StopSources()
      modifies this
      ensures State() == old(State()).(playback := StopAll(old(State()).playback))
    {
      stopped := stopped + sources;
      sources := {};
    }

    method OnEnded(source: Source)
      requires Valid()
      modifies this
      ensures Valid() && State() == SourceEnded(old(State()), source)
    {
      EndedRemovesOnlyIt(State().playback, source);
      sources := sources - {source};
    }

    method StopSession()
      requires Valid()
      modifies this
      ensures Valid() && State() == Stop(old(State()))
    {
      StopEndState(State());
      ReleaseRefs();
      StopSources();
      isActive := false;
      isConnecting := false;
    }

    /** Closes and clears whichever of the session and the two contexts is set. */
    method ReleaseRefs()
      requires capturing ==> hasInputContext
      modifies this
      ensures State() == old(State()).(hasSession := false, hasInputContext := false, hasOutputContext := false, capturing := false)
    {
      if hasSession {
        hasSession := false;
      }
      if hasInputContext {
        hasInputContext := false;
        capturing := false;
      }
      if hasOutputContext {
        hasOutputContext := false;
      }
    }

    method OnError()
      requires Valid()
      modifies this
      ensures Valid() && State() == Stop(old(State()))
    {
      StopSession();
    }

    method OnClose()
      requires Valid()
      modifies this
      ensures Valid() && State() == Stop(old(State()))
    {
      StopSession();
    }

    /** The single button: disabled while connecting, it stops an active session and starts otherwise. */
    method Click(micGranted: bool)
      requires Valid() && !isConnecting
      modifies this
      ensures Valid()
      ensures State() == if old(isActive) then Stop(old(State())) else Start(old(State()), micGranted)
    {
      if isActive {
        StopSession();
      } else {
        StartSession(micGranted);
      }
    }
  }
}
