/** The live voice session component: its connection callbacks, the handler for
    messages from the live session, the playback scheduler behind it, and teardown.

    Each handler is one atomic step. The output audio context's clock is passed in
    as a parameter; the base64 and PCM decoders, the audio devices and the remote
    session are outside the model, and appear only as the values they hand back. */
module LiveVoice {
  import opened Common
  import opened Playback

  /** Number of bytes shown by the visualiser. */
  const VisualizerLength: nat := 40
  /** Value of a silent visualiser byte. */
  const VisualizerMidpoint: uint8 := 128
  /** Error text set when the live session reports an error. */
  const ConnectionErrorText: string := "Connection Error"
  /** Error text used when a failed connect attempt carries no message. */
  const ConnectFallbackText: string := "Failed to connect"

  /** The visualiser buffer shown before any audio: 40 silent bytes. */
  function SilentVisualizer(): (v: seq<uint8>)
    ensures |v| == VisualizerLength
    ensures forall i :: 0 <= i < |v| ==> v[i] == VisualizerMidpoint
  {
    seq(VisualizerLength, _ => VisualizerMidpoint)
  }

  /** The visualiser shows the leading bytes of a buffer, at most 40 of them. */
  function VisualizerSlice(bytes: seq<uint8>): (v: seq<uint8>)
    ensures |v| == Min(VisualizerLength, |bytes|)
    ensures v <= bytes
  {
    bytes[..Min(VisualizerLength, |bytes|)]
  }

  /** An inline audio chunk of a server message, as the decoders hand it back:
      the raw bytes of the base64 payload and the duration of the decoded buffer. */
  datatype AudioChunk = AudioChunk(rawBytes: seq<uint8>, duration: Seconds)

  /** A message from the live session. `audio` is `None` when the message has no
      inline audio data or the data is the empty string. The text and transcription
      parts are read by the handler but change nothing. */
  datatype ServerMessage = ServerMessage(
    modelText: Option<string>,
    inputTranscription: Option<string>,
    audio: Option<AudioChunk>,
    interrupted: bool)

  /** What `getUserMedia` hands back: a stream, or an error with its message. */
  datatype MicAccess = Granted | Denied(message: string)

  /** The error text a failed connect attempt shows: its message, or the fallback. */
  function ConnectErrorText(message: string): (text: string)
    ensures text != []
    ensures message != [] ==> text == message
    ensures message == [] ==> text == ConnectFallbackText
  {
    if message != [] then message else ConnectFallbackText
  }

  /** The cursor of an epoch extended by one chunk is the end of that chunk. */
  lemma CursorAfterOneMore(epoch: seq<Arrival>, a: Arrival)
    ensures CursorAfter(0.0, epoch + [a]) == StartAt(CursorAfter(0.0, epoch), a.clock) + a.duration
  {
    ScheduleOneMore(0.0, epoch, a);
  }

  /** Every handle of `hs` ends by time `t`. */
  ghost predicate AllEndBy(hs: set<PlaybackHandle>, t: real)
  {
    forall h :: h in hs ==> h.start + h.duration <= t
  }

  /** No two handles of `hs` sound at the same time. */
  ghost predicate PairwiseDisjoint(hs: set<PlaybackHandle>)
  {
    forall h, k :: h in hs && k in hs && h != k ==>
      h.start + h.duration <= k.start || k.start + k.duration <= h.start
  }

  /** Adding a handle that starts once every other handle has ended keeps the
      handles disjoint, and all of them end by the new handle's end. */
  lemma AddAfterAll(hs: set<PlaybackHandle>, h: PlaybackHandle)
    requires PairwiseDisjoint(hs) && AllEndBy(hs, h.start)
    ensures PairwiseDisjoint(hs + {h})
    ensures AllEndBy(hs + {h}, h.start + h.duration)
  {
  }

  /** One scheduled buffer source. Its start time and duration are fixed when it is
      scheduled; `stopped` records a forced stop. */
  class PlaybackHandle {
    const start: Seconds
    const duration: Seconds
    var stopped: bool

    constructor (start: Seconds, duration: Seconds)
      ensures this.start == start && this.duration == duration && !stopped
    {
      this.start := start;
      this.duration := duration;
      stopped := false;
    }

    /** `source.stop()`. */
    method Stop()
      modifies this
      ensures stopped
    {
      stopped := true;
    }
  }

  /** The component's state. The audio contexts, the media stream and the session
      promise are kept as presence flags; calls that release them are counted. */
  class VoiceSession {
    var isConnected: bool
    var isSpeaking: bool
    var error: Option<string>
    var visualizer: seq<uint8>

    var nextStartTime: Seconds
    var sources: set<PlaybackHandle>

    var hasInputContext: bool
    var hasOutputContext: bool
    var hasMediaStream: bool
    var hasSession: bool
    /** Number of script processors wired to the microphone by `setupAudioInput`. */
    var captureTaps: nat
    /** Calls of `stop()` on the media stream's tracks. */
    var trackStops: nat
    /** Calls of `close()` on the audio contexts. */
    var contextCloses: nat
    /** Requests to close the live session. */
    var sessionCloses: nat
    /** Microphone frames handed to the session. */
    var framesSent: nat

    /** The chunks scheduled since the last interruption (or since the component was
        created), in order. */
    ghost var epoch: seq<Arrival>

    ghost predicate Valid()
      reads this, sources
    {
      |visualizer| <= VisualizerLength
      // the cursor is where the chunks of the current epoch, scheduled from 0, end
      && nextStartTime == CursorAfter(0.0, epoch)
      // every active handle ends by the cursor, and no two active handles overlap
      && AllEndBy(sources, nextStartTime)
      && PairwiseDisjoint(sources)
      // a handle that was force-stopped is no longer active
      && (forall h :: h in sources ==> !h.stopped)
      // speaking only while some handle is active
      && (isSpeaking ==> sources != {})
    }

    constructor ()
      ensures Valid()
      ensures !isConnected && !isSpeaking && error == None
      ensures visualizer == SilentVisualizer()
      ensures nextStartTime == 0.0 && sources == {} && epoch == []
      ensures !hasInputContext && !hasOutputContext && !hasMediaStream && !hasSession
      ensures captureTaps == 0 && trackStops == 0 && contextCloses == 0
      ensures sessionCloses == 0 && framesSent == 0
    {
      isConnected, isSpeaking, error := false, false, None;
      visualizer := SilentVisualizer();
      nextStartTime, sources, epoch := 0.0, {}, [];
      hasInputContext, hasOutputContext, hasMediaStream, hasSession := false, false, false, false;
      captureTaps, trackStops, contextCloses, sessionCloses, framesSent := 0, 0, 0, 0, 0;
    }

    /** `connect`: clears the error and creates both audio contexts, then asks for the
        microphone. With a stream it stores it and opens the live session; on a denial
        it shows the error and leaves the stream and session references as they were.
        It does not mark the component connected: `onopen` does. */
    method Connect(mic: MicAccess)
      requires Valid()
      modifies this
      ensures Valid()
      ensures hasInputContext && hasOutputContext
      ensures mic.Granted? ==> error == None && hasMediaStream && hasSession
      ensures mic.Denied? ==> error == Some(ConnectErrorText(mic.message))
      ensures mic.Denied? ==> hasMediaStream == old(hasMediaStream) && hasSession == old(hasSession)
      ensures isConnected == old(isConnected) && isSpeaking == old(isSpeaking)
      ensures nextStartTime == old(nextStartTime) && sources == old(sources) && epoch == old(epoch)
      ensures visualizer == old(visualizer) && captureTaps == old(captureTaps)
      ensures trackStops == old(trackStops) && contextCloses == old(contextCloses)
      ensures sessionCloses == old(sessionCloses) && framesSent == old(framesSent)
    {
      error := None;
      hasInputContext, hasOutputContext := true, true;
      match mic
      case Granted =>
        hasMediaStream := true;
        hasSession := true;
      case Denied(message) =>
        error := Some(ConnectErrorText(message));
    }

    /** `setupAudioInput`: wires one more capture tap, but only when the input context,
        the media stream and the session are all present; otherwise it does nothing. */
    method SetupAudioInput()
      requires Valid()
      modifies this
      ensures Valid()
      ensures captureTaps == old(captureTaps) + (if hasInputContext && hasMediaStream && hasSession then 1 else 0)
      ensures isConnected == old(isConnected) && isSpeaking == old(isSpeaking) && error == old(error)
      ensures nextStartTime == old(nextStartTime) && sources == old(sources) && epoch == old(epoch)
      ensures visualizer == old(visualizer) && framesSent == old(framesSent)
      ensures hasInputContext == old(hasInputContext) && hasOutputContext == old(hasOutputContext)
      ensures hasMediaStream == old(hasMediaStream) && hasSession == old(hasSession)
      ensures trackStops == old(trackStops) && contextCloses == old(contextCloses)
      ensures sessionCloses == old(sessionCloses)
    {
      if !hasInputContext || !hasMediaStream || !hasSession {
        return;
      }
      captureTaps := captureTaps + 1;
    }

    /** `onopen`: marks the component connected, then sets up the microphone input. */
    method OnOpen()
      requires Valid()
      modifies this
      ensures Valid()
      ensures isConnected
      ensures captureTaps == old(captureTaps) + (if hasInputContext && hasMediaStream && hasSession then 1 else 0)
      ensures isSpeaking == old(isSpeaking) && error == old(error)
      ensures nextStartTime == old(nextStartTime) && sources == old(sources) && epoch == old(epoch)
      ensures visualizer == old(visualizer) && framesSent == old(framesSent)
      ensures hasInputContext == old(hasInputContext) && hasOutputContext == old(hasOutputContext)
      ensures hasMediaStream == old(hasMediaStream) && hasSession == old(hasSession)
      ensures trackStops == old(trackStops) && contextCloses == old(contextCloses)
      ensures sessionCloses == old(sessionCloses)
    {
      isConnected := true;
      SetupAudioInput();
    }

    /** The capture callback of a wired tap: `levels` are the frame's samples already
        mapped to bytes, `sampled` is the outcome of the random UI decimation. A sampled
        frame replaces the visualiser with its leading bytes; every frame is sent to the
        session when there is one. */
    method OnAudioProcess(levels: seq<uint8>, sampled: bool)
      requires Valid()
      requires captureTaps > 0
      modifies this
      ensures Valid()
      ensures visualizer == if sampled then VisualizerSlice(levels) else old(visualizer)
      ensures framesSent == old(framesSent) + (if hasSession then 1 else 0)
      ensures isConnected == old(isConnected) && isSpeaking == old(isSpeaking) && error == old(error)
      ensures nextStartTime == old(nextStartTime) && sources == old(sources) && epoch == old(epoch)
      ensures hasInputContext == old(hasInputContext) && hasOutputContext == old(hasOutputContext)
      ensures hasMediaStream == old(hasMediaStream) && hasSession == old(hasSession)
      ensures captureTaps == old(captureTaps) && trackStops == old(trackStops)
      ensures contextCloses == old(contextCloses) && sessionCloses == old(sessionCloses)
    {
      if sampled {
        visualizer := VisualizerSlice(levels);
      }
      if hasSession {
        framesSent := framesSent + 1;
      }
    }

    /** The audio branch of `handleMessage`: marks the model as speaking, shows the
        chunk's leading bytes, starts a new buffer source at `max(cursor, clock)`,
        moves the cursor to its end and adds it to the active set. */
    method ScheduleChunk(chunk: AudioChunk, clock: Seconds) returns (h: PlaybackHandle)
      requires Valid()
      modifies this
      ensures Valid()
      ensures fresh(h) && !h.stopped
      ensures h.start == StartAt(old(nextStartTime), clock) && h.duration == chunk.duration
      ensures nextStartTime == h.start + chunk.duration
      ensures sources == old(sources) + {h}
      ensures epoch == old(epoch) + [Arrival(clock, chunk.duration)]
      ensures isSpeaking
      ensures visualizer == VisualizerSlice(chunk.rawBytes)
      ensures isConnected == old(isConnected) && error == old(error)
      ensures hasInputContext == old(hasInputContext) && hasOutputContext == old(hasOutputContext)
      ensures hasMediaStream == old(hasMediaStream) && hasSession == old(hasSession)
      ensures captureTaps == old(captureTaps) && trackStops == old(trackStops)
      ensures contextCloses == old(contextCloses) && sessionCloses == old(sessionCloses)
      ensures framesSent == old(framesSent)
    {
      var arrival := Arrival(clock, chunk.duration);
      isSpeaking := true;
      visualizer := VisualizerSlice(chunk.rawBytes);
      var start := StartAt(nextStartTime, clock);
      h := new PlaybackHandle(start, chunk.duration);
      // every active handle ends by the old cursor, so none overlaps the new one
      assert AllEndBy(sources, h.start);
      AddAfterAll(sources, h);
      nextStartTime := start + chunk.duration;
      sources := sources + {h};
      CursorAfterOneMore(epoch, arrival);
      epoch := epoch + [arrival];
    }

    /** The `ended` listener of a buffer source: removes that handle (if it is still
        there) and, if no handle is left, the model stops speaking. */
    method OnEnded(h: PlaybackHandle)
      requires Valid()
      modifies this
      ensures Valid()
      ensures sources == old(sources) - {h}
      ensures isSpeaking == (old(isSpeaking) && sources != {})
      ensures nextStartTime == old(nextStartTime) && epoch == old(epoch)
      ensures isConnected == old(isConnected) && error == old(error) && visualizer == old(visualizer)
      ensures hasInputContext == old(hasInputContext) && hasOutputContext == old(hasOutputContext)
      ensures hasMediaStream == old(hasMediaStream) && hasSession == old(hasSession)
      ensures captureTaps == old(captureTaps) && trackStops == old(trackStops)
      ensures contextCloses == old(contextCloses) && sessionCloses == old(sessionCloses)
      ensures framesSent == old(framesSent)
    {
      sources := sources - {h};
      if sources == {} {
        isSpeaking := false;
      }
    }

    /** The interruption branch of `handleMessage`: stops every active handle, empties
        the set, resets the cursor to 0 and marks the model silent. */
    method Interrupt()
      requires Valid()
      modifies this, sources
      ensures Valid()
      ensures forall h :: h in old(sources) ==> h.stopped
      ensures sources == {} && nextStartTime == 0.0 && epoch == [] && !isSpeaking
      ensures isConnected == old(isConnected) && error == old(error) && visualizer == old(visualizer)
      ensures hasInputContext == old(hasInputContext) && hasOutputContext == old(hasOutputContext)
      ensures hasMediaStream == old(hasMediaStream) && hasSession == old(hasSession)
      ensures captureTaps == old(captureTaps) && trackStops == old(trackStops)
      ensures contextCloses == old(contextCloses) && sessionCloses == old(sessionCloses)
      ensures framesSent == old(framesSent)
    {
      var pending := sources;
      while pending != {}
        invariant pending <= old(sources)
        invariant forall h :: h in old(sources) - pending ==> h.stopped
        invariant unchanged(this)
        decreases pending
      {
        var h :| h in pending;
        h.Stop();
        pending := pending - {h};
      }
      sources := {};
      nextStartTime := 0.0;
      epoch := [];
      isSpeaking := false;
    }

    /** `handleMessage`: text and transcription parts change nothing; inline audio is
        scheduled when there is an output context; then an interruption flag stops
        everything, including a chunk scheduled by this same message. */
    method HandleMessage(msg: ServerMessage, clock: Seconds) returns (h: Option<PlaybackHandle>)
      requires Valid()
      modifies this, sources
      ensures Valid()
      ensures h.Some? <==> msg.audio.Some? && hasOutputContext
      ensures h.Some? ==> fresh(h.value)
      ensures h.Some? ==>
                h.value.start == StartAt(old(nextStartTime), clock)
                && h.value.duration == msg.audio.value.duration
      ensures h.Some? ==> visualizer == VisualizerSlice(msg.audio.value.rawBytes)
      ensures h.None? ==> visualizer == old(visualizer)
      ensures msg.interrupted ==>
                sources == {} && nextStartTime == 0.0 && epoch == [] && !isSpeaking
                && (forall k :: k in old(sources) ==> k.stopped)
                && (h.Some? ==> h.value.stopped)
      ensures !msg.interrupted && h.Some? ==>
                sources == old(sources) + {h.value} && isSpeaking
                && nextStartTime == h.value.start + h.value.duration
                && epoch == old(epoch) + [Arrival(clock, h.value.duration)]
      ensures !msg.interrupted && h.None? ==>
                sources == old(sources) && nextStartTime == old(nextStartTime)
                && epoch == old(epoch) && isSpeaking == old(isSpeaking)
      ensures isConnected == old(isConnected) && error == old(error)
      ensures hasInputContext == old(hasInputContext) && hasOutputContext == old(hasOutputContext)
      ensures hasMediaStream == old(hasMediaStream) && hasSession == old(hasSession)
      ensures captureTaps == old(captureTaps) && trackStops == old(trackStops)
      ensures contextCloses == old(contextCloses) && sessionCloses == old(sessionCloses)
      ensures framesSent == old(framesSent)
    {
      h := None;
      if msg.audio.Some? && hasOutputContext {
        var started := ScheduleChunk(msg.audio.value, clock);
        h := Some(started);
      }
      if msg.interrupted {
        Interrupt();
      }
    }

    /** `stopAudio`: stops the microphone tracks and closes both audio contexts (each
        only if present), and marks the component disconnected and silent. It leaves
        the cursor and the set of active handles as they are. */
    method StopAudio()
      requires Valid()
      modifies this
      ensures Valid()
      ensures !isConnected && !isSpeaking
      ensures trackStops == old(trackStops) + (if hasMediaStream then 1 else 0)
      ensures contextCloses == old(contextCloses)
                + (if hasInputContext then 1 else 0) + (if hasOutputContext then 1 else 0)
      ensures nextStartTime == old(nextStartTime) && sources == old(sources) && epoch == old(epoch)
      ensures error == old(error) && visualizer == old(visualizer)
      ensures hasInputContext == old(hasInputContext) && hasOutputContext == old(hasOutputContext)
      ensures hasMediaStream == old(hasMediaStream) && hasSession == old(hasSession)
      ensures captureTaps == old(captureTaps) && sessionCloses == old(sessionCloses)
      ensures framesSent == old(framesSent)
    {
      if hasMediaStream {
        trackStops := trackStops + 1;
      }
      if hasInputContext {
        contextCloses := contextCloses + 1;
      }
      if hasOutputContext {
        contextCloses := contextCloses + 1;
      }
      isConnected := false;
      isSpeaking := false;
    }

    /** `disconnect`: asks the session to close, when there is one, then tears down. */
    method Disconnect()
      requires Valid()
      modifies this
      ensures Valid()
      ensures !isConnected && !isSpeaking
      ensures sessionCloses == old(sessionCloses) + (if hasSession then 1 else 0)
      ensures trackStops == old(trackStops) + (if hasMediaStream then 1 else 0)
      ensures contextCloses == old(contextCloses)
                + (if hasInputContext then 1 else 0) + (if hasOutputContext then 1 else 0)
      ensures nextStartTime == old(nextStartTime) && sources == old(sources) && epoch == old(epoch)
      ensures error == old(error) && visualizer == old(visualizer)
      ensures hasInputContext == old(hasInputContext) && hasOutputContext == old(hasOutputContext)
      ensures hasMediaStream == old(hasMediaStream) && hasSession == old(hasSession)
      ensures captureTaps == old(captureTaps) && framesSent == old(framesSent)
    {
      if hasSession {
        sessionCloses := sessionCloses + 1;
      }
      StopAudio();
    }

    /** `onclose`: marks the component disconnected and tears down. */
    method OnClose()
      requires Valid()
      modifies this
      ensures Valid()
      ensures !isConnected && !isSpeaking
      ensures trackStops == old(trackStops) + (if hasMediaStream then 1 else 0)
      ensures contextCloses == old(contextCloses)
                + (if hasInputContext then 1 else 0) + (if hasOutputContext then 1 else 0)
      ensures nextStartTime == old(nextStartTime) && sources == old(sources) && epoch == old(epoch)
      ensures error == old(error) && visualizer == old(visualizer)
      ensures hasInputContext == old(hasInputContext) && hasOutputContext == old(hasOutputContext)
      ensures hasMediaStream == old(hasMediaStream) && hasSession == old(hasSession)
      ensures captureTaps == old(captureTaps) && sessionCloses == old(sessionCloses)
      ensures framesSent == old(framesSent)
    {
      isConnected := false;
      StopAudio();
    }

    /** `onerror`: shows "Connection Error", marks the component disconnected and
        tears down. */
    method OnError()
      requires Valid()
      modifies this
      ensures Valid()
      ensures error == Some(ConnectionErrorText)
      ensures !isConnected && !isSpeaking
      ensures trackStops == old(trackStops) + (if hasMediaStream then 1 else 0)
      ensures contextCloses == old(contextCloses)
                + (if hasInputContext then 1 else 0) + (if hasOutputContext then 1 else 0)
      ensures nextStartTime == old(nextStartTime) && sources == old(sources) && epoch == old(epoch)
      ensures visualizer == old(visualizer)
      ensures hasInputContext == old(hasInputContext) && hasOutputContext == old(hasOutputContext)
      ensures hasMediaStream == old(hasMediaStream) && hasSession == old(hasSession)
      ensures captureTaps == old(captureTaps) && sessionCloses == old(sessionCloses)
      ensures framesSent == old(framesSent)
    {
      error := Some(ConnectionErrorText);
      isConnected := false;
      StopAudio();
    }
  }

  /** A message carrying only an audio chunk of the given duration. */
  function AudioMessage(rawBytes: seq<uint8>, duration: Seconds): (msg: ServerMessage)
  {
    ServerMessage(None, None, Some(AudioChunk(rawBytes, duration)), false)
  }

  /** A message carrying only the interruption flag. */
  function InterruptMessage(): (msg: ServerMessage)
  {
    ServerMessage(None, None, None, true)
  }

  /** Three chunks of 0.5 s, 0.3 s and 0.2 s, each arriving while the previous one is
      still sounding, in a fresh connected session: they start at t0, t0 + 0.5 and
      t0 + 0.8, and the cursor ends at t0 + 1.0. */
  method BackToBackScenario(t0: Seconds) returns (s1: real, s2: real, s3: real, cursor: real)
    ensures s1 == t0 && s2 == t0 + 0.5 && s3 == t0 + 0.8
    ensures cursor == t0 + 1.0
  {
    var session := new VoiceSession();
    session.Connect(Granted);
    session.OnOpen();
    var h1 := session.HandleMessage(AudioMessage([], 0.5), t0);
    var h2 := session.HandleMessage(AudioMessage([], 0.3), t0 + 0.1);
    var h3 := session.HandleMessage(AudioMessage([], 0.2), t0 + 0.2);
    s1, s2, s3 := h1.value.start, h2.value.start, h3.value.start;
    cursor := session.nextStartTime;
  }

  /** The same three chunks, with an interruption at t0 + 0.6 while the second one is
      sounding: every handle is stopped, none stays active, the model is silent, and a
      0.4 s chunk handled at t0 + 0.7 starts at t0 + 0.7, not at the old cursor. */
  method BargeInScenario(t0: Seconds)
    returns (allStopped: bool, anyActive: bool, speaking: bool, nextStart: real)
    ensures allStopped && !anyActive && !speaking
    ensures nextStart == t0 + 0.7
  {
    var session := new VoiceSession();
    session.Connect(Granted);
    session.OnOpen();
    var h1 := session.HandleMessage(AudioMessage([], 0.5), t0);
    var h2 := session.HandleMessage(AudioMessage([], 0.3), t0 + 0.1);
    var h3 := session.HandleMessage(AudioMessage([], 0.2), t0 + 0.2);
    var none := session.HandleMessage(InterruptMessage(), t0 + 0.6);
    allStopped := h1.value.stopped && h2.value.stopped && h3.value.stopped;
    anyActive := session.sources != {};
    speaking := session.isSpeaking;
    var h4 := session.HandleMessage(AudioMessage([], 0.4), t0 + 0.7);
    nextStart := h4.value.start;
  }

  /** Teardown while a chunk is sounding: the component shows "not speaking" although
      the handle is still in the active set, and the cursor keeps its value. */
  method TeardownKeepsHandlesScenario(t0: Seconds)
    returns (speaking: bool, anyActive: bool, cursor: real)
    ensures !speaking && anyActive
    ensures cursor == t0 + 0.5
  {
    var session := new VoiceSession();
    session.Connect(Granted);
    session.OnOpen();
    var h := session.HandleMessage(AudioMessage([], 0.5), t0);
    session.Disconnect();
    speaking := session.isSpeaking;
    anyActive := session.sources != {};
    cursor := session.nextStartTime;
  }

  /** Two disconnects in a row after a successful connect: each one stops the
      microphone tracks, closes both audio contexts and asks the session to close
      again, so every release happens twice. */
  method DisconnectTwiceScenario()
    returns (trackStops: nat, contextCloses: nat, sessionCloses: nat, connected: bool)
    ensures trackStops == 2 && contextCloses == 4 && sessionCloses == 2
    ensures !connected
  {
    var session := new VoiceSession();
    session.Connect(Granted);
    session.OnOpen();
    session.Disconnect();
    session.Disconnect();
    trackStops, contextCloses, sessionCloses := session.trackStops, session.contextCloses, session.sessionCloses;
    connected := session.isConnected;
  }

  /** A failed microphone request: the error shows the failure's message and the
      component stays disconnected. */
  method DeniedMicrophoneScenario() returns (error: Option<string>, connected: bool)
    ensures error == Some("Permission denied") && !connected
  {
    var session := new VoiceSession();
    session.Connect(Denied("Permission denied"));
    error, connected := session.error, session.isConnected;
  }

  /** Reconnecting after a teardown keeps the old cursor, while the new output
      context's clock starts again at 0: a 10 s chunk scheduled at clock 0 in the first
      session makes the first chunk of the second session, handled at its clock 0,
      start 10 s late. */
  method ReconnectScenario() returns (firstStart: real, secondStart: real)
    ensures firstStart == 0.0 && secondStart == 10.0
  {
    var session := new VoiceSession();
    session.Connect(Granted);
    session.OnOpen();
    var h1 := session.HandleMessage(AudioMessage([], 10.0), 0.0);
    session.Disconnect();
    session.Connect(Granted);
    session.OnOpen();
    var h2 := session.HandleMessage(AudioMessage([], 1.0), 0.0);
    firstStart, secondStart := h1.value.start, h2.value.start;
  }
}
