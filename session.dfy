/** The session side of the client: classification of inbound server
    messages (`handleWebSocketMessage`, lines 130-155) and the teardown of a
    recording session (`stopRecording`, lines 81-102). */
module Session {
  import opened Common
  import opened SampleCodec
  import opened Pcm16
  import opened Playback

  /** An inbound message after `JSON.parse`: its `type` and the optional
      string fields the client reads. */
  datatype Message = Message(
    kind: Option<string>,
    delta: Option<string>,
    toolName: Option<string>,
    toolResult: Option<string>)

  const AudioDelta := "response.audio.delta"
  const ResponseDone := "response.done"
  const ToolResponse := "extension.middle_tier_tool_response"
  const ErrorType := "error"
  const ReportTool := "generate_report"

  /** What the client does with a message. */
  datatype Action = PlayDelta(audio: string) | ShowReport(toolResult: Option<string>) | NoAction

  /** JavaScript truthiness of an optional string field. */
  predicate Truthy(field: Option<string>)
  {
    field.Some? && field.value != ""
  }

  /** The switch over `message.type`: audio deltas with a non-empty payload
      are played, tool responses from the report generator are displayed,
      and `response.done`, `error` and every other type only log. */
  function Dispatch(m: Message): (a: Action)
    ensures a.PlayDelta? <==> m.kind == Some(AudioDelta) && Truthy(m.delta)
    ensures a.PlayDelta? ==> Some(a.audio) == m.delta
    ensures a.ShowReport? <==> m.kind == Some(ToolResponse) && m.toolName == Some(ReportTool)
    ensures a.ShowReport? ==> a.toolResult == m.toolResult
    ensures m.kind == Some(ResponseDone) || m.kind == Some(ErrorType) ==> a == NoAction
    ensures m.kind !in {Some(AudioDelta), Some(ToolResponse)} ==> a == NoAction
  {
    match m.kind
    case Some(t) =>
      if t == AudioDelta then
        (if Truthy(m.delta) then PlayDelta(m.delta.value) else NoAction)
      else if t == ResponseDone then NoAction
      else if t == ToolResponse then
        (if m.toolName == Some(ReportTool) then ShowReport(m.toolResult) else NoAction)
      else if t == ErrorType then NoAction
      else NoAction
    case None => NoAction
  }

  /** The visible result of handling one message. */
  datatype Handled = Scheduled(played: Played) | Reported(toolResult: Option<string>) | Ignored | Failed(error: JsError)

  /** `handleWebSocketMessage`: dispatch, and for an audio delta run
      `playAudio`. Only an audio delta touches the player; a delta of N
      samples is scheduled at max(cursor, now + 0.1) and moves the cursor
      N/24000 seconds past that start. */
  method HandleWebSocketMessage(player: Player, m: Message, now: real) returns (h: Handled)
    requires player.Valid()
    modifies player
    ensures player.Valid()
    ensures !Dispatch(m).PlayDelta? ==>
              player.hasContext == old(player.hasContext) &&
              player.queueTime == old(player.queueTime) &&
              player.chunks == old(player.chunks)
    ensures Dispatch(m).NoAction? <==> h.Ignored?
    ensures Dispatch(m).ShowReport? <==> h.Reported?
    ensures h.Reported? ==> h.toolResult == m.toolResult
    ensures Dispatch(m).PlayDelta? ==> !h.Ignored? && !h.Reported?
    ensures Dispatch(m).PlayDelta? && DecodePayload(m.delta.value).Err? ==>
              h == Failed(DecodePayload(m.delta.value).error) &&
              player.hasContext == old(player.hasContext) &&
              player.queueTime == old(player.queueTime) &&
              player.chunks == old(player.chunks)
    ensures Dispatch(m).PlayDelta? && DecodePayload(m.delta.value) == Ok([]) ==>
              h == Failed(NotSupportedError) && player.hasContext &&
              player.queueTime == (if old(player.hasContext) then old(player.queueTime) else now) &&
              player.chunks == old(player.chunks)
    ensures h.Scheduled? <==>
              Dispatch(m).PlayDelta? && DecodePayload(m.delta.value).Ok? &&
              DecodePayload(m.delta.value).value != []
    ensures h.Scheduled? ==>
              var pcm := DecodePayload(m.delta.value).value;
              var cursor := if old(player.hasContext) then old(player.queueTime) else now;
              player.hasContext &&
              |h.played.samples| == |pcm| &&
              (forall i :: 0 <= i < |pcm| ==> h.played.samples[i] == Dequantize(pcm[i])) &&
              h.played.start == StartTime(cursor, now) &&
              player.queueTime == h.played.start + Duration(|pcm|) &&
              player.chunks == old(player.chunks) + [Chunk(now, |pcm|)]
  {
    match Dispatch(m)
    case PlayDelta(audio) =>
      var r := player.PlayAudio(audio, now);
      h := if r.Ok? then Scheduled(r.value) else Failed(r.error);
    case ShowReport(result) =>
      h := Reported(result);
    case NoAction =>
      h := Ignored;
  }

  /** `WebSocket.readyState`. */
  datatype ReadyState = Connecting | Open | Closing | Closed

  /** The client's socket; only `close()` is modelled. */
  class Socket {
    var readyState: ReadyState

    constructor (state: ReadyState)
      ensures readyState == state
    {
      readyState := state;
    }

    /** `close()`: a connecting or open socket starts closing; a closing or
        closed one is left as it is. */
    method Close()
      modifies this
      ensures readyState == (if old(readyState) in {Connecting, Open} then Closing else old(readyState))
    {
      if readyState == Connecting || readyState == Open {
        readyState := Closing;
      }
    }
  }

  /** The microphone stream: one liveness flag per track. */
  class MediaStream {
    var trackLive: seq<bool>

    constructor (tracks: nat)
      ensures |trackLive| == tracks && forall i :: 0 <= i < tracks ==> trackLive[i]
    {
      trackLive := seq(tracks, _ => true);
    }

    /** `getTracks().forEach(track => track.stop())`. */
    method StopTracks()
      modifies this
      ensures |trackLive| == |old(trackLive)|
      ensures forall i :: 0 <= i < |trackLive| ==> !trackLive[i]
    {
      var i := 0;
      while i < |trackLive|
        invariant 0 <= i <= |trackLive| == |old(trackLive)|
        invariant forall k :: 0 <= k < i ==> !trackLive[k]
      {
        trackLive := trackLive[i := false];
        i := i + 1;
      }
    }
  }

  /** The capture `ScriptProcessorNode`: whether it is wired into the audio
      graph and whether its `onaudioprocess` callback is set. */
  class Processor {
    var connected: bool
    var hasCallback: bool

    constructor ()
      ensures connected && hasCallback
    {
      connected := true;
      hasCallback := true;
    }

    /** `disconnect()`: removes every outgoing connection. */
    method Disconnect()
      modifies this
      ensures !connected && hasCallback == old(hasCallback)
    {
      connected := false;
    }
  }

  /** The recording globals `isRecording`, `websocket`, `mediaStream` and
      `mediaProcessor`. The audio context and queue cursor belong to
      `Player`, which a stop does not touch. */
  class Client {
    var isRecording: bool
    var websocket: Socket?
    var mediaStream: MediaStream?
    var mediaProcessor: Processor?

    /** The initial globals (lines 6-10). */
    constructor ()
      ensures !isRecording && websocket == null && mediaStream == null && mediaProcessor == null
    {
      isRecording := false;
      websocket := null;
      mediaStream := null;
      mediaProcessor := null;
    }

    /** The state `stopRecording` leaves behind. The processor handle is kept
        but disconnected and without its callback. */
    predicate Stopped()
      reads this, mediaProcessor
    {
      !isRecording && websocket == null && mediaStream == null &&
      (mediaProcessor != null ==> !mediaProcessor.connected && !mediaProcessor.hasCallback)
    }

    /** `stopRecording` (lines 81-102): disconnect the processor and clear
        its callback, stop every microphone track and drop the stream, close
        and drop the socket. Stopping a stopped client changes nothing. */
    method StopRecording()
      modifies this, mediaProcessor, mediaStream, websocket
      ensures Stopped()
      ensures mediaProcessor == old(mediaProcessor)
      ensures old(mediaStream) != null ==>
                |old(mediaStream).trackLive| == old(|mediaStream.trackLive|) &&
                forall i :: 0 <= i < |old(mediaStream).trackLive| ==> !old(mediaStream).trackLive[i]
      ensures old(websocket) != null ==>
                old(websocket).readyState ==
                  (if old(websocket.readyState) in {Connecting, Open} then Closing else old(websocket.readyState))
      ensures old(Stopped()) ==>
                unchanged(this) &&
                (mediaProcessor != null ==>
                   mediaProcessor.connected == old(mediaProcessor.connected) &&
                   mediaProcessor.hasCallback == old(mediaProcessor.hasCallback))
    {
      isRecording := false;
      if mediaProcessor != null {
        mediaProcessor.Disconnect();
        mediaProcessor.hasCallback := false;
      }
      if mediaStream != null {
        mediaStream.StopTracks();
        mediaStream := null;
      }
      if websocket != null {
        websocket.Close();
        websocket := null;
      }
    }
  }
}
