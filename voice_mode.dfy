/**
 * The live voice session: the handler for messages from the conversational
 * endpoint (audio playback scheduling, transcript accumulation and flushing,
 * interruption), session start and stop, and the framing of captured
 * microphone samples.
 *
 * The browser's audio objects are reduced to what the handlers do with them:
 * a playback source is a handle with a start time, a duration and a stopped
 * flag; an audio context or the live session is a handle that can be closed.
 * The output clock ("now") is a parameter.
 */
module VoiceMode {
  import opened Types
  import Base64
  import GeminiService
  import Constants

  // ---------------------------------------------------------------------
  // Inbound messages, with every optional field the handler reads

  datatype Transcription = Transcription(text: Option<string>)
  datatype Blob = Blob(data: Option<string>)
  datatype Part = Part(inlineData: Option<Blob>)
  datatype ModelTurn = ModelTurn(parts: Option<seq<Part>>)
  datatype ServerContent = ServerContent(
    modelTurn: Option<ModelTurn>,
    inputTranscription: Option<Transcription>,
    outputTranscription: Option<Transcription>,
    turnComplete: bool,
    interrupted: bool)
  datatype LiveServerMessage = LiveServerMessage(serverContent: Option<ServerContent>)

  /** The handler either runs to its end or stops at an exception. */
  datatype Outcome = Completed | Threw

  /**
   * `message.serverContent?.modelTurn?.parts[0]?.inlineData?.data`. The
   * chain is not optional at `parts`, so a model turn without parts is a
   * TypeError (`Failure`).
   */
  function AudioData(m: LiveServerMessage): (r: Result<Option<string>, Outcome>)
    ensures r.Failure? <==> m.serverContent.Some? && m.serverContent.value.modelTurn.Some?
                            && m.serverContent.value.modelTurn.value.parts.None?
    ensures r == Success(None) <== m.serverContent.None? || m.serverContent.value.modelTurn.None?
  {
    match m.serverContent
    case None => Success(None)
    case Some(c) =>
      match c.modelTurn
      case None => Success(None)
      case Some(turn) =>
        match turn.parts
        case None => Failure(Threw)
        case Some(parts) =>
          if |parts| == 0 || parts[0].inlineData.None? then Success(None)
          else Success(parts[0].inlineData.value.data)
  }

  /** The content of a message, an empty one when `serverContent` is absent. */
  function ContentOf(m: LiveServerMessage): ServerContent {
    match m.serverContent
    case None => ServerContent(None, None, None, false, false)
    case Some(c) => c
  }

  // ---------------------------------------------------------------------
  // Transcript accumulation, as values

  /** The two transcript buffers: speech heard from the user, speech produced by the model. */
  datatype Accumulator = Accumulator(input: string, output: string)

  const Empty := Accumulator("", "")

  /** What `buffer += transcription.text` appends; a missing text is concatenated as "undefined". */
  function Fragment(t: Option<Transcription>): string {
    match t
    case None => ""
    case Some(tr) => if tr.text.Some? then tr.text.value else "undefined"
  }

  /** Both fragments of a message appended to their own buffers. */
  function Accumulate(acc: Accumulator, c: ServerContent): (next: Accumulator)
    ensures next.input == acc.input + Fragment(c.inputTranscription)
    ensures next.output == acc.output + Fragment(c.outputTranscription)
    ensures c.inputTranscription.None? ==> next.input == acc.input
    ensures c.outputTranscription.None? ==> next.output == acc.output
  {
    Accumulator(acc.input + Fragment(c.inputTranscription), acc.output + Fragment(c.outputTranscription))
  }

  /** The entries a turn boundary emits: the user's text, then the model's, each only when non-empty. */
  function Flush(acc: Accumulator): (entries: seq<Entry>)
    ensures |entries| == (if acc.input != "" then 1 else 0) + (if acc.output != "" then 1 else 0)
    ensures forall i :: 0 <= i < |entries| ==> entries[i].text != ""
    ensures acc.input != "" ==> entries[0] == Entry(User, acc.input)
    ensures acc.output != "" ==> entries[|entries| - 1] == Entry(Ai, acc.output)
  {
    (if acc.input != "" then [Entry(User, acc.input)] else [])
    + (if acc.output != "" then [Entry(Ai, acc.output)] else [])
  }

  /** The buffers after some messages, and the entries those messages sent to the transcript. */
  datatype Progress = Progress(buffers: Accumulator, emitted: seq<Entry>)

  /** One message's effect on the buffers and the entries it sends to the transcript. */
  function TranscriptStep(acc: Accumulator, c: ServerContent): (p: Progress)
    ensures c.turnComplete ==> p.buffers == Empty
  {
    var next := Accumulate(acc, c);
    if c.turnComplete then Progress(Empty, Flush(next)) else Progress(next, [])
  }

  /** Several messages in a row, their emitted entries concatenated. */
  function TranscriptRun(acc: Accumulator, cs: seq<ServerContent>): (p: Progress)
    ensures forall i :: 0 <= i < |p.emitted| ==> p.emitted[i].text != ""
    ensures cs != [] && cs[|cs| - 1].turnComplete ==> p.buffers == Empty
    decreases |cs|
  {
    if cs == [] then Progress(acc, [])
    else
      var first := TranscriptStep(acc, cs[0]);
      var rest := TranscriptRun(first.buffers, cs[1..]);
      Progress(rest.buffers, first.emitted + rest.emitted)
  }

  /** The input fragments of `cs` concatenated in arrival order. */
  function InputText(cs: seq<ServerContent>): string
    decreases |cs|
  {
    if cs == [] then "" else Fragment(cs[0].inputTranscription) + InputText(cs[1..])
  }

  /** The output fragments of `cs` concatenated in arrival order. */
  function OutputText(cs: seq<ServerContent>): string
    decreases |cs|
  {
    if cs == [] then "" else Fragment(cs[0].outputTranscription) + OutputText(cs[1..])
  }

  /** Without a turn boundary, the buffers gain the fragments in arrival order and nothing is emitted. */
  lemma {:induction false} RunWithoutTurn(acc: Accumulator, cs: seq<ServerContent>)
    requires forall i :: 0 <= i < |cs| ==> !cs[i].turnComplete
    ensures TranscriptRun(acc, cs) == Progress(Accumulator(acc.input + InputText(cs), acc.output + OutputText(cs)), [])
    decreases |cs|
  {
    if cs == [] {
      assert acc.input + "" == acc.input && acc.output + "" == acc.output;
    } else {
      var rest := cs[1..];
      var next := Accumulate(acc, cs[0]);
      assert forall i :: 0 <= i < |rest| ==> rest[i] == cs[i + 1];
      RunWithoutTurn(next, rest);
      AppendInOrder(acc.input, Fragment(cs[0].inputTranscription), InputText(rest));
      AppendInOrder(acc.output, Fragment(cs[0].outputTranscription), OutputText(rest));
    }
  }

  /** Concatenation regrouped; stated once so the inductions above and below stay cheap. */
  lemma AppendInOrder(a: string, b: string, c: string)
    ensures a + b + c == a + (b + c)
  {
  }

  /**
   * A turn: fragments without a boundary followed by a message with the
   * boundary flush exactly one user entry holding the buffered text and
   * every input fragment in order (if that is not empty), then one model
   * entry likewise, and leave both buffers empty.
   */
  lemma {:induction false} TurnFlushesOnce(acc: Accumulator, cs: seq<ServerContent>)
    requires |cs| >= 1 && cs[|cs| - 1].turnComplete
    requires forall i :: 0 <= i < |cs| - 1 ==> !cs[i].turnComplete
    ensures TranscriptRun(acc, cs)
         == Progress(Empty, Flush(Accumulator(acc.input + InputText(cs), acc.output + OutputText(cs))))
    decreases |cs|
  {
    var next := Accumulate(acc, cs[0]);
    if |cs| == 1 {
      assert cs[1..] == [];
      assert next == Accumulator(acc.input + InputText(cs), acc.output + OutputText(cs));
    } else {
      var rest := cs[1..];
      assert forall i :: 0 <= i < |rest| ==> rest[i] == cs[i + 1];
      assert TranscriptStep(acc, cs[0]) == Progress(next, []);
      var after := TranscriptRun(next, rest);
      assert TranscriptRun(acc, cs) == Progress(after.buffers, [] + after.emitted);
      TurnFlushesOnce(next, rest);
      AppendInOrder(acc.input, Fragment(cs[0].inputTranscription), InputText(rest));
      AppendInOrder(acc.output, Fragment(cs[0].outputTranscription), OutputText(rest));
    }
  }

  // ---------------------------------------------------------------------
  // Playback timeline, as values

  function Max(a: real, b: real): real {
    if a >= b then a else b
  }

  /** A chunk arriving at clock time `now` with the given playing time. */
  datatype Arrival = Arrival(now: real, duration: real)

  /** The start times of chunks scheduled one after another from `cursor`, with no interruption. */
  function Starts(cursor: real, arrivals: seq<Arrival>): (starts: seq<real>)
    ensures |starts| == |arrivals|
    decreases |arrivals|
  {
    if arrivals == [] then []
    else
      var start := Max(cursor, arrivals[0].now);
      [start] + Starts(start + arrivals[0].duration, arrivals[1..])
  }

  lemma {:induction false} StartsFrom(cursor: real, arrivals: seq<Arrival>)
    requires forall i :: 0 <= i < |arrivals| ==> arrivals[i].duration >= 0.0
    ensures forall i :: 0 <= i < |arrivals| ==> cursor <= Starts(cursor, arrivals)[i]
    decreases |arrivals|
  {
    if arrivals != [] {
      var start := Max(cursor, arrivals[0].now);
      StartsFrom(start + arrivals[0].duration, arrivals[1..]);
    }
  }

  /**
   * Gapless, non-overlapping playback: every chunk starts no earlier than
   * its arrival and than the cursor, and each chunk starts no earlier than
   * every earlier chunk ends.
   */
  lemma {:induction false} StartsDoNotOverlap(cursor: real, arrivals: seq<Arrival>)
    requires forall i :: 0 <= i < |arrivals| ==> arrivals[i].duration >= 0.0
    ensures var starts := Starts(cursor, arrivals);
            && (forall i :: 0 <= i < |arrivals| ==> starts[i] >= arrivals[i].now && starts[i] >= cursor)
            && (forall i, j :: 0 <= i < j < |arrivals| ==> starts[i] + arrivals[i].duration <= starts[j])
    decreases |arrivals|
  {
    if arrivals != [] {
      var start := Max(cursor, arrivals[0].now);
      var rest := arrivals[1..];
      var starts := Starts(cursor, arrivals);
      StartsDoNotOverlap(start + arrivals[0].duration, rest);
      StartsFrom(start + arrivals[0].duration, rest);
      assert forall i :: 1 <= i < |arrivals| ==> starts[i] == Starts(start + arrivals[0].duration, rest)[i - 1];
      StartsFrom(cursor, arrivals);
    }
  }

  // ---------------------------------------------------------------------
  // Decoding a received chunk

  const OutputSampleRate: real := 24000.0

  /**
   * The frames in the audio buffer made from base64 `data`, `None` where
   * the handler throws: not base64 (`atob`), an odd byte count
   * (`Int16Array`), or no frames at all (`createBuffer`).
   */
  function ChunkFrames(data: string): (frames: Option<nat>)
    ensures frames.Some? ==> frames.value > 0
  {
    match Base64.Decode(data)
    case None => None
    case Some(b) => if |b| % 2 == 1 || |b| / 2 == 0 then None else Some(|b| / 2)
  }

  // ---------------------------------------------------------------------
  // The browser objects the handlers touch

  /** A scheduled playback source: when it starts, how long it plays, and whether it was stopped. */
  class SourceNode {
    const startAt: real
    const duration: real
    var stopped: bool

    constructor (startAt: real, duration: real)
      ensures this.startAt == startAt && this.duration == duration && !stopped
    {
      this.startAt := startAt;
      this.duration := duration;
      stopped := false;
    }

    function End(): real {
      startAt + duration
    }

    method Stop()
      modifies this
      ensures stopped
    {
      stopped := true;
    }
  }

  /** An audio context or the live session: something `close()` releases. */
  class Closable {
    var closed: bool

    constructor ()
      ensures !closed
    {
      closed := false;
    }

    method Close()
      modifies this
      ensures closed
    {
      closed := true;
    }
  }

  const MicrophoneError := "Could not access microphone."
  const ConnectionError := "Connection error. Please try again."

  // ---------------------------------------------------------------------
  // The voice session component

  class VoiceBridge {
    const scenario: Scenario
    /** The language prop, read when a session starts. */
    var language: Language

    var isActive: bool
    var error: Option<string>
    var session: Closable?
    var inputContext: Closable?
    var outputContext: Closable?
    /** `nextStartTimeRef`: where the next chunk may start on the output clock. */
    var cursor: real
    /** `sourcesRef`: the sources scheduled and not yet ended or stopped. */
    var sources: set<SourceNode>
    /** `currentInRef` and `currentOutRef`. */
    var currentIn: string
    var currentOut: string

    /**
     * The timeline invariant: every scheduled source ends by the cursor, and
     * no two scheduled sources play at the same time.
     */
    ghost predicate Valid()
      reads this
    {
      && (forall s :: s in sources ==> s.End() <= cursor)
      && (forall a, b :: a in sources && b in sources && a != b ==> a.End() <= b.startAt || b.End() <= a.startAt)
    }

    function Buffers(): Accumulator
      reads this
    {
      Accumulator(currentIn, currentOut)
    }

    constructor (scenario: Scenario, language: Language)
      ensures Valid()
      ensures this.scenario == scenario && this.language == language
      ensures !isActive && error.None? && session == null && inputContext == null && outputContext == null
      ensures cursor == 0.0 && sources == {} && Buffers() == Empty
    {
      this.scenario := scenario;
      this.language := language;
      isActive := false;
      error := None;
      session, inputContext, outputContext := null, null, null;
      cursor := 0.0;
      sources := {};
      currentIn, currentOut := "", "";
    }

    /**
     * `startSession`: both audio contexts are created first; then the
     * microphone is requested and the session opened with the scenario's
     * system instruction. Either failure lands in the same handler, which
     * records the microphone message; the contexts just created stay open,
     * and those of an earlier start are replaced without being closed.
     */
    method StartSession(microphoneGranted: bool, connected: bool) returns (instruction: Option<string>)
      requires Valid()
      modifies this
      ensures Valid()
      ensures inputContext != null && fresh(inputContext) && !inputContext.closed
      ensures outputContext != null && fresh(outputContext) && !outputContext.closed
      ensures old(inputContext) != null ==> unchanged(old(inputContext))
      ensures old(outputContext) != null ==> unchanged(old(outputContext))
      ensures microphoneGranted ==> instruction == Some(Constants.SystemPrompt(scenario, language.Code()))
      ensures !microphoneGranted ==> instruction.None?
      ensures microphoneGranted && connected ==>
                session != null && fresh(session) && !session.closed && error == old(error)
      ensures !(microphoneGranted && connected) ==> session == old(session) && error == Some(MicrophoneError)
      ensures isActive == old(isActive) && cursor == old(cursor) && sources == old(sources)
      ensures Buffers() == old(Buffers()) && language == old(language)
    {
      inputContext := new Closable();
      outputContext := new Closable();
      if !microphoneGranted {
        error := Some(MicrophoneError);
        return None;
      }
      instruction := Some(Constants.SystemPrompt(scenario, language.Code()));
      if !connected {
        error := Some(MicrophoneError);
        return;
      }
      session := new Closable();
    }

    /**
     * A new language prop. No effect depends on it: an open session keeps
     * its instruction, and the next `startSession` uses the new language.
     */
    method SetLanguage(l: Language)
      modifies this`language
      ensures language == l
    {
      language := l;
    }

    /** The endpoint opened the channel. */
    method OnOpen()
      modifies this`isActive
      ensures isActive
    {
      isActive := true;
    }

    /** A transport error: the message is shown; nothing is released here. */
    method OnError()
      modifies this`error
      ensures error == Some(ConnectionError)
    {
      error := Some(ConnectionError);
    }

    /** The endpoint closed the channel. */
    method OnClose()
      modifies this`isActive
      ensures !isActive
    {
      isActive := false;
    }

    /**
     * `stopSession`: closes whichever of the session and the two contexts
     * exist and marks the component inactive. The cursor, the sources and
     * the buffers stay as they are. Calling it again closes nothing new.
     */
    method StopSession()
      modifies this`isActive, session, inputContext, outputContext
      ensures !isActive
      ensures session != null ==> session.closed
      ensures inputContext != null ==> inputContext.closed
      ensures outputContext != null ==> outputContext.closed
    {
      if session != null {
        session.Close();
      }
      if inputContext != null {
        inputContext.Close();
      }
      if outputContext != null {
        outputContext.Close();
      }
      isActive := false;
    }

    /**
     * The audio part of the handler: the cursor moves to `max(cursor, now)`
     * before the chunk is decoded; a chunk that decodes is started there,
     * added to the sources, and moves the cursor past its end. A chunk that
     * fails to decode throws (`ok` false) with the cursor already moved.
     */
    method ScheduleChunk(data: string, now: real) returns (ok: bool, node: SourceNode?)
      requires Valid()
      modifies this`cursor, this`sources
      ensures Valid()
      ensures ok <==> ChunkFrames(data).Some?
      ensures !ok ==> node == null && cursor == Max(old(cursor), now) && sources == old(sources)
      ensures ok ==>
        && node != null && fresh(node) && !node.stopped
        && node.startAt == Max(old(cursor), now)
        && node.duration == ChunkFrames(data).value as real / OutputSampleRate
        && cursor == node.End()
        && sources == old(sources) + {node}
      ensures ok ==> forall s :: s in old(sources) ==> s.End() <= node.startAt
    {
      cursor := Max(cursor, now);
      var bytes := GeminiService.DecodeBase64(data);
      if bytes.None? {
        return false, null;
      }
      assert |Base64.Decode(data).value| == bytes.value.Length;
      var buffer := GeminiService.DecodeAudioBuffer(bytes.value, 1);
      if buffer.Failure? {
        assert buffer.error == GeminiService.RangeError || buffer.error == GeminiService.NotSupportedError;
        return false, null;
      }
      var duration := buffer.value.Length1 as real / OutputSampleRate;
      node := new SourceNode(cursor, duration);
      cursor := cursor + duration;
      sources := sources + {node};
      ok := true;
    }

    /** The playback of `node` ended: exactly that source leaves the set. */
    method OnEnded(node: SourceNode)
      requires Valid()
      modifies this`sources
      ensures Valid()
      ensures sources == old(sources) - {node}
    {
      sources := sources - {node};
    }

    /** Each fragment is appended to its own buffer. */
    method AppendTranscripts(c: ServerContent)
      modifies this`currentIn, this`currentOut
      ensures Buffers() == Accumulate(old(Buffers()), c)
    {
      if c.inputTranscription.Some? {
        currentIn := currentIn + Fragment(c.inputTranscription);
      }
      if c.outputTranscription.Some? {
        currentOut := currentOut + Fragment(c.outputTranscription);
      }
    }

    /** The turn boundary: each non-empty buffer is sent as one entry and emptied. */
    method CompleteTurn() returns (emitted: seq<Entry>)
      modifies this`currentIn, this`currentOut
      ensures emitted == Flush(old(Buffers()))
      ensures Buffers() == Empty
    {
      emitted := [];
      if currentIn != "" {
        emitted := emitted + [Entry(User, currentIn)];
        currentIn := "";
      }
      if currentOut != "" {
        emitted := emitted + [Entry(Ai, currentOut)];
        currentOut := "";
      }
    }

    /** Barge-in: every scheduled source is stopped, the set emptied and the cursor reset to 0. */
    method Interrupt()
      requires Valid()
      modifies this`sources, this`cursor, sources
      ensures Valid()
      ensures forall s :: s in old(sources) ==> s.stopped
      ensures sources == {} && cursor == 0.0
    {
      var remaining := sources;
      while remaining != {}
        invariant sources == old(sources) && cursor == old(cursor)
        invariant remaining <= sources
        invariant forall s :: s in sources - remaining ==> s.stopped
        decreases remaining
      {
        var s :| s in remaining;
        s.Stop();
        remaining := remaining - {s};
      }
      sources := {};
      cursor := 0.0;
    }

    /**
     * The message handler: audio, then transcripts, then the turn boundary,
     * then interruption. It throws before any effect when a model turn has
     * no parts, and after moving the cursor when the audio does not decode.
     */
    method OnMessage(m: LiveServerMessage, now: real) returns (outcome: Outcome, emitted: seq<Entry>)
      requires Valid()
      modifies this`cursor, this`sources, this`currentIn, this`currentOut, sources
      ensures Valid()
      ensures AudioData(m).Failure? ==> outcome == Threw && emitted == [] && unchanged(this)
      ensures AudioData(m).Success? ==>
        var data := AudioData(m).value;
        var hasAudio := data.Some? && data.value != "" && old(outputContext) != null;
        var c := ContentOf(m);
        var step := TranscriptStep(old(Buffers()), c);
        && (outcome == Threw <==> hasAudio && ChunkFrames(data.value).None?)
        && (outcome == Threw ==>
              emitted == [] && Buffers() == old(Buffers()) && sources == old(sources)
              && cursor == Max(old(cursor), now))
        && (outcome == Completed ==>
              && emitted == step.emitted && Buffers() == step.buffers
              && (c.interrupted ==> sources == {} && cursor == 0.0
                                    && (forall s :: s in old(sources) ==> s.stopped)
                                    && (hasAudio ==>
                                          exists node: SourceNode :: fresh(node) && node !in old(sources) && node.stopped
                                            && node.startAt == Max(old(cursor), now)
                                            && node.duration == ChunkFrames(data.value).value as real / OutputSampleRate))
              && (!c.interrupted ==> cursor >= old(cursor))
              && (!c.interrupted && !hasAudio ==> sources == old(sources) && cursor == old(cursor))
              && (!c.interrupted && hasAudio ==>
                    exists node: SourceNode :: fresh(node) && node !in old(sources) && sources == old(sources) + {node}
                      && !node.stopped
                      && node.startAt == Max(old(cursor), now)
                      && node.duration == ChunkFrames(data.value).value as real / OutputSampleRate
                      && cursor == node.End()))
      ensures outcome == Threw || !ContentOf(m).interrupted ==>
                forall s :: s in old(sources) ==> s.stopped == old(s.stopped)
    {
      var audio := AudioData(m);
      if audio.Failure? {
        return Threw, [];
      }
      var c := ContentOf(m);
      var data := audio.value;
      var node: SourceNode? := null;
      if data.Some? && data.value != "" && outputContext != null {
        var ok;
        ok, node := ScheduleChunk(data.value, now);
        if !ok {
          return Threw, [];
        }
      }
      AppendTranscripts(c);
      emitted := [];
      if c.turnComplete {
        emitted := CompleteTurn();
      }
      if c.interrupted {
        // The chunk scheduled above is already in the set, so it is stopped too.
        Interrupt();
      }
      outcome := Completed;
    }
  }

  // ---------------------------------------------------------------------
  // Capturing microphone samples

  /** Truncation toward zero, as ToInt16 does before wrapping. */
  function Truncate(x: real): int {
    if x >= 0.0 then x.Floor else -((-x).Floor)
  }

  /** The value an Int16Array stores for a number: truncated, then wrapped modulo 2^16. */
  function ToInt16(x: real): (v: int)
    ensures -32768 <= v < 32768
    ensures (v - Truncate(x)) % 65536 == 0
  {
    var m := Truncate(x) % 65536;
    if m >= 32768 then m - 65536 else m
  }

  /** What each sample becomes in the Int16Array: the sample times 32768, through ToInt16. */
  function StoredSamples(input: seq<real>): (samples: seq<int>)
    ensures |samples| == |input|
    ensures forall i :: 0 <= i < |input| ==> samples[i] == ToInt16(input[i] * 32768.0)
    ensures forall i :: 0 <= i < |samples| ==> -32768 <= samples[i] < 32768
  {
    seq(|input|, i requires 0 <= i < |input| => ToInt16(input[i] * 32768.0))
  }

  /** The loop that fills the Int16Array from the float samples. */
  method ConvertSamples(input: seq<real>) returns (int16: array<int>)
    ensures fresh(int16)
    ensures int16[..] == StoredSamples(input)
  {
    int16 := new int[|input|];
    for i := 0 to |input|
      invariant forall k :: 0 <= k < i ==> int16[k] == ToInt16(input[k] * 32768.0)
    {
      int16[i] := ToInt16(input[i] * 32768.0);
    }
  }

  /**
   * The `onaudioprocess` callback: the Int16Array's little-endian buffer is
   * sent base64-encoded. The payload decodes back to exactly the stored
   * 16-bit samples.
   */
  method EncodeCapture(input: seq<real>) returns (payload: string)
    ensures payload == Base64.Encode(GeminiService.PcmBytes(StoredSamples(input)))
    ensures match Base64.Decode(payload)
            case Some(b) => GeminiService.Int16View(b) == Some(StoredSamples(input))
            case None => false
  {
    var int16 := ConvertSamples(input);
    var samples := int16[..];
    var pcm := GeminiService.PcmBytes(samples);
    var buffer := new byte[|pcm|](i requires 0 <= i < |pcm| => pcm[i]);
    assert buffer[..] == pcm;
    payload := GeminiService.EncodeUint8Array(buffer);
    GeminiService.Int16ViewOfPcmBytes(samples);
  }

  /** A full-scale positive sample is stored as the most negative value: 1.0 becomes -32768. */
  lemma FullScaleSampleWraps()
    ensures ToInt16(1.0 * 32768.0) == -32768
    ensures ToInt16(0.99 * 32768.0) > 0
  {
    assert Truncate(32768.0) == 32768;
  }

  /** Clamping to the 16-bit range after truncation, as the capture is meant to convert. */
  function ClampedSample(x: real): (v: int)
    ensures -32768 <= v <= 32767
    ensures -32768 <= Truncate(x) <= 32767 ==> v == Truncate(x)
    ensures Truncate(x) > 32767 ==> v == 32767
    ensures Truncate(x) < -32768 ==> v == -32768
  {
    var t := Truncate(x);
    if t > 32767 then 32767 else if t < -32768 then -32768 else t
  }

  lemma TruncateMonotone(x: real, y: real)
    requires x <= y
    ensures Truncate(x) <= Truncate(y)
  {
    if x >= 0.0 {
    } else if y >= 0.0 {
      assert Truncate(x) <= 0;
    } else {
      assert (-y).Floor <= (-x).Floor;
    }
  }

  /**
   * The clamped conversion keeps order and sign, and on every sample in
   * [-1, 1) agrees with what the Int16Array stores.
   */
  lemma ClampedSampleProperties(x: real, y: real)
    ensures x <= y ==> ClampedSample(x * 32768.0) <= ClampedSample(y * 32768.0)
    ensures x >= 0.0 ==> ClampedSample(x * 32768.0) >= 0
    ensures x <= 0.0 ==> ClampedSample(x * 32768.0) <= 0
    ensures -1.0 <= x < 1.0 ==> ClampedSample(x * 32768.0) == ToInt16(x * 32768.0)
  {
    if x <= y {
      TruncateMonotone(x * 32768.0, y * 32768.0);
    }
    if -1.0 <= x < 1.0 {
      TruncateMonotone(-32768.0, x * 32768.0);
      assert Truncate(-32768.0) == -32768;
      if x >= 0.0 {
        assert (x * 32768.0).Floor <= 32767;
      }
    }
  }
}
