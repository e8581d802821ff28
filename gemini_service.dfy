/**
 * The helpers around the generative-AI client: the text of the evaluation
 * request, the fallback results that stand in for a missing or malformed
 * evaluation, the byte/binary-string loops around base64, and the 16-bit PCM
 * de-interleaving that turns a received chunk into per-channel samples.
 */
module GeminiService {
  import opened Types
  import Base64
  import Arith

  // ---------------------------------------------------------------------
  // Transcript text

  /** One transcript entry as it appears in the evaluation request: `sender: text`. */
  function Line(e: Entry): string {
    e.sender.Name() + ": " + e.text
  }

  function Lines(t: seq<Entry>): (ls: seq<string>)
    ensures |ls| == |t|
    ensures forall i :: 0 <= i < |t| ==> ls[i] == Line(t[i])
  {
    seq(|t|, i requires 0 <= i < |t| => Line(t[i]))
  }

  /** `Array.prototype.join`: the parts with `sep` between neighbours, "" for no parts. */
  function Join(parts: seq<string>, sep: string): (s: string)
    ensures parts == [] ==> s == ""
    ensures parts != [] ==> |parts[0]| <= |s| && s[..|parts[0]|] == parts[0]
    ensures parts != [] ==> |parts[|parts| - 1]| <= |s| && s[|s| - |parts[|parts| - 1]|..] == parts[|parts| - 1]
    decreases |parts|
  {
    if |parts| == 0 then ""
    else if |parts| == 1 then parts[0]
    else parts[0] + sep + Join(parts[1..], sep)
  }

  /** The transcript as the evaluation request carries it, one `sender: text` line per entry. */
  function FormatTranscript(t: seq<Entry>): (s: string)
    ensures t == [] ==> s == ""
    ensures |t| == 1 ==> s == t[0].sender.Name() + ": " + t[0].text
  {
    Join(Lines(t), "\n")
  }

  /** Cuts `s` at every `sep`; there is always at least one part. */
  function Split(s: string, sep: char): (parts: seq<string>)
    ensures |parts| >= 1
  {
    if s == [] then [""]
    else
      var rest := Split(s[1..], sep);
      if s[0] == sep then [""] + rest
      else [[s[0]] + rest[0]] + rest[1..]
  }

  /** Reads a `user: ` or `ai: ` line back into an entry. */
  function ParseLine(line: string): Option<Entry> {
    if |line| >= 6 && line[..6] == "user: " then Some(Entry(User, line[6..]))
    else if |line| >= 4 && line[..4] == "ai: " then Some(Entry(Ai, line[4..]))
    else None
  }

  function ParseLines(ls: seq<string>): Option<seq<Entry>> {
    if ls == [] then Some([])
    else match (ParseLine(ls[0]), ParseLines(ls[1..]))
      case (Some(e), Some(es)) => Some([e] + es)
      case _ => None
  }

  /** The reading of a request transcript back into entries. */
  function ParseTranscript(s: string): Option<seq<Entry>> {
    ParseLines(Split(s, '\n'))
  }

  lemma {:induction false} SplitWithoutSeparator(a: string, sep: char)
    requires sep !in a
    ensures Split(a, sep) == [a]
  {
    if a != [] {
      SplitWithoutSeparator(a[1..], sep);
      assert a == [a[0]] + a[1..];
    }
  }

  lemma {:induction false} SplitAtFirstSeparator(a: string, sep: char, b: string)
    requires sep !in a
    ensures Split(a + [sep] + b, sep) == [a] + Split(b, sep)
  {
    if a == [] {
      assert a + [sep] + b == [sep] + b;
      assert ([sep] + b)[1..] == b;
    } else {
      var s := a + [sep] + b;
      assert s[0] == a[0];
      assert s[1..] == a[1..] + [sep] + b;
      SplitAtFirstSeparator(a[1..], sep, b);
      assert [a[0]] + a[1..] == a;
    }
  }

  /** Splitting at the separator undoes joining with it when no part contains it. */
  lemma {:induction false} SplitJoin(parts: seq<string>, sep: char)
    requires |parts| >= 1
    requires forall i :: 0 <= i < |parts| ==> sep !in parts[i]
    ensures Split(Join(parts, [sep]), sep) == parts
  {
    if |parts| == 1 {
      SplitWithoutSeparator(parts[0], sep);
    } else {
      SplitJoin(parts[1..], sep);
      SplitAtFirstSeparator(parts[0], sep, Join(parts[1..], [sep]));
      assert parts == [parts[0]] + parts[1..];
    }
  }

  lemma ParseLineOfLine(e: Entry)
    ensures ParseLine(Line(e)) == Some(e)
  {
    var l := Line(e);
    if e.sender == User {
      assert l[..6] == "user: " && l[6..] == e.text;
    } else {
      assert l[0] == 'a' && l[..4] == "ai: " && l[4..] == e.text;
    }
  }

  lemma {:induction false} ParseLinesOfLines(t: seq<Entry>)
    ensures ParseLines(Lines(t)) == Some(t)
  {
    if t != [] {
      ParseLineOfLine(t[0]);
      assert Lines(t)[1..] == Lines(t[1..]);
      ParseLinesOfLines(t[1..]);
      assert t == [t[0]] + t[1..];
    }
  }

  /**
   * The request transcript keeps every entry, in order: when no entry text
   * holds a line break, the lines read back as the original entries.
   */
  lemma FormatTranscriptReadsBack(t: seq<Entry>)
    requires |t| >= 1
    requires forall i :: 0 <= i < |t| ==> '\n' !in t[i].text
    ensures ParseTranscript(FormatTranscript(t)) == Some(t)
  {
    var ls := Lines(t);
    forall i | 0 <= i < |ls| ensures '\n' !in ls[i] {
      assert ls[i] == t[i].sender.Name() + ": " + t[i].text;
    }
    SplitJoin(ls, '\n');
    assert Split(FormatTranscript(t), '\n') == ls;
    ParseLinesOfLines(t);
  }

  // ---------------------------------------------------------------------
  // Evaluation request and its fallback

  const RequestHead := "\n    Evaluate the following restaurant staff training session. \n    Scenario: "
  const RequestTranscriptHead := "\n    Transcript:\n    "
  const RequestTail := "\n\n    Rate the staff member (user) on a scale of 0-100 for each category.\n    Provide constructive feedback.\n  "

  /**
   * `prompt` is laid out as `head`, the title, " - ", the description,
   * `transcriptHead`, the transcript text and `tail`: each of the three
   * variable fields sits verbatim at its offset.
   */
  predicate RequestLayout(prompt: string, head: string, title: string, description: string,
                          transcriptHead: string, body: string, tail: string)
  {
    var d := |head| + |title| + 3;
    var k := d + |description| + |transcriptHead|;
    && |prompt| == k + |body| + |tail|
    && prompt[|head|..|head| + |title|] == title
    && prompt[d..d + |description|] == description
    && prompt[k..k + |body|] == body
  }

  /** The request template over its fixed texts. */
  function RequestWith(head: string, title: string, description: string, transcriptHead: string,
                       body: string, tail: string): (prompt: string)
    ensures RequestLayout(prompt, head, title, description, transcriptHead, body, tail)
  {
    var front := head + title + " - " + description + transcriptHead;
    assert front[|head|..|head| + |title|] == title;
    assert front[|head| + |title| + 3..|head| + |title| + 3 + |description|] == description;
    assert (front + body + tail)[..|front|] == front;
    front + body + tail
  }

  /** The text of the evaluation request: title, description and the formatted transcript. */
  function EvaluationRequest(scenario: Scenario, transcript: seq<Entry>): (prompt: string)
    ensures RequestLayout(prompt, RequestHead, scenario.title, scenario.description, RequestTranscriptHead,
                          FormatTranscript(transcript), RequestTail)
  {
    RequestWith(RequestHead, scenario.title, scenario.description, RequestTranscriptHead,
                FormatTranscript(transcript), RequestTail)
  }

  const NoTextFeedback := "Error: No response text received from AI. Please try again."
  const InvalidJsonFeedback := "Error: Invalid JSON response from AI."

  /** The placeholder result: every score 0, with the given feedback. */
  function ZeroResult(feedback: string): (r: Evaluation)
    ensures r.feedback == feedback
    ensures r.politeness == r.clarity == r.speed == r.empathy == r.problemSolving == r.overallScore == 0
  {
    Evaluation(0, 0, 0, 0, 0, feedback, 0)
  }

  /** The response text counts as missing when absent, empty, or the literal "undefined". */
  predicate IsMissingText(text: Option<string>) {
    text.None? || text.value == "" || text.value == "undefined"
  }

  /**
   * The result `evaluateSession` returns for the response text `text`;
   * `parse` stands for `JSON.parse`, `None` being the case where it throws.
   */
  function EvaluateResponse(text: Option<string>, parse: string -> Option<Evaluation>): (r: Evaluation)
    ensures IsMissingText(text) ==> r == ZeroResult(NoTextFeedback)
    ensures !IsMissingText(text) && parse(text.value).None? ==> r == ZeroResult(InvalidJsonFeedback)
    ensures !IsMissingText(text) && parse(text.value).Some? ==> r == parse(text.value).value
  {
    if IsMissingText(text) then ZeroResult(NoTextFeedback)
    else match parse(text.value)
      case None => ZeroResult(InvalidJsonFeedback)
      case Some(e) => e
  }

  /**
   * A placeholder never looks like a parsed answer with other feedback: a
   * result whose feedback is neither placeholder text came from the parser.
   */
  lemma EvaluateResponseSource(text: Option<string>, parse: string -> Option<Evaluation>)
    ensures var r := EvaluateResponse(text, parse);
            r.feedback != NoTextFeedback && r.feedback != InvalidJsonFeedback
            ==> !IsMissingText(text) && parse(text.value) == Some(r)
  {
  }

  // ---------------------------------------------------------------------
  // Bytes and binary strings

  /**
   * `decodeBase64`: `atob`, then a loop that stores each character code in a
   * new Uint8Array (the store keeps the code modulo 256). `None` is the
   * exception `atob` throws for text that is not base64.
   */
  method DecodeBase64(base64: string) returns (r: Option<array<byte>>)
    ensures r.None? <==> Base64.Decode(base64).None?
    ensures r.Some? ==> fresh(r.value) && r.value[..] == Base64.Decode(base64).value
  {
    var atob := Base64.Atob(base64);
    if atob.None? {
      return None;
    }
    var binaryString := atob.value;
    var len := |binaryString|;
    var bytes := new byte[len];
    for i := 0 to len
      invariant forall k :: 0 <= k < i ==> bytes[k] as int == binaryString[k] as int % 256
    {
      bytes[i] := (binaryString[i] as int % 256) as byte;
    }
    var decoded := Base64.Decode(base64).value;
    assert binaryString == Base64.BinaryString(decoded);
    assert forall k :: 0 <= k < len ==> bytes[k] == decoded[k];
    assert bytes[..] == decoded;
    return Some(bytes);
  }

  /** The binary string built by the loop of `encodeUint8Array`: character `i` has code `bytes[i]`. */
  method BinaryOfBytes(bytes: array<byte>) returns (binary: string)
    ensures |binary| == bytes.Length
    ensures forall i :: 0 <= i < bytes.Length ==> binary[i] as int == bytes[i] as int
  {
    binary := "";
    var len := bytes.Length;
    for i := 0 to len
      invariant |binary| == i
      invariant forall k :: 0 <= k < i ==> binary[k] as int == bytes[k] as int
    {
      binary := binary + [bytes[i] as char];
    }
  }

  /** `encodeUint8Array`: the binary string of the bytes, through `btoa`, which cannot fail on it. */
  method EncodeUint8Array(bytes: array<byte>) returns (encoded: string)
    ensures encoded == Base64.Encode(bytes[..])
    ensures Base64.Decode(encoded) == Some(bytes[..])
  {
    var binary := BinaryOfBytes(bytes);
    assert Base64.IsBinary(binary);
    assert Base64.BinaryBytes(binary) == bytes[..];
    encoded := Base64.Btoa(binary).value;
    Base64.DecodeEncode(bytes[..]);
  }

  // ---------------------------------------------------------------------
  // 16-bit PCM

  /** The signed 16-bit value of a little-endian byte pair. */
  function Int16Of(lo: byte, hi: byte): (v: int)
    ensures -32768 <= v < 32768
    ensures v % 65536 == (lo as int + 256 * hi as int)
  {
    var u := lo as int + 256 * hi as int;
    if u >= 32768 then u - 65536 else u
  }

  /**
   * `new Int16Array(buffer)` on a little-endian platform: pairs of bytes
   * read as signed samples; `None` is the RangeError for an odd byte count.
   */
  function Int16View(bytes: seq<byte>): (r: Option<seq<int>>)
    ensures r.None? <==> |bytes| % 2 == 1
    ensures r.Some? ==> |r.value| == |bytes| / 2
    ensures r.Some? ==> forall i :: 0 <= i < |r.value| ==> r.value[i] == Int16Of(bytes[2 * i], bytes[2 * i + 1])
  {
    if |bytes| % 2 == 1 then None
    else Some(seq(|bytes| / 2, i requires 0 <= i < |bytes| / 2 => Int16Of(bytes[2 * i], bytes[2 * i + 1])))
  }

  /** The two little-endian bytes of a 16-bit sample, as an Int16Array's buffer holds them. */
  function BytesOfInt16(v: int): (b: seq<byte>)
    requires -32768 <= v < 32768
    ensures |b| == 2 && Int16Of(b[0], b[1]) == v
  {
    var u := if v < 0 then v + 65536 else v;
    [(u % 256) as byte, (u / 256) as byte]
  }

  /** The buffer of an Int16Array holding `samples`: byte `j` is byte `j % 2` of sample `j / 2`. */
  function PcmBytes(samples: seq<int>): (b: seq<byte>)
    requires forall i :: 0 <= i < |samples| ==> -32768 <= samples[i] < 32768
    ensures |b| == 2 * |samples|
  {
    seq(2 * |samples|, j requires 0 <= j < 2 * |samples| => BytesOfInt16(samples[j / 2])[j % 2])
  }

  /** Viewing the buffer of an Int16Array as an Int16Array again gives the same samples. */
  lemma Int16ViewOfPcmBytes(samples: seq<int>)
    requires forall i :: 0 <= i < |samples| ==> -32768 <= samples[i] < 32768
    ensures Int16View(PcmBytes(samples)) == Some(samples)
  {
    var b := PcmBytes(samples);
    forall i | 0 <= i < |samples| ensures Int16Of(b[2 * i], b[2 * i + 1]) == samples[i] {
      assert (2 * i) / 2 == i && (2 * i) % 2 == 0;
      assert (2 * i + 1) / 2 == i && (2 * i + 1) % 2 == 1;
      var pair := BytesOfInt16(samples[i]);
      assert b[2 * i] == pair[0] && b[2 * i + 1] == pair[1];
    }
    assert |b| % 2 == 0 && |b| / 2 == |samples|;
    var v := Int16View(b).value;
    assert forall i :: 0 <= i < |samples| ==> v[i] == samples[i];
    assert v == samples;
  }

  datatype DecodeError = RangeError | NotSupportedError

  /** The interleaved position of frame `i` of `channel`, and that it lies inside the samples. */
  lemma InterleavedIndexInBounds(i: nat, channel: nat, numChannels: nat, samples: nat)
    requires channel < numChannels
    requires i < samples / numChannels
    ensures i * numChannels + channel < samples
  {
    var frames := samples / numChannels;
    assert (i + 1) * numChannels <= frames * numChannels by {
      assert i + 1 <= frames;
      Arith.MultiplyMonotone(i + 1, frames, numChannels);
    }
    assert frames * numChannels <= samples;
  }

  /** Frame `i` of `channel` in interleaved samples. */
  function SampleAt(samples: seq<int>, numChannels: nat, channel: nat, i: nat): int
    requires channel < numChannels && i < |samples| / numChannels
  {
    InterleavedIndexInBounds(i, channel, numChannels, |samples|);
    samples[i * numChannels + channel]
  }

  /** With one channel, frame `i` is sample `i`. */
  lemma MonoSamples(samples: seq<int>)
    ensures |samples| / 1 == |samples|
    ensures forall i :: 0 <= i < |samples| ==> SampleAt(samples, 1, 0, i) == samples[i]
  {
    forall i | 0 <= i < |samples| ensures SampleAt(samples, 1, 0, i) == samples[i] {
      assert i * 1 + 0 == i;
    }
  }

  /** The inner loop: one channel filled from its interleaved positions, the other channels untouched. */
  method FillChannel(buffer: array2<int>, samples: seq<int>, numChannels: nat, channel: nat)
    requires channel < numChannels == buffer.Length0
    requires buffer.Length1 == |samples| / numChannels
    modifies buffer
    ensures forall k :: 0 <= k < buffer.Length1 ==> buffer[channel, k] == SampleAt(samples, numChannels, channel, k)
    ensures forall c, k :: 0 <= c < buffer.Length0 && c != channel && 0 <= k < buffer.Length1 ==>
              buffer[c, k] == old(buffer[c, k])
  {
    for i := 0 to buffer.Length1
      invariant forall k :: 0 <= k < i ==> buffer[channel, k] == SampleAt(samples, numChannels, channel, k)
      invariant forall c, k :: 0 <= c < buffer.Length0 && c != channel && 0 <= k < buffer.Length1 ==>
                  buffer[c, k] == old(buffer[c, k])
    {
      buffer[channel, i] := SampleAt(samples, numChannels, channel, i);
    }
  }

  /**
   * `decodeAudioBuffer`: the samples of `data`, de-interleaved into
   * `numChannels` channels of `samples / numChannels` frames each. Channel
   * `c`, frame `i` holds interleaved sample `i * numChannels + c` (the source
   * stores it divided by 32768; here the 16-bit value itself is kept). The
   * audio buffer cannot be created with no frames.
   */
  method DecodeAudioBuffer(data: array<byte>, numChannels: nat) returns (r: Result<array2<int>, DecodeError>)
    requires 1 <= numChannels <= 32
    ensures r == Failure(RangeError) <==> data.Length % 2 == 1
    ensures r == Failure(NotSupportedError) <==> data.Length % 2 == 0 && data.Length / 2 / numChannels == 0
    ensures r.Success? ==>
      var samples := Int16View(data[..]).value;
      var out := r.value;
      && fresh(out)
      && out.Length0 == numChannels
      && out.Length1 == |samples| / numChannels
      && (forall c, i :: 0 <= c < numChannels && 0 <= i < out.Length1 ==> out[c, i] == SampleAt(samples, numChannels, c, i))
      && (numChannels == 1 ==> out.Length1 == |samples| && forall i :: 0 <= i < |samples| ==> out[0, i] == samples[i])
  {
    var view := Int16View(data[..]);
    if view.None? {
      return Failure(RangeError);
    }
    var dataInt16 := view.value;
    var frameCount := |dataInt16| / numChannels;
    if frameCount == 0 {
      return Failure(NotSupportedError);
    }
    var buffer := new int[numChannels, frameCount];
    for channel := 0 to numChannels
      invariant forall c, k :: 0 <= c < channel && 0 <= k < frameCount ==> buffer[c, k] == SampleAt(dataInt16, numChannels, c, k)
    {
      FillChannel(buffer, dataInt16, numChannels, channel);
    }
    MonoSamples(dataInt16);
    return Success(buffer);
  }
}
