/**
 * The voice agent of modules/gemini_agent_multimodal.py: command decoding
 * with its history, and the recording flag state machine. The PyAudio stream
 * is a handle that the caller says was or was not opened; chunk reads are
 * inputs; `json.loads` and `eval` are parameters as in the text agent.
 */
module GeminiAudio {
  import opened Wrappers
  import opened Text
  import opened Json
  import opened GraphCommand

  /** A recognised voice command (`_parse_response`); no description is kept here. */
  datatype AudioCommand =
    | AddGraph(name: JsonValue, equationStr: JsonValue, hue: real)
    | DeleteGraph(mode: JsonValue)
    | ToggleGraph(index: real)

  function Action(data: map<string, JsonValue>): JsonValue {
    Get(data, "action", JString("unknown"))
  }

  /**
   * `_parse_response` without its history side effect. None covers a decode
   * failure, a decoded value that is not an object, an unknown action, a
   * lambda string that does not evaluate, and an index that cannot be
   * decremented (every exception is caught and turned into None).
   */
  function DecodeCommand(response: string, decode: string -> Option<JsonValue>,
                         evalOk: JsonValue -> bool, historyLength: nat): (r: Option<AudioCommand>)
    ensures r.Some? ==> decode(ExtractJsonText(response)).Some? && decode(ExtractJsonText(response)).value.JObject?
    ensures r.Some? && r.value.AddGraph? ==> 0.0 <= r.value.hue < 1.0
  {
    match decode(ExtractJsonText(response))
    case Some(JObject(data)) =>
      var action := Action(data);
      if action == JString("add_graph") then
        if evalOk(Get(data, "lambda_str", JString(DefaultLambda))) then
          Some(AddGraph(Get(data, "name", JString(DefaultName)), Get(data, "equation_str", JString(DefaultEquation)),
                        Hue(historyLength)))
        else None
      else if action == JString("delete_graph") then
        Some(DeleteGraph(Get(data, "mode", JString("last"))))
      else if action == JString("toggle_graph") then
        match MinusOne(Get(data, "index", JNumber(1.0)))
        case Some(k) => Some(ToggleGraph(k))
        case None => None
      else None
    case _ => None
  }

  /** Which decoded objects are accepted, and that the command's kind is the decoded action. */
  lemma CommandAccepted(response: string, decode: string -> Option<JsonValue>, evalOk: JsonValue -> bool, n: nat)
    ensures var r := DecodeCommand(response, decode, evalOk, n);
            var d := decode(ExtractJsonText(response));
            r.Some? <==>
              d.Some? && d.value.JObject? &&
              ((Action(d.value.fields) == JString("add_graph") && evalOk(Get(d.value.fields, "lambda_str", JString(DefaultLambda)))) ||
               Action(d.value.fields) == JString("delete_graph") ||
               (Action(d.value.fields) == JString("toggle_graph") && MinusOne(Get(d.value.fields, "index", JNumber(1.0))).Some?))
    ensures var r := DecodeCommand(response, decode, evalOk, n);
            var d := decode(ExtractJsonText(response));
            r.Some? ==>
              (r.value.AddGraph? <==> Action(d.value.fields) == JString("add_graph")) &&
              (r.value.DeleteGraph? <==> Action(d.value.fields) == JString("delete_graph")) &&
              (r.value.ToggleGraph? <==> Action(d.value.fields) == JString("toggle_graph"))
  {
    ActionNamesDistinct();
    match decode(ExtractJsonText(response))
    case Some(JObject(data)) =>
      var action := Action(data);
      if action == JString("add_graph") {
      } else if action == JString("delete_graph") {
      } else if action == JString("toggle_graph") {
      }
    case _ =>
  }

  /** Each field an `add_graph` object lacks gets its default: '새 그래프' for the name, 'f(x)' for the equation. */
  lemma AddGraphDefaults(response: string, decode: string -> Option<JsonValue>,
                         evalOk: JsonValue -> bool, n: nat, data: map<string, JsonValue>)
    requires decode(ExtractJsonText(response)) == Some(JObject(data))
    requires Action(data) == JString("add_graph")
    requires evalOk(Get(data, "lambda_str", JString("lambda x: x")))
    ensures DecodeCommand(response, decode, evalOk, n).Some?
    ensures var c := DecodeCommand(response, decode, evalOk, n).value;
            c.AddGraph? && c.hue == Hue(n) &&
            ("name" !in data ==> c.name == JString("새 그래프")) && ("name" in data ==> c.name == data["name"]) &&
            ("equation_str" !in data ==> c.equationStr == JString("f(x)")) &&
            ("equation_str" in data ==> c.equationStr == data["equation_str"])
  {
  }

  /** `delete_graph` without a mode deletes the last graph. */
  lemma DeleteDefaultsToLast(response: string, decode: string -> Option<JsonValue>,
                             evalOk: JsonValue -> bool, n: nat, data: map<string, JsonValue>)
    requires decode(ExtractJsonText(response)) == Some(JObject(data))
    requires Action(data) == JString("delete_graph") && "mode" !in data
    ensures DecodeCommand(response, decode, evalOk, n) == Some(DeleteGraph(JString("last")))
  {
  }

  /** A 1-based `toggle_graph` index becomes 0-based; without an index the first graph (0) is meant. */
  lemma ToggleIndexShift(response: string, decode: string -> Option<JsonValue>,
                         evalOk: JsonValue -> bool, n: nat, data: map<string, JsonValue>)
    requires decode(ExtractJsonText(response)) == Some(JObject(data))
    requires Action(data) == JString("toggle_graph")
    ensures "index" !in data ==> DecodeCommand(response, decode, evalOk, n) == Some(ToggleGraph(0.0))
    ensures "index" in data && data["index"].JNumber? ==>
              DecodeCommand(response, decode, evalOk, n) == Some(ToggleGraph(data["index"].n - 1.0))
  {
    assert Action(data) != JString("add_graph") && Action(data) != JString("delete_graph");
    var r := DecodeCommand(response, decode, evalOk, n);
    match MinusOne(Get(data, "index", JNumber(1.0)))
    case Some(k) => assert r == Some(ToggleGraph(k));
    case None =>
  }

  /** An opaque handle for an open PyAudio input stream. */
  type StreamHandle = nat

  /** Raw 16-bit PCM bytes read from the stream. */
  type Chunk = seq<bv8>

  /** `b''.join(chunks)`. */
  function Concat(chunks: seq<Chunk>): (r: seq<bv8>)
    ensures chunks == [] ==> r == []
  {
    if chunks == [] then [] else chunks[0] + Concat(chunks[1..])
  }

  /** Concatenation keeps every byte: its length is the sum of the chunk lengths. */
  function TotalLength(chunks: seq<Chunk>): nat {
    if chunks == [] then 0 else |chunks[0]| + TotalLength(chunks[1..])
  }

  lemma {:induction false} ConcatLength(chunks: seq<Chunk>)
    ensures |Concat(chunks)| == TotalLength(chunks)
  {
    if chunks != [] {
      ConcatLength(chunks[1..]);
    }
  }

  /** Appending one chunk appends its bytes to the recording. */
  lemma {:induction false} ConcatAppend(chunks: seq<Chunk>, c: Chunk)
    ensures Concat(chunks + [c]) == Concat(chunks) + c
  {
    if chunks == [] {
      assert [] + [c] == [c];
    } else {
      assert (chunks + [c])[1..] == chunks[1..] + [c];
      ConcatAppend(chunks[1..], c);
    }
  }

  class GeminiAudioAgent {
    /** Whether PyAudio is available (`self.pyaudio` is not None). */
    const audioAvailable: bool
    var equationHistory: seq<AudioCommand>
    var isRecording: bool
    var stream: Option<StreamHandle>
    var frames: seq<Chunk>

    /** A stream is open exactly while recording. */
    ghost predicate Valid()
      reads this
    {
      isRecording <==> stream.Some?
    }

    constructor (audioAvailable: bool)
      ensures Valid()
      ensures this.audioAvailable == audioAvailable
      ensures equationHistory == [] && !isRecording && stream == None && frames == []
    {
      this.audioAvailable := audioAvailable;
      equationHistory := [];
      isRecording := false;
      stream := None;
      frames := [];
    }

    /** `_parse_response`: exactly an `add_graph` command is appended to the history. */
    method ParseResponse(response: string, decode: string -> Option<JsonValue>, evalOk: JsonValue -> bool)
      returns (r: Option<AudioCommand>)
      modifies this`equationHistory
      ensures r == DecodeCommand(response, decode, evalOk, |old(equationHistory)|)
      ensures r.Some? && r.value.AddGraph? ==> equationHistory == old(equationHistory) + [r.value]
      ensures !(r.Some? && r.value.AddGraph?) ==> equationHistory == old(equationHistory)
    {
      r := DecodeCommand(response, decode, evalOk, |equationHistory|);
      if r.Some? && r.value.AddGraph? {
        equationHistory := equationHistory + [r.value];
      }
    }

    /**
     * `start_recording`: `handle` is the stream `pyaudio.open` returned, None
     * when it raised. Refused without PyAudio or while a stream is open.
     */
    method StartRecording(handle: Option<StreamHandle>) returns (ok: bool)
      requires Valid()
      modifies this`isRecording, this`stream, this`frames
      ensures Valid()
      ensures ok <==> audioAvailable && old(stream).None? && handle.Some?
      ensures ok ==> isRecording && stream == handle && frames == []
      ensures !ok ==> isRecording == old(isRecording) && stream == old(stream) && frames == old(frames)
    {
      if !audioAvailable || stream.Some? || handle.None? {
        return false;
      }
      stream := handle;
      frames := [];
      isRecording := true;
      ok := true;
    }

    /**
     * `record_chunk`: `read` is the chunk the stream delivered, None when the
     * read raised. Only while recording is a chunk appended.
     */
    method RecordChunk(read: Option<Chunk>)
      requires Valid()
      modifies this`frames
      ensures Valid()
      ensures isRecording && read.Some? ==> frames == old(frames) + [read.value]
      ensures !(isRecording && read.Some?) ==> frames == old(frames)
    {
      if !isRecording || stream.None? {
        return;
      }
      if read.Some? {
        frames := frames + [read.value];
      }
    }

    /**
     * `stop_recording`: closes the stream and returns the recorded bytes
     * (the WAV container around them is not modelled). Nothing changes when
     * not recording; None also when no chunk was captured.
     */
    method StopRecording() returns (audio: Option<seq<bv8>>)
      requires Valid()
      modifies this`isRecording, this`stream
      ensures Valid()
      ensures !old(isRecording) ==> audio == None && isRecording == old(isRecording) && stream == old(stream)
      ensures old(isRecording) ==> !isRecording && stream == None
      ensures old(isRecording) ==> (audio.None? <==> frames == [])
      ensures audio.Some? ==> audio.value == Concat(frames)
    {
      if !isRecording {
        return None;
      }
      isRecording := false;
      stream := None;
      if frames == [] {
        return None;
      }
      audio := Some(Concat(frames));
    }

    /** `cleanup`: stops a recording in progress (terminating PyAudio is not modelled). */
    method Cleanup()
      requires Valid()
      modifies this`isRecording, this`stream
      ensures Valid() && !isRecording && stream == None
    {
      if isRecording {
        var _ := StopRecording();
      }
    }
  }
}
