/**
 * The message and chunk shapes that the record/replay fixtures carry, and the projection
 * that writes one streamed chunk to a fixture line and rebuilds it.
 *
 * `Null` stands for both `null` and a missing property, as the `??` and `== null` tests of
 * the source do. JSON text itself is not modelled: a line is the value it encodes.
 */
module Messages {
  import opened Common

  datatype Json =
    | Null
    | Bool(b: bool)
    | Num(n: int)
    | Str(s: string)
    | Arr(items: seq<Json>)
    | Obj(fields: map<string, Json>)

  // ----- Text of a message -----

  function PartText(part: Json): string {
    match part
    case Str(s) => s
    case Obj(fields) => if "text" in fields && fields["text"].Str? then fields["text"].s else ""
    case _ => ""
  }

  function JoinTexts(parts: seq<Json>): string {
    if parts == [] then "" else JoinTexts(parts[..|parts| - 1]) + PartText(parts[|parts| - 1])
  }

  function ExtractText(content: Json): string {
    match content
    case Str(s) => s
    case Arr(items) => JoinTexts(items)
    case _ => ""
  }

  datatype Msg = Msg(role: string, content: Json)

  predicate IsHuman(m: Msg) {
    m.role == "human" || m.role == "user"
  }

  /** Every human message's text, oldest first. */
  function HumanTexts(messages: seq<Msg>): seq<string> {
    if messages == [] then []
    else
      var last := messages[|messages| - 1];
      HumanTexts(messages[..|messages| - 1]) + (if IsHuman(last) then [ExtractText(last.content)] else [])
  }

  /** The latest human message's text: the binding and prompt-check key. */
  function LatestHumanText(messages: seq<Msg>): string {
    var texts := HumanTexts(messages);
    if texts == [] then "" else texts[|texts| - 1]
  }

  /** A conversation with at most one human turn looks freshly opened. */
  predicate IsConversationStart(messages: seq<Msg>) {
    |HumanTexts(messages)| <= 1
  }

  // ----- Streamed chunks -----

  datatype StreamedMessage = StreamedMessage(
    content: Json,
    additionalKwargs: Json,
    responseMetadata: Json,
    toolCallChunks: Json,
    usageMetadata: Json,
    id: Json)

  datatype Chunk = Chunk(text: Option<string>, message: Option<StreamedMessage>)

  /** What a fixture line keeps of a message; an absent property is `None`. */
  datatype RecordedMessage = RecordedMessage(
    content: Json,
    additionalKwargs: Option<Json>,
    responseMetadata: Option<Json>,
    toolCallChunks: Option<Json>,
    usageMetadata: Option<Json>,
    id: Option<string>)

  datatype RecordedChunk = RecordedChunk(text: string, message: Option<RecordedMessage>)

  function JsonClone(value: Json): Option<Json> {
    if value.Null? then None else Some(value)
  }

  function SerializeMessage(m: StreamedMessage): RecordedMessage {
    RecordedMessage(
      JsonClone(m.content).GetOr(Str("")),
      JsonClone(m.additionalKwargs),
      JsonClone(m.responseMetadata),
      JsonClone(m.toolCallChunks),
      JsonClone(m.usageMetadata),
      if m.id.Str? then Some(m.id.s) else None)
  }

  /** The chunk handed to the token callback may be missing, and so may the token. */
  function SerializeChunk(chunk: Option<Chunk>, token: Option<string>): RecordedChunk {
    match chunk
    case None => RecordedChunk(token.GetOr(""), None)
    case Some(c) =>
      RecordedChunk(
        c.text.GetOr(token.GetOr("")),
        if c.message.None? then None else Some(SerializeMessage(c.message.value)))
  }

  /** `content ?? text` of a recorded chunk. */
  function RecordedContent(r: RecordedChunk): Json {
    if r.message.Some? && !r.message.value.content.Null? then r.message.value.content else Str(r.text)
  }

  /** `value ?? default`, for a property a fixture line may lack or hold as `null`. */
  function Fallback(value: Option<Json>, default: Json): Json {
    if value.Some? && !value.value.Null? then value.value else default
  }

  function DeserializeChunk(r: RecordedChunk): Chunk {
    var m := r.message;
    Chunk(Some(r.text), Some(StreamedMessage(
      RecordedContent(r),
      Fallback(if m.Some? then m.value.additionalKwargs else None, Obj(map[])),
      Fallback(if m.Some? then m.value.responseMetadata else None, Obj(map[])),
      Fallback(if m.Some? then m.value.toolCallChunks else None, Arr([])),
      Fallback(if m.Some? then m.value.usageMetadata else None, Null),
      if m.Some? && m.value.id.Some? then Str(m.value.id.value) else Null)))
  }

  /** The chunk has every property a fixture line can carry, each in the form the line keeps. */
  predicate FullyProjected(c: Chunk) {
    && c.text.Some?
    && c.message.Some?
    && var m := c.message.value;
       && !m.content.Null?
       && !m.additionalKwargs.Null?
       && !m.responseMetadata.Null?
       && !m.toolCallChunks.Null?
       && (m.id.Str? || m.id.Null?)
  }

  /** Recording and replaying a chunk returns that very chunk exactly when nothing was missing. */
  lemma SerializeRoundTrip(c: Chunk, token: Option<string>)
    ensures DeserializeChunk(SerializeChunk(Some(c), token)) == c <==> FullyProjected(c)
  {
    if c.message.Some? {
      var m := c.message.value;
      assert m.id.Str? ==> Str(m.id.s) == m.id;
    }
  }

  /** The projection loses no property that was present: what comes back differs from the
      streamed message only where the message had nothing (or an id that is not a string). */
  lemma RoundTripKeepsEveryPresentField(c: Chunk, token: Option<string>)
    requires c.message.Some?
    ensures var m, back := c.message.value, DeserializeChunk(SerializeChunk(Some(c), token)).message.value;
      && (!m.content.Null? ==> back.content == m.content)
      && (!m.additionalKwargs.Null? ==> back.additionalKwargs == m.additionalKwargs)
      && (!m.responseMetadata.Null? ==> back.responseMetadata == m.responseMetadata)
      && (!m.toolCallChunks.Null? ==> back.toolCallChunks == m.toolCallChunks)
      && back.usageMetadata == m.usageMetadata
      && (m.id.Str? ==> back.id == m.id)
    ensures c.text.Some? ==> DeserializeChunk(SerializeChunk(Some(c), token)).text == c.text
  {
    var m := c.message.value;
    assert m.id.Str? ==> Str(m.id.s) == m.id;
  }

  /** Replaying a fixture while recording again yields a fixture that replays identically. */
  lemma ReplayedChunkIsStable(r: RecordedChunk, token: Option<string>)
    ensures DeserializeChunk(SerializeChunk(Some(DeserializeChunk(r)), token)) == DeserializeChunk(r)
  {
    SerializeRoundTrip(DeserializeChunk(r), token);
  }
}
