/**
 * The chat panel of the frontend: sending a query and turning the
 * streamed response into chat messages, and expanding an upload result
 * into messages. A response arrives as the sequence of decoded chunks it
 * delivers, possibly cut short by a read failure; the request itself and
 * JSON parsing are inputs.
 */
module Chat {
  import opened Wrappers
  import opened Text
  import opened Session

  datatype Role = UserRole | BotRole | UpdateRole

  /** A chat bubble. */
  datatype Message = Message(role: Role, text: string)

  const UpdatePrefix := "UPDATE "
  const StreamingPrefix := "STREAMING "
  const ErrorReply := "Error: Could not get response."
  const UnknownError := "Unknown error"
  const NoBodyError := "No response body"

  // ---------------------------------------------------------------------
  // Chunk classification
  // ---------------------------------------------------------------------

  /** The messages and the `streaming` flag the read loop keeps. */
  datatype StreamState = StreamState(messages: seq<Message>, streaming: bool)

  /** While streaming there is a message to continue. */
  predicate Valid(s: StreamState) {
    s.streaming ==> s.messages != []
  }

  /** Whether the chunk carries one of the two markers. */
  predicate Marked(chunk: string) {
    StartsWith(chunk, UpdatePrefix) || StartsWith(chunk, StreamingPrefix)
  }

  /**
   * One chunk: an `UPDATE ` chunk becomes an update bubble without its
   * marker and ends streaming; a `STREAMING ` chunk opens an empty bot
   * bubble, drops the rest of the chunk and starts streaming; while
   * streaming any other chunk is added to the last bubble's text;
   * otherwise it becomes a bot bubble of its own.
   */
  function Step(s: StreamState, chunk: string): (t: StreamState)
    requires Valid(s)
    ensures Valid(t)
  {
    if StartsWith(chunk, UpdatePrefix) then
      StreamState(s.messages + [Message(UpdateRole, chunk[|UpdatePrefix|..])], false)
    else if StartsWith(chunk, StreamingPrefix) then
      StreamState(s.messages + [Message(BotRole, "")], true)
    else if s.streaming then
      var last := s.messages[|s.messages| - 1];
      StreamState(s.messages[..|s.messages| - 1] + [last.(text := last.text + chunk)], true)
    else
      StreamState(s.messages + [Message(BotRole, chunk)], false)
  }

  /** The state after the read loop has handled `chunks` in order. */
  function Consume(s: StreamState, chunks: seq<string>): (t: StreamState)
    requires Valid(s)
    ensures Valid(t)
  {
    if chunks == [] then s else Step(Consume(s, chunks[..|chunks| - 1]), chunks[|chunks| - 1])
  }

  lemma ConsumeStep(s: StreamState, chunks: seq<string>, i: nat)
    requires Valid(s) && i < |chunks|
    ensures Consume(s, chunks[..i + 1]) == Step(Consume(s, chunks[..i]), chunks[i])
  {
    assert chunks[..i + 1][..i] == chunks[..i];
  }

  /** What the four kinds of chunk do to the bubbles and the flag. */
  lemma StepEffect(s: StreamState, chunk: string)
    requires Valid(s)
    ensures StartsWith(chunk, UpdatePrefix) ==>
      Step(s, chunk).messages == s.messages + [Message(UpdateRole, chunk[7..])] && !Step(s, chunk).streaming
    ensures !StartsWith(chunk, UpdatePrefix) && StartsWith(chunk, StreamingPrefix) ==>
      Step(s, chunk).messages == s.messages + [Message(BotRole, "")] && Step(s, chunk).streaming
    ensures !Marked(chunk) && s.streaming ==>
      var n := |s.messages|;
      |Step(s, chunk).messages| == n && Step(s, chunk).messages[..n - 1] == s.messages[..n - 1]
      && Step(s, chunk).messages[n - 1].role == s.messages[n - 1].role
      && Step(s, chunk).messages[n - 1].text == s.messages[n - 1].text + chunk
      && Step(s, chunk).streaming
    ensures !Marked(chunk) && !s.streaming ==>
      Step(s, chunk).messages == s.messages + [Message(BotRole, chunk)] && !Step(s, chunk).streaming
  {
  }

  /**
   * The loop only appends bubbles and rewrites the last one: every
   * earlier bubble stays, and when not streaming at the start all of them
   * stay.
   */
  lemma {:induction false} ConsumeKeepsEarlier(s: StreamState, chunks: seq<string>)
    requires Valid(s)
    ensures |Consume(s, chunks).messages| >= |s.messages|
    ensures forall i | 0 <= i < |s.messages| - 1 :: Consume(s, chunks).messages[i] == s.messages[i]
    ensures !s.streaming ==> Consume(s, chunks).messages[..|s.messages|] == s.messages
  {
    if chunks != [] {
      var init := chunks[..|chunks| - 1];
      ConsumeKeepsEarlier(s, init);
      var m := Consume(s, init);
      var t := Step(m, chunks[|chunks| - 1]);
      StepEffect(m, chunks[|chunks| - 1]);
      var n := |m.messages|;
      assert forall i | 0 <= i < n - 1 :: t.messages[i] == m.messages[i] by {
        forall i | 0 <= i < n - 1 ensures t.messages[i] == m.messages[i] {
          if m.streaming && !Marked(chunks[|chunks| - 1]) {
            assert t.messages[i] == t.messages[..n - 1][i];
          }
        }
      }
      if !s.streaming {
        if m.streaming {
          // The streamed bubble was appended after the earlier ones.
          assert |m.messages| > |s.messages| by {
            StreamingOpened(s, init);
          }
        }
        assert t.messages[..|s.messages|] == s.messages by {
          forall i | 0 <= i < |s.messages| ensures t.messages[i] == s.messages[i] {
            assert m.messages[..|s.messages|][i] == m.messages[i];
          }
        }
      }
    }
  }

  /** Streaming only ever starts with a bubble of its own. */
  lemma {:induction false} StreamingOpened(s: StreamState, chunks: seq<string>)
    requires Valid(s) && !s.streaming
    ensures Consume(s, chunks).streaming ==> |Consume(s, chunks).messages| > |s.messages|
  {
    if chunks != [] {
      var init := chunks[..|chunks| - 1];
      StreamingOpened(s, init);
      ConsumeKeepsLength(s, init);
    }
  }

  lemma {:induction false} ConsumeKeepsLength(s: StreamState, chunks: seq<string>)
    requires Valid(s)
    ensures |Consume(s, chunks).messages| >= |s.messages|
  {
    if chunks != [] {
      ConsumeKeepsLength(s, chunks[..|chunks| - 1]);
    }
  }

  /** The chunks one after the other. */
  function Concat(chunks: seq<string>): string {
    if chunks == [] then "" else Concat(chunks[..|chunks| - 1]) + chunks[|chunks| - 1]
  }

  /** Unmarked chunks while streaming all land, in order, in the last bubble. */
  lemma {:induction false} StreamedConcatenation(s: StreamState, chunks: seq<string>)
    requires s.streaming && s.messages != []
    requires forall i | 0 <= i < |chunks| :: !Marked(chunks[i])
    ensures var n := |s.messages|; var last := s.messages[n - 1];
      Consume(s, chunks) == StreamState(s.messages[..n - 1] + [last.(text := last.text + Concat(chunks))], true)
  {
    var n := |s.messages|;
    var last := s.messages[n - 1];
    if chunks == [] {
      assert last.text + Concat(chunks) == last.text;
      assert s.messages == s.messages[..n - 1] + [last];
    } else {
      var init := chunks[..|chunks| - 1];
      var c := chunks[|chunks| - 1];
      StreamedConcatenation(s, init);
      var m := Consume(s, init);
      assert m.messages == s.messages[..n - 1] + [last.(text := last.text + Concat(init))];
      assert m.messages[..n - 1] == s.messages[..n - 1];
      assert (last.text + Concat(init)) + c == last.text + Concat(chunks);
    }
  }

  /** `s.slice(k)` in JavaScript for a non-negative `k`: empty once `k` passes the end. */
  function SliceFrom(s: string, k: nat): string {
    if k <= |s| then s[k..] else ""
  }

  /** A run of `UPDATE ` chunks becomes one update bubble each, in order, marker removed. */
  lemma {:induction false} UpdateChunks(s: StreamState, chunks: seq<string>)
    requires Valid(s) && chunks != []
    requires forall i | 0 <= i < |chunks| :: StartsWith(chunks[i], UpdatePrefix)
    ensures Consume(s, chunks) ==
      StreamState(s.messages + seq(|chunks|, i requires 0 <= i < |chunks| => Message(UpdateRole, SliceFrom(chunks[i], 7))), false)
  {
    var init := chunks[..|chunks| - 1];
    var c := chunks[|chunks| - 1];
    var bubbles := seq(|chunks|, i requires 0 <= i < |chunks| => Message(UpdateRole, SliceFrom(chunks[i], 7)));
    var initBubbles := seq(|init|, i requires 0 <= i < |init| => Message(UpdateRole, SliceFrom(init[i], 7)));
    assert bubbles == initBubbles + [Message(UpdateRole, c[7..])];
    if init == [] {
      assert initBubbles == [];
      assert s.messages + bubbles == s.messages + [Message(UpdateRole, c[7..])];
    } else {
      UpdateChunks(s, init);
      assert s.messages + bubbles == (s.messages + initBubbles) + [Message(UpdateRole, c[7..])];
    }
  }

  // ---------------------------------------------------------------------
  // sendMessage
  // ---------------------------------------------------------------------

  /** What reading the response body delivers: its chunks, then an error if the read failed. */
  datatype Body = Body(chunks: seq<string>, readFailure: Option<string>)

  /** The outcome of the `fetch` call. */
  datatype Response =
      /** `fetch` rejected with this error message. */
    | NetworkFailure(message: string)
    | Response(status: nat, body: Option<Body>)

  predicate IsOk(status: nat) {
    200 <= status <= 299
  }

  function ServerError(status: nat): string {
    "Server error: " + NatToString(status)
  }

  /** `err.message || "Unknown error"`. */
  function ErrorText(message: string): string {
    if message == "" then UnknownError else message
  }

  /** The error the response raises, if any. */
  function RaisedError(response: Response): Option<string> {
    match response
    case NetworkFailure(message) => Some(message)
    case Response(status, body) =>
      if !IsOk(status) then Some(ServerError(status))
      else if body.None? then Some(NoBodyError)
      else body.value.readFailure
  }

  /** The chunks the read loop handles before it stops. */
  function Delivered(response: Response): seq<string> {
    if response.Response? && IsOk(response.status) && response.body.Some? then response.body.value.chunks else []
  }

  /**
   * The bubbles after sending `input` over `messages`: the user's bubble,
   * what the delivered chunks make of it, and the error bubble when
   * anything raised.
   */
  function SendTranscript(messages: seq<Message>, input: string, response: Response): seq<Message> {
    Consume(StreamState(messages + [Message(UserRole, input)], false), Delivered(response)).messages
      + (if RaisedError(response).Some? then [Message(BotRole, ErrorReply)] else [])
  }

  /** The user's bubble comes first and everything before it stays; a failure ends with the error bubble. */
  lemma SendTranscriptShape(messages: seq<Message>, input: string, response: Response)
    ensures |SendTranscript(messages, input, response)| > |messages|
    ensures SendTranscript(messages, input, response)[..|messages| + 1] == messages + [Message(UserRole, input)]
    ensures RaisedError(response).Some? ==>
      SendTranscript(messages, input, response)[|SendTranscript(messages, input, response)| - 1]
        == Message(BotRole, ErrorReply)
    ensures RaisedError(response).Some? && Delivered(response) == [] ==>
      SendTranscript(messages, input, response) == messages + [Message(UserRole, input), Message(BotRole, ErrorReply)]
    ensures RaisedError(response).None? ==>
      SendTranscript(messages, input, response)
        == Consume(StreamState(messages + [Message(UserRole, input)], false), Delivered(response)).messages
  {
    var base := messages + [Message(UserRole, input)];
    var s := StreamState(base, false);
    ConsumeKeepsEarlier(s, Delivered(response));
    var c := Consume(s, Delivered(response)).messages;
    var tail: seq<Message> := if RaisedError(response).Some? then [Message(BotRole, ErrorReply)] else [];
    assert (c + tail)[..|base|] == c[..|base|];
  }

  class ChatPanel {
    var input: string
    var messages: seq<Message>
    var loading: bool
    var error: string

    constructor ()
      ensures input == "" && messages == [] && !loading && error == ""
    {
      input := "";
      messages := [];
      loading := false;
      error := "";
    }

    /**
     * `sendMessage`: nothing happens for a blank input or without a
     * context. Otherwise the user's bubble is added, the input cleared,
     * the response's chunks handled one by one, and an error ends with
     * the error bubble and the error text; loading is off afterwards.
     * Returns the query sent, if one was.
     */
    method SendMessage(context: Option<Context>, response: Response) returns (sent: Option<string>)
      modifies this
      ensures IsBlank(old(input)) || context.None? ==>
        sent.None? && input == old(input) && messages == old(messages)
        && loading == old(loading) && error == old(error)
      ensures !IsBlank(old(input)) && context.Some? ==>
        sent == Some(old(input)) && input == "" && !loading
        && messages == SendTranscript(old(messages), old(input), response)
        && error == (if RaisedError(response).Some? then ErrorText(RaisedError(response).value) else "")
    {
      TrimEmptyIffBlank(input);
      if Trim(input) == "" || context.None? {
        return None;
      }
      messages := messages + [Message(UserRole, input)];
      loading := true;
      error := "";
      var userInput := input;
      input := "";
      sent := Some(userInput);
      ghost var received := Consume(StreamState(messages, false), Delivered(response)).messages;
      var failure := Receive(response);
      assert messages == received;
      if failure.Some? {
        messages := messages + [Message(BotRole, ErrorReply)];
        error := ErrorText(failure.value);
      }
      assert messages == received + (if RaisedError(response).Some? then [Message(BotRole, ErrorReply)] else []);
      loading := false;
    }

    /** The `try` block after the request: the response checks, then the read loop. */
    method Receive(response: Response) returns (failure: Option<string>)
      modifies this
      ensures failure == RaisedError(response)
      ensures messages == Consume(StreamState(old(messages), false), Delivered(response)).messages
      ensures input == old(input) && loading == old(loading) && error == old(error)
    {
      match response {
        case NetworkFailure(message) =>
          failure := Some(message);
        case Response(status, body) =>
          if !IsOk(status) {
            failure := Some(ServerError(status));
          } else if body.None? {
            failure := Some(NoBodyError);
          } else {
            ReadChunks(body.value.chunks);
            failure := body.value.readFailure;
          }
      }
    }

    /** The read loop: each chunk is classified under the `streaming` flag. */
    method ReadChunks(chunks: seq<string>)
      modifies this
      ensures messages == Consume(StreamState(old(messages), false), chunks).messages
      ensures input == old(input) && loading == old(loading) && error == old(error)
    {
      ghost var start := StreamState(messages, false);
      var streaming := false;
      for i := 0 to |chunks|
        invariant StreamState(messages, streaming) == Consume(start, chunks[..i])
        invariant input == old(input) && loading == old(loading) && error == old(error)
      {
        ConsumeStep(start, chunks, i);
        var chunk := chunks[i];
        if StartsWith(chunk, UpdatePrefix) {
          streaming := false;
          var updateMessage := chunk[7..];
          messages := messages + [Message(UpdateRole, updateMessage)];
        } else if StartsWith(chunk, StreamingPrefix) {
          streaming := true;
          messages := messages + [Message(BotRole, "")];
        } else if streaming {
          var lastIndex := |messages| - 1;
          messages := messages[..lastIndex] + [messages[lastIndex].(text := messages[lastIndex].text + chunk)];
        } else {
          streaming := false;
          messages := messages + [Message(BotRole, chunk)];
        }
      }
      assert chunks[..|chunks|] == chunks;
    }

    /**
     * The upload result handler: a JSON array adds one bot bubble per
     * text part and per image part with a URL; anything else adds the raw
     * result as one bot bubble.
     */
    method OnResult(result: string, parsed: Parsed)
      modifies this
      ensures messages == old(messages) + ResultMessages(result, parsed)
      ensures input == old(input) && loading == old(loading) && error == old(error)
    {
      match parsed {
        case NotAnArray =>
          messages := messages + [Message(BotRole, result)];
        case JsonArray(items) =>
          ghost var before := messages;
          for i := 0 to |items|
            invariant messages == before + ArrayMessages(items[..i])
            invariant input == old(input) && loading == old(loading) && error == old(error)
          {
            assert items[..i + 1][..i] == items[..i];
            var msg := items[i];
            if msg.content.Some? {
              AddParts(msg.content.value);
              assert messages == before + (ArrayMessages(items[..i]) + ItemsMessages(msg.content.value));
            } else {
              assert ArrayMessages(items[..i + 1]) == ArrayMessages(items[..i]) + [];
            }
          }
          assert items[..|items|] == items;
      }
    }

    /** The bubbles for the parts of one parsed message. */
    method AddParts(content: seq<ContentItem>)
      modifies this
      ensures messages == old(messages) + ItemsMessages(content)
      ensures input == old(input) && loading == old(loading) && error == old(error)
    {
      for j := 0 to |content|
        invariant messages == old(messages) + ItemsMessages(content[..j])
        invariant input == old(input) && loading == old(loading) && error == old(error)
      {
        assert content[..j + 1][..j] == content[..j];
        var item := content[j];
        if item.kind == "input_text" {
          messages := messages + [Message(BotRole, item.text)];
        } else if item.kind == "input_image" && item.imageUrl.Some? && item.imageUrl.value != "" {
          messages := messages + [Message(BotRole, item.imageUrl.value)];
        }
      }
      assert content[..|content|] == content;
    }
  }

  // ---------------------------------------------------------------------
  // Upload result expansion
  // ---------------------------------------------------------------------

  /** One content part of a parsed message: its `type`, `text` and `image_url`. */
  datatype ContentItem = ContentItem(kind: string, text: string, imageUrl: Option<string>)

  /** A parsed message; `content` is `None` when missing. */
  datatype JsonMessage = JsonMessage(content: Option<seq<ContentItem>>)

  /** The parse of the upload result: an array of messages, or anything else (including a parse error). */
  datatype Parsed = NotAnArray | JsonArray(items: seq<JsonMessage>)

  /** Whether a part shows as a bubble. */
  predicate Shown(item: ContentItem) {
    item.kind == "input_text" || (item.kind == "input_image" && item.imageUrl.Some? && item.imageUrl.value != "")
  }

  /** The text a shown part puts in its bubble. */
  function ShownText(item: ContentItem): string {
    if item.kind == "input_text" then item.text else if item.imageUrl.Some? then item.imageUrl.value else ""
  }

  function ItemsMessages(content: seq<ContentItem>): seq<Message> {
    if content == [] then []
    else
      var item := content[|content| - 1];
      ItemsMessages(content[..|content| - 1])
        + (if Shown(item) then [Message(BotRole, ShownText(item))] else [])
  }

  function ArrayMessages(items: seq<JsonMessage>): seq<Message> {
    if items == [] then []
    else
      var msg := items[|items| - 1];
      ArrayMessages(items[..|items| - 1]) + (if msg.content.Some? then ItemsMessages(msg.content.value) else [])
  }

  function ResultMessages(result: string, parsed: Parsed): seq<Message> {
    match parsed
    case NotAnArray => [Message(BotRole, result)]
    case JsonArray(items) => ArrayMessages(items)
  }

  /** The bubbles of a message's parts are exactly its shown parts, in order, all from the bot. */
  lemma {:induction false} ItemsMessagesAreShown(content: seq<ContentItem>)
    ensures |ItemsMessages(content)| <= |content|
    ensures forall k | 0 <= k < |ItemsMessages(content)| :: ItemsMessages(content)[k].role == BotRole
    ensures (forall k | 0 <= k < |content| :: Shown(content[k])) ==>
      ItemsMessages(content) == seq(|content|, k requires 0 <= k < |content| => Message(BotRole, ShownText(content[k])))
  {
    if content != [] {
      var init := content[..|content| - 1];
      ItemsMessagesAreShown(init);
      var all := seq(|content|, k requires 0 <= k < |content| => Message(BotRole, ShownText(content[k])));
      var allInit := seq(|init|, k requires 0 <= k < |init| => Message(BotRole, ShownText(init[k])));
      assert all == allInit + [Message(BotRole, ShownText(content[|content| - 1]))];
    }
  }

  /** A result that is not an array shows as itself; an empty array shows nothing. */
  lemma ResultFallback(result: string)
    ensures ResultMessages(result, NotAnArray) == [Message(BotRole, result)]
    ensures ResultMessages(result, JsonArray([])) == []
  {
  }
}
