/**
 * The expression-level helpers of the client router: the interests
 * sentence of the context message, the ideas message, the rotating MCP
 * progress messages, `set_context`'s validation and the upload
 * content-type dispatch.
 */
module ClientFormat {
  import opened Wrappers
  import opened Text
  import opened Session

  /** What a route answers instead of a result. */
  datatype RouteError =
    | HttpError(status: nat, detail: string)
      /** An exception that propagates out of the route unchanged. */
    | Unhandled

  // ---------------------------------------------------------------------
  // Interests sentence
  // ---------------------------------------------------------------------

  /**
   * The interests as a sentence fragment: nothing, the one interest, or
   * all but the last joined by ", ", then ", and ", then the last.
   */
  function FormatInterests(interests: seq<string>): string {
    if |interests| == 0 then ""
    else if |interests| == 1 then interests[0]
    else Join(interests[..|interests| - 1], ", ") + ", and " + interests[|interests| - 1]
  }

  /** A serial-comma list built item by item, as an independent reference. */
  function SerialList(xs: seq<string>): string {
    if |xs| == 0 then ""
    else if |xs| == 1 then xs[0]
    else if |xs| == 2 then xs[0] + ", and " + xs[1]
    else xs[0] + ", " + SerialList(xs[1..])
  }

  /** The interests sentence is the serial-comma list of the interests, in order. */
  lemma {:induction false} FormatInterestsIsSerialList(xs: seq<string>)
    ensures FormatInterests(xs) == SerialList(xs)
  {
    var n := |xs|;
    if n > 2 {
      FormatInterestsIsSerialList(xs[1..]);
      assert xs[..n - 1][1..] == xs[1..][..n - 2];
      assert Join(xs[..n - 1], ", ") == xs[0] + ", " + Join(xs[1..][..n - 2], ", ");
      assert xs[1..][n - 2] == xs[n - 1];
    }
  }

  /** With the default interests the sentence keeps the serial comma even for two items. */
  lemma DefaultInterestsSentence()
    ensures FormatInterests(DefaultContext.interests) == "AI, and Strategy"
  {
  }

  /** The progress message that confirms the user's context to them. */
  function ContextMessage(company: string, role: string, interests: seq<string>): string {
    "UPDATE " + company + "で" + role + "としてお勤めで、" + FormatInterests(interests)
      + "にご興味があるのですね。承知しました!"
  }

  // ---------------------------------------------------------------------
  // Ideas message
  // ---------------------------------------------------------------------

  const IdeasHeader := "以下はアイデアをご提案いたします。\n\n"

  /** The two lines and blank line that present one idea. */
  function IdeaBlock(idea: Idea): string {
    "検索: " + idea.query + "\n" + "理由: " + idea.reasoning + "\n\n"
  }

  /** The blocks of all ideas, in order. */
  function IdeaBlocks(ideas: seq<Idea>): string {
    if ideas == [] then "" else IdeaBlocks(ideas[..|ideas| - 1]) + IdeaBlock(ideas[|ideas| - 1])
  }

  /** The message that lists the generated ideas. */
  function IdeasMessage(ideas: seq<Idea>): string {
    IdeasHeader + IdeaBlocks(ideas)
  }

  /** The message is built by appending one block per idea to the header. */
  method BuildIdeasMessage(ideas: seq<Idea>) returns (message: string)
    ensures message == IdeasMessage(ideas)
  {
    message := IdeasHeader;
    for k := 0 to |ideas|
      invariant message == IdeasHeader + IdeaBlocks(ideas[..k])
    {
      assert ideas[..k + 1][..k] == ideas[..k];
      message := message + IdeaBlock(ideas[k]);
    }
    assert ideas[..|ideas|] == ideas;
  }

  lemma {:induction false} IdeaBlocksAppend(a: seq<Idea>, b: seq<Idea>)
    ensures IdeaBlocks(a + b) == IdeaBlocks(a) + IdeaBlocks(b)
    decreases |b|
  {
    if b != [] {
      var b' := b[..|b| - 1];
      assert (a + b)[..|a + b| - 1] == a + b';
      assert (a + b)[|a + b| - 1] == b[|b| - 1];
      IdeaBlocksAppend(a, b');
    } else {
      assert a + b == a;
    }
  }

  /** Where the block of the `k`-th idea starts in the ideas message. */
  function IdeaBlockOffset(ideas: seq<Idea>, k: nat): nat
    requires k <= |ideas|
  {
    |IdeasHeader| + |IdeaBlocks(ideas[..k])|
  }

  /** The middle part of a three-part concatenation is found at its offset. */
  lemma SliceOfMiddle(a: string, b: string, c: string)
    ensures (a + b + c)[|a|..|a| + |b|] == b
  {
  }

  /** Each idea's block stands in the message at its place, in idea order. */
  lemma IdeaBlockAt(ideas: seq<Idea>, k: nat)
    requires k < |ideas|
    ensures IdeaBlockOffset(ideas, k) + |IdeaBlock(ideas[k])| == IdeaBlockOffset(ideas, k + 1)
    ensures IdeaBlockOffset(ideas, k + 1) <= |IdeasMessage(ideas)|
    ensures IdeasMessage(ideas)[IdeaBlockOffset(ideas, k)..IdeaBlockOffset(ideas, k + 1)] == IdeaBlock(ideas[k])
  {
    var pre, post := ideas[..k], ideas[k + 1..];
    assert ideas[..k + 1] == pre + [ideas[k]];
    assert ideas == ideas[..k + 1] + post;
    assert IdeaBlocks(ideas[..k + 1]) == IdeaBlocks(pre) + IdeaBlock(ideas[k]) by {
      assert ideas[..k + 1][..k] == pre;
    }
    IdeaBlocksAppend(ideas[..k + 1], post);
    var head := IdeasHeader + IdeaBlocks(pre);
    assert IdeasMessage(ideas) == head + IdeaBlock(ideas[k]) + IdeaBlocks(post);
    SliceOfMiddle(head, IdeaBlock(ideas[k]), IdeaBlocks(post));
  }

  // ---------------------------------------------------------------------
  // MCP progress messages
  // ---------------------------------------------------------------------

  /** The four MCP progress messages, used in rotation: each is `UPDATE ` and its text. */
  const McpUpdateMessages: seq<string> := [
    "UPDATE " + "MCPを介してソフトバンクに関連する公開資料を検索します...",
    "UPDATE " + "ソフトバンクの公開資料をMCP経由で調査中です...",
    "UPDATE " + "MCPを使って関連するレポートを検索しています...",
    "UPDATE " + "MCP経由で最新のソフトバンク資料を取得中です..."
  ]

  /**
   * The slot of the rotation the counter `k` picks, `k` modulo the number
   * of messages, counted down one round at a time.
   */
  function McpSlot(k: nat): (s: nat)
    ensures s < |McpUpdateMessages|
  {
    if k < |McpUpdateMessages| then k else McpSlot(k - |McpUpdateMessages|)
  }

  /** The slot is the counter modulo the number of messages. */
  lemma {:induction false} McpSlotIsModulo(k: nat)
    ensures McpSlot(k) == k % |McpUpdateMessages|
  {
    if k >= |McpUpdateMessages| {
      McpSlotIsModulo(k - |McpUpdateMessages|);
    }
  }

  /** The message shown when the rotation counter stands at `k`. */
  function McpUpdate(k: nat): string {
    McpUpdateMessages[McpSlot(k)]
  }

  /** The four messages are pairwise different. */
  lemma McpUpdateMessagesDistinct()
    ensures forall i, j | 0 <= i < j < |McpUpdateMessages| :: McpUpdateMessages[i] != McpUpdateMessages[j]
  {
    var m := McpUpdateMessages;
    assert m[0][7] != m[1][7] && m[1][7] != m[2][7] && m[1][7] != m[3][7];
    assert m[0][11] != m[2][11] && m[0][10] != m[3][10] && m[2][10] != m[3][10];
  }

  /** The rotation has period four and four consecutive messages all differ. */
  lemma McpUpdateRotation(k: nat)
    ensures McpUpdate(k + 4) == McpUpdate(k)
    ensures forall i, j | k <= i < j < k + 4 :: McpUpdate(i) != McpUpdate(j)
  {
    McpUpdateMessagesDistinct();
    forall i, j | k <= i < j < k + 4
      ensures McpUpdate(i) != McpUpdate(j)
    {
      McpSlotIsModulo(i);
      McpSlotIsModulo(j);
      var qi, qj := i / 4, j / 4;
      assert i == 4 * qi + i % 4 && j == 4 * qj + j % 4;
      assert qi <= qj <= qi + 1;
    }
  }

  /** Every MCP progress message is an `UPDATE ` chunk. */
  lemma McpUpdateIsUpdate(k: nat)
    ensures StartsWith(McpUpdate(k), "UPDATE ")
  {
    var m := McpUpdateMessages;
    assert m[0][..7] == "UPDATE ";
    assert m[1][..7] == "UPDATE ";
    assert m[2][..7] == "UPDATE ";
    assert m[3][..7] == "UPDATE ";
  }

  // ---------------------------------------------------------------------
  // set_context validation
  // ---------------------------------------------------------------------

  const ContextRequiredDetail := "company, role, and interests are required fields."

  /**
   * The handler's check on a parsed `/context` body: 400 when company or
   * role is empty, otherwise the context to store. The body's schema
   * makes `interests` a required list, so its `None` test never fires;
   * only emptiness is tested, and an empty interests list and blank
   * strings pass.
   */
  function ValidateContext(body: Context): (r: Result<Context, RouteError>)
    ensures r.Success? <==> body.company != "" && body.role != ""
    ensures r.Success? ==> r.value == body
    ensures r.Failure? ==> r.error == HttpError(400, ContextRequiredDetail)
  {
    if body.company == "" || body.role == "" then
      Failure(HttpError(400, ContextRequiredDetail))
    else
      Success(body)
  }

  // ---------------------------------------------------------------------
  // Upload dispatch
  // ---------------------------------------------------------------------

  /** The converters `ALLOWED_TYPES` maps content types to. */
  datatype Processor = PdfHybridProcessor | PngProcessor

  const AllowedTypes: map<string, Processor> :=
    map["application/pdf" := PdfHybridProcessor, "image/png" := PngProcessor]

  function UnsupportedTypeDetail(contentType: string): string {
    "Unsupported file type: " + contentType + ". Only PDF and PNG are supported."
  }

  /**
   * Picks the converter for an upload's content type (a missing type
   * counts as ""); any other type is rejected with 400.
   */
  function UploadProcessor(contentType: Option<string>): (r: Result<Processor, RouteError>)
    ensures r == Success(PdfHybridProcessor) <==> contentType == Some("application/pdf")
    ensures r == Success(PngProcessor) <==> contentType == Some("image/png")
    ensures r.Failure? ==>
      r.error == HttpError(400, UnsupportedTypeDetail(if contentType.Some? then contentType.value else ""))
  {
    var ct := if contentType.Some? then contentType.value else "";
    if ct in AllowedTypes then Success(AllowedTypes[ct])
    else Failure(HttpError(400, UnsupportedTypeDetail(ct)))
  }
}
