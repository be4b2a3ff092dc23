/**
 * The result shaping of the MCP server's two tools: `file_search` turns a
 * vector-store search response into id/title/snippet/url records, and
 * `file_fetch` turns a file's content chunks and file info into one
 * document. The vector-store calls themselves are inputs: a response is
 * the sequence of items it holds, each with the fields it may lack.
 */
module ShinanMcp {
  import opened Wrappers
  import opened Text

  // ---------------------------------------------------------------------
  // file_search
  // ---------------------------------------------------------------------

  /** The first entry of an item's `content` list. */
  datatype ContentEntry =
      /** An object with a `text` attribute. */
    | TextEntry(text: string)
      /** A dictionary, which may or may not have a `"text"` key. */
    | DictEntry(textKey: Option<string>)
      /** Anything else. */
    | OtherEntry

  /** One search hit; `None` for an attribute the hit does not have. */
  datatype SearchItem = SearchItem(fileId: Option<string>, filename: Option<string>, content: seq<ContentEntry>)

  /** One shaped result. */
  datatype SearchResult = SearchResult(id: string, title: string, text: string, url: string)

  const NoContent := "No content available"
  const FilesUrl := "https://platform.openai.com/storage/files/"
  const SnippetLength := 200

  /** The text of the first content entry, or "" when there is none or it has no text. */
  function RawText(content: seq<ContentEntry>): string {
    if content == [] then ""
    else match content[0]
      case TextEntry(text) => text
      case DictEntry(textKey) => if textKey.Some? then textKey.value else ""
      case OtherEntry => ""
  }

  /** The item's text, with the placeholder when it is empty. */
  function ItemText(content: seq<ContentEntry>): (t: string)
    ensures t != ""
    ensures RawText(content) != "" ==> t == RawText(content)
    ensures RawText(content) == "" ==> t == NoContent
  {
    if RawText(content) == "" then NoContent else RawText(content)
  }

  /** The first 200 characters and an ellipsis when the text is longer, the text otherwise. */
  function Snippet(text: string): string {
    if |text| > SnippetLength then text[..SnippetLength] + "..." else text
  }

  /**
   * The result for the hit at position `i` of the response: its file id
   * or `vs_<i>`, its file name or `Document <i+1>`, the snippet of its
   * text, and the file URL of the id.
   */
  function ShapeItem(i: nat, item: SearchItem): SearchResult {
    var id := if item.fileId.Some? then item.fileId.value else "vs_" + NatToString(i);
    var title := if item.filename.Some? then item.filename.value else "Document " + NatToString(i + 1);
    SearchResult(id, title, Snippet(ItemText(item.content)), FilesUrl + id)
  }

  /**
   * `file_search`: a missing or blank query gives no results and the
   * store is not consulted; otherwise one result per hit, in order.
   */
  method FileSearch(query: string, search: string -> seq<SearchItem>) returns (results: seq<SearchResult>)
    ensures IsBlank(query) ==> results == []
    ensures !IsBlank(query) ==> |results| == |search(query)|
    ensures !IsBlank(query) ==> forall i | 0 <= i < |results| :: results[i] == ShapeItem(i, search(query)[i])
  {
    TrimEmptyIffBlank(query);
    if Trim(query) == "" {
      return [];
    }
    var data := search(query);
    results := ShapeResults(data);
  }

  /** The loop over the hits of a search response: one result per hit, in order. */
  method ShapeResults(data: seq<SearchItem>) returns (results: seq<SearchResult>)
    ensures |results| == |data|
    ensures forall i | 0 <= i < |results| :: results[i] == ShapeItem(i, data[i])
  {
    results := [];
    for i := 0 to |data|
      invariant |results| == i
      invariant forall k | 0 <= k < i :: results[k] == ShapeItem(k, data[k])
    {
      var result := ShapeItem(i, data[i]);
      results := results + [result];
    }
  }

  /** A snippet is never longer than 203 characters and starts like the text. */
  lemma SnippetBounds(text: string)
    ensures |Snippet(text)| <= SnippetLength + 3
    ensures |text| <= SnippetLength ==> Snippet(text) == text
    ensures |text| > SnippetLength ==>
      |Snippet(text)| == SnippetLength + 3 && Snippet(text)[..SnippetLength] == text[..SnippetLength]
      && Snippet(text)[SnippetLength..] == "..."
  {
  }

  /** Shortening a snippet again changes nothing. */
  lemma SnippetIdempotent(text: string)
    ensures Snippet(Snippet(text)) == Snippet(text)
  {
    if |text| > SnippetLength {
      var s := Snippet(text);
      assert s[..SnippetLength] == text[..SnippetLength];
    }
  }

  /**
   * The id, title and text defaults of a hit, and the url built from the
   * id; a present attribute is used as it is.
   */
  lemma ShapeItemFields(i: nat, item: SearchItem)
    ensures item.fileId.None? ==> ShapeItem(i, item).id == "vs_" + NatToString(i)
    ensures item.fileId.Some? ==> ShapeItem(i, item).id == item.fileId.value
    ensures item.filename.None? ==> ShapeItem(i, item).title == "Document " + NatToString(i + 1)
    ensures item.filename.Some? ==> ShapeItem(i, item).title == item.filename.value
    ensures RawText(item.content) == "" ==> ShapeItem(i, item).text == NoContent
    ensures ShapeItem(i, item).url == FilesUrl + ShapeItem(i, item).id
    ensures ShapeItem(i, item).url[|FilesUrl|..] == ShapeItem(i, item).id
  {
  }

  /** Hits without file ids get distinct default ids, one per position. */
  lemma DefaultIdsDistinct(i: nat, j: nat, a: SearchItem, b: SearchItem)
    requires i != j && a.fileId.None? && b.fileId.None?
    ensures ShapeItem(i, a).id != ShapeItem(j, b).id
  {
    var si, sj := NatToString(i), NatToString(j);
    if "vs_" + si == "vs_" + sj {
      assert si == ("vs_" + si)[3..] == ("vs_" + sj)[3..] == sj;
      NatToStringValue(i);
      NatToStringValue(j);
    }
  }

  // ---------------------------------------------------------------------
  // file_fetch
  // ---------------------------------------------------------------------

  /** One content chunk; `None` when it has no `text` attribute. */
  datatype ContentChunk = ContentChunk(text: Option<string>)

  /** The file info; `None` for an attribute it does not have. */
  datatype FileInfo = FileInfo(filename: Option<string>, attributes: Option<map<string, string>>)

  /** The fetched document. */
  datatype Document = Document(id: string, title: string, text: string, url: string,
                               metadata: Option<map<string, string>>)

  /** Why a fetch raised. */
  datatype FetchError = ValueError(message: string)

  const IdRequired := "Document ID is required"

  /** The texts of the chunks that have one, in order. */
  function ChunkTexts(chunks: seq<ContentChunk>): seq<string> {
    if chunks == [] then []
    else
      var last := chunks[|chunks| - 1];
      ChunkTexts(chunks[..|chunks| - 1]) + (if last.text.Some? then [last.text.value] else [])
  }

  /** The document text: the chunk texts on separate lines, or the placeholder for an empty response. */
  function FetchedText(chunks: seq<ContentChunk>): string {
    if chunks == [] then NoContent else Join(ChunkTexts(chunks), "\n")
  }

  /** The metadata: the attributes when there are any. */
  function Metadata(info: FileInfo): (m: Option<map<string, string>>)
    ensures m.Some? <==> info.attributes.Some? && |info.attributes.value| > 0
    ensures m.Some? ==> m.value == info.attributes.value
  {
    if info.attributes.Some? && |info.attributes.value| > 0 then info.attributes else None
  }

  /**
   * `file_fetch`: an empty id raises; otherwise the store's content
   * chunks and file info for the id are shaped into one document.
   */
  method FileFetch(id: string, content: string -> seq<ContentChunk>, retrieve: string -> FileInfo)
    returns (r: Result<Document, FetchError>)
    ensures id == "" <==> r.Failure?
    ensures r.Failure? ==> r.error == ValueError(IdRequired)
    ensures r.Success? ==> r.value.id == id && r.value.url == FilesUrl + id
    ensures r.Success? ==> r.value.text == FetchedText(content(id))
    ensures r.Success? && retrieve(id).filename.Some? ==> r.value.title == retrieve(id).filename.value
    ensures r.Success? && retrieve(id).filename.None? ==> r.value.title == "Document " + id
    ensures r.Success? ==> r.value.metadata == Metadata(retrieve(id))
  {
    if id == "" {
      return Failure(ValueError(IdRequired));
    }
    var data := content(id);
    var fileInfo := retrieve(id);
    var fileContent := "";
    if data != [] {
      var contentParts: seq<string> := [];
      for i := 0 to |data|
        invariant contentParts == ChunkTexts(data[..i])
      {
        assert data[..i + 1][..i] == data[..i];
        if data[i].text.Some? {
          contentParts := contentParts + [data[i].text.value];
        }
      }
      assert data[..|data|] == data;
      fileContent := Join(contentParts, "\n");
    } else {
      fileContent := NoContent;
    }
    var filename := if fileInfo.filename.Some? then fileInfo.filename.value else "Document " + id;
    var result := Document(id, filename, fileContent, FilesUrl + id, None);
    if fileInfo.attributes.Some? && |fileInfo.attributes.value| > 0 {
      result := result.(metadata := fileInfo.attributes);
    }
    return Success(result);
  }

  /** Every chunk text comes back, in order, as one line of the document when none of them spans lines. */
  lemma FetchedTextLines(chunks: seq<ContentChunk>)
    requires ChunkTexts(chunks) != []
    requires forall k | 0 <= k < |ChunkTexts(chunks)| :: '\n' !in ChunkTexts(chunks)[k]
    ensures Split(FetchedText(chunks), '\n') == ChunkTexts(chunks)
  {
    assert chunks != [];
    SplitJoin(ChunkTexts(chunks), '\n');
  }

  /** The chunk texts are the texts of exactly the chunks that have one. */
  lemma {:induction false} ChunkTextsCount(chunks: seq<ContentChunk>)
    ensures |ChunkTexts(chunks)| <= |chunks|
    ensures (forall k | 0 <= k < |chunks| :: chunks[k].text.Some?) ==> |ChunkTexts(chunks)| == |chunks|
    ensures forall t :: t in ChunkTexts(chunks) <==> ContentChunk(Some(t)) in chunks
  {
    if chunks != [] {
      var init := chunks[..|chunks| - 1];
      ChunkTextsCount(init);
      assert chunks == init + [chunks[|chunks| - 1]];
    }
  }

  /** Chunks without text contribute no lines. */
  lemma {:induction false} TextlessChunksNoLines(chunks: seq<ContentChunk>)
    requires forall k | 0 <= k < |chunks| :: chunks[k].text.None?
    ensures ChunkTexts(chunks) == []
  {
    if chunks != [] {
      TextlessChunksNoLines(chunks[..|chunks| - 1]);
    }
  }

  /** A response whose chunks have no text gives an empty document, not the placeholder. */
  lemma TextlessChunksGiveEmptyText(chunks: seq<ContentChunk>)
    requires chunks != [] && forall k | 0 <= k < |chunks| :: chunks[k].text.None?
    ensures FetchedText(chunks) == ""
  {
    TextlessChunksNoLines(chunks);
  }
}
