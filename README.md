# Shinan in Dafny

Shinan is a research assistant for people working at a company (by default
SoftBank). A user gives the assistant a context (company, role, interests)
and then either asks a question or uploads a PDF or PNG.

The backend answers a question in three phases:

1. An idea agent proposes search ideas.
2. One search worker per idea runs. The workers' progress messages are
   merged into one stream through a queue.
3. A writer agent streams the final report.

Every step yields chunks of text. A chunk that starts with `UPDATE ` is a
progress message. A chunk that starts with `STREAMING ` opens a bubble that
later chunks extend.

An upload is converted into a list of content parts. It then goes through
the same three phases, without streaming.

Alongside the client router, the system has four more parts:

- an MCP server with two tools, `file_search` and `file_fetch`, over an
  OpenAI vector store;
- the chat panel, which turns the streamed chunks into bubbles;
- the context form;
- a scraper that saves SoftBank news articles as PDFs.

Every agent run, HTTP response, vector-store response and scraped page is
an input to the model. For example:

- an agent run is the sequence of stream events it delivers and how it ends;
- a fetch response is its status, its chunks and the point where reading fails.

The modules:

- `Wrappers` holds `Option` and `Result`.
- `Text` holds the string functions everything shares: strip/trim, split,
  join, prefix test, character replacement and decimal rendering, with
  their round trips.
- `Session` holds the session's values and `SessionManager`, the class
  whose fields the pipeline updates.
- `Merge` is the fan-in of the search phase:
  - each worker's puts: its items, then a `None` sentinel;
  - any interleaving of the workers' puts;
  - the consumer loop that counts sentinels.
- `ClientFormat` holds the router's pure helpers:
  - the interests sentence;
  - the ideas message;
  - the rotation of the four MCP progress messages;
  - the `/context` validation;
  - the `/upload` type dispatch.
- `Material` turns a PDF or PNG into its content parts.
- `Client` holds the two orchestrators, `TextIntelligence` and
  `MaterialIntelligence`, and the `/query` and `/context` routes.
- `ShinanMcp` holds the result shaping of `file_search` and `file_fetch`.
- `Chat` holds the chat panel: chunk classification, `sendMessage` and the
  upload result expansion.
- `ContextPrompt` holds the context form's submit handler.
- `SoftBank` holds the news scraper.
- `EndToEnd` holds facts that span the frontend and the backend.

Behaviours of the code worth knowing, which the model follows as written:

- The text flow never stores the report. `set_report` is never called, and
  the report text is not added to the transcript; it is only streamed.
- The search workers add their results to the session themselves, each
  when it finishes. The merge does not fold them in.
- `/context` rejects only an empty company or an empty role. The body's
  schema makes `interests` a required list, so FastAPI answers a missing
  or null `interests` with 422 before the handler runs, and the handler's
  own `interests is None` test never fires. An empty list is accepted.
- The text flow's `_generate_report` has no `try`. A failed MCP connection
  or a web search call without an action raises out of the stream after
  the chunks already yielded.
- An exception inside the streamed run is not turned into a final error
  event. The route's `try` only covers building the streaming response.
- The `_mcp_update_idx` counter lives on the per-request
  `ShinanTextIntelligence`. Every `/query` therefore starts the rotation
  at the first message.

## Model

| member | source | states |
|---|---|---|
| Session.SessionManager.constructor | backend/app/routers/client.py:101-112 | a new session has the default SoftBank/Intern/[AI, Strategy] context, an empty transcript, no ideas, an empty analysis and an empty report |
| Session.SessionManager.GetContext | backend/app/routers/client.py:115-117 | returns the stored context |
| Session.SessionManager.SetContext | backend/app/routers/client.py:119-121 | replaces the context and leaves every other field as it was |
| Session.SessionManager.GetInputItems | backend/app/routers/client.py:124-126 | returns the transcript |
| Session.SessionManager.SetInputItems | backend/app/routers/client.py:128-130 | replaces the transcript and nothing else |
| Session.SessionManager.AddInputItem | backend/app/routers/client.py:132-134 | appends exactly one item at the end and keeps every earlier item and every other field |
| Session.SessionManager.SetTextIdeas | backend/app/routers/client.py:137-139 | replaces the text ideas and nothing else |
| Session.SessionManager.SetAnalysis | backend/app/routers/client.py:141-143 | replaces the material analysis and nothing else |
| Session.SessionManager.SetReport | backend/app/routers/client.py:146-148 | replaces the report and nothing else |
| Text.TrimStart | backend/app/routers/client.py:613 | the result is a suffix of the input, everything dropped is whitespace, and the result does not start with whitespace |
| Text.TrimEnd | backend/app/routers/client.py:613 | the result is a prefix of the input, everything dropped is whitespace, and the result does not end with whitespace |
| Text.TrimEmptyIffBlank | backend/app/routers/client.py:613 | stripping gives "" exactly when the string is all whitespace (the `if text.strip()` tests) |
| Text.TrimHasNoOuterSpace | backend/app/routers/client.py:616 | a stripped string starts and ends with a non-space |
| Text.TrimIdempotent | frontend/app/components/ContextPrompt.tsx:27-29 | stripping twice is stripping once |
| Text.SplitLength | frontend/app/components/ContextPrompt.tsx:29 | splitting gives one piece more than there are separators |
| Text.SplitPiecesFree | frontend/app/components/ContextPrompt.tsx:29 | no piece of a split contains the separator |
| Text.JoinSplit | frontend/app/components/ContextPrompt.tsx:29 | joining the pieces of a split with the separator gives back the string |
| Text.SplitJoin | backend/app/shinan_mcp.py:164 | splitting a join of separator-free pieces gives back the pieces |
| Text.SplitWithoutSeparator | frontend/app/components/ContextPrompt.tsx:29 | a string without the separator splits into itself alone |
| Text.SplitAfterFirstSeparator | frontend/app/components/ContextPrompt.tsx:29 | splitting at the first separator gives the part before it followed by the split of the rest |
| Text.ReplaceChar | backend/app/tools/sb_blogs_store/softbank.py:27 | `replace` keeps the length, puts the replacement at every position that held the replaced character, and keeps every other character in place |
| Text.NatToString | backend/app/shinan_mcp.py:83-84 | the decimal rendering of a number is a non-empty string of digits |
| Text.NatToStringValue | backend/app/shinan_mcp.py:83-84 | the digits read back as the number, so the rendering is injective |
| Merge.PayloadsFilter | backend/app/routers/client.py:424-430 | the consumer's output and the sentinels it skips together account for every queue entry, and exactly the Some entries are yielded |
| Merge.ConsumeGenerator | backend/app/routers/client.py:398-413 | a worker puts its items in order, then exactly one `None` sentinel |
| Merge.WorkerQueueShape | backend/app/routers/client.py:404-413 | a worker's puts hold one sentinel, at the end, and their payloads are its items |
| Merge.InterleaveCountsSentinels | backend/app/routers/client.py:415-418 | under any schedule the queue holds as many sentinels as all workers put together |
| Merge.InterleavePayloads | backend/app/routers/client.py:404-430 | the payloads of any interleaving of the workers' puts are an interleaving of the workers' items, so each worker's order is kept |
| Merge.InterleaveLast | backend/app/routers/client.py:411-413 | when every worker ends with the same entry, so does any interleaving of them |
| Merge.ConsumerDrainsQueue | backend/app/routers/client.py:421-427 | once the consumer has counted all sentinels it has taken the whole queue |
| Merge.OverallSearch | backend/app/routers/client.py:421-442 | the consumer loop stops right after the last sentinel, having yielded every payload before it in queue order, and then yields the completion message |
| Merge.MergeOfWorkers | backend/app/routers/client.py:395-442 | for any schedule of the workers, the consumer takes the entire queue and yields an interleaving of all the workers' items and nothing else |
| Merge.SequentialMerge | backend/app/routers/client.py:415-430 | running the workers one after another is one of the interleavings, and it yields their items concatenated |
| Merge.PayloadsOfInOrderQueue | backend/app/routers/client.py:404-430 | the payloads of the workers' puts taken in launch order are their items concatenated |
| Merge.InOrderQueueSentinels | backend/app/routers/client.py:413 | the in-order queue holds one sentinel per worker |
| Merge.InOrderQueueConsumed | backend/app/routers/client.py:421-431 | on the in-order queue the consumer takes everything and yields every worker's items in order |
| ClientFormat.FormatInterestsIsSerialList | backend/app/routers/client.py:289-294 | the interests sentence is the serial-comma list: nothing, the one interest, or "a, b, and c" |
| ClientFormat.DefaultInterestsSentence | backend/app/routers/client.py:103 | the default interests read "AI, and Strategy" |
| ClientFormat.BuildIdeasMessage | backend/app/routers/client.py:312-317 | the loop builds the header followed by one search/reason block per idea |
| ClientFormat.IdeaBlocksAppend | backend/app/routers/client.py:313-317 | the blocks of two idea lists are the blocks of each, concatenated |
| ClientFormat.IdeaBlockAt | backend/app/routers/client.py:312-317 | the k-th idea's block appears intact at its offset in the ideas message |
| ClientFormat.McpUpdateMessagesDistinct | backend/app/routers/client.py:358-363 | the four MCP progress messages are distinct |
| ClientFormat.McpSlotIsModulo | backend/app/routers/client.py:366 | the slot the counter picks is the counter modulo the number of messages, as `update_messages[idx % len(update_messages)]` indexes |
| ClientFormat.McpUpdateRotation | backend/app/routers/client.py:364-367 | the MCP progress messages repeat with period four, and any four consecutive calls show four different messages |
| ClientFormat.McpUpdateIsUpdate | backend/app/routers/client.py:358-368 | every MCP progress message is an `UPDATE ` chunk |
| ClientFormat.ValidateContext | backend/app/routers/client.py:721-726 | a parsed context body is accepted exactly when company and role are non-empty, and then stored as given; otherwise a 400 with the fixed detail |
| ClientFormat.UploadProcessor | backend/app/routers/client.py:788-794 | PDF and PNG pick their converter; anything else, or a missing content type, is a 400 naming the type |
| Material.PagesPartsStep | backend/app/routers/client.py:607-632 | each page adds its parts after those of the pages before it |
| Material.PdfHybridToMaterial | backend/app/routers/client.py:573-641 | the loop gives one user message: the deck header, then per page its text part if the text is not blank, its image and its visual marker |
| Material.PdfPartsCount | backend/app/routers/client.py:600-632 | a deck has 1 + 2·pages + (pages with text) parts |
| Material.PagesPartsCount | backend/app/routers/client.py:607-632 | the pages contribute 2·pages + (pages with text) parts |
| Material.PdfImages | backend/app/routers/client.py:619-627 | the images of a deck are exactly one `data:image/jpeg` URL per page, in page order |
| Material.PageImages | backend/app/routers/client.py:624-627 | each page contributes exactly its one image |
| Material.PagesImages | backend/app/routers/client.py:607-632 | the images of the pages' parts are the slide URLs in order |
| Material.ImagesAppend | backend/app/routers/client.py:607-632 | the images of concatenated parts are the images of each, concatenated |
| Material.PageTextPart | backend/app/routers/client.py:612-617 | a page has a text part, with the stripped text and its slide number, exactly when its text is not blank |
| Material.PngToMaterial | backend/app/routers/client.py:643-716 | one user message: the image header, the OCR text part only if the OCR text is not blank (a failed OCR counts as ""), exactly one `data:image/png` image, then the visual marker |
| Material.NoImages | backend/app/routers/client.py:685-697 | text parts hold no image |
| Client.IdeaStreamYieldsAreUpdates | backend/app/routers/client.py:276-299 | everything the idea stream yields is an `UPDATE ` chunk |
| Client.EventYieldsAreUpdates | backend/app/routers/client.py:350-369 | what a single search event yields, a web-search message or an MCP message, is always an `UPDATE ` chunk |
| Client.SearchUpdatesAreUpdates | backend/app/routers/client.py:343-369 | everything a search worker yields is an `UPDATE ` chunk |
| Client.SearchUpdatesRotate | backend/app/routers/client.py:357-368 | a worker that only makes MCP calls yields the rotation from the shared counter onward, one message per call |
| Client.ResultItems | backend/app/routers/client.py:374-381 | a worker that finishes adds exactly its result as one assistant item; a worker that fails adds nothing |
| Client.Results | backend/app/routers/client.py:395 | one outcome per worker, in launch order |
| Client.SearchPhaseWorkers | backend/app/routers/client.py:395-418 | one worker per idea |
| Client.AssistantItems | backend/app/routers/client.py:539 | one assistant item per result, in order |
| Client.AssistantItemsAppend | backend/app/routers/client.py:539 | the items of concatenated results are the items of each, concatenated |
| Client.SuccessItemsArePayloads | backend/app/routers/client.py:374-381 | the transcript gains exactly the successful results, as assistant items, in worker order |
| Client.SuccessItemsAreResults | backend/app/routers/client.py:374-381 | succeeded plus failed workers are all the workers |
| Client.ReportTextAnnounced | backend/app/routers/client.py:485-488 | every report message is yielded right after the completion update |
| Client.TextIntelligence.constructor | backend/app/routers/client.py:153-154 | a new orchestrator uses the given session and starts the MCP rotation at zero |
| Client.TextIntelligence.GenerateSearchIdeas | backend/app/routers/client.py:246-320 | yields the context-check and context messages, the thanks and the ideas message up to the point where the run fails; stores the ideas and the agent's input list exactly when the run succeeds; leaves everything else alone |
| Client.TextIntelligence.SearchProgress | backend/app/routers/client.py:343-369 | the event loop yields exactly the search updates of the events, in order, and moves the rotation once per MCP call |
| Client.TextIntelligence.Search | backend/app/routers/client.py:322-381 | yields one web-search or rotating MCP update per tool call, advances the rotation by the MCP calls, appends the result exactly when the run succeeds, and swallows failures |
| Client.TextIntelligence.GenerateReport | backend/app/routers/client.py:444-488 | yields the web-search and rotating MCP updates, and for each report message the completion update and the text; advances the rotation by its MCP calls; succeeds exactly when the writer's run does not raise |
| Client.TextIntelligence.LaunchWorker | backend/app/routers/client.py:398-413 | one worker puts its search's updates and then one sentinel, and its search changes the session and the rotation as Search says |
| Client.TextIntelligence.LaunchWorkersInOrder | backend/app/routers/client.py:395-416 | with the workers run in launch order, the queue holds each worker's updates and then its sentinel, in turn; the transcript gains the successful results and the rotation counter advances by all MCP calls |
| Client.TextIntelligence.OverallSearchInOrder | backend/app/routers/client.py:383-442 | with the workers run in launch order, yields every worker's updates in order, then the completion message; the transcript gains the successful results and the rotation counter advances by all MCP calls |
| Client.TextIntelligence.SearchThenReport | backend/app/routers/client.py:232-244 | the search phase, the user's query added after the results, then the report streamed over the counter the search left |
| Client.TextIntelligence.RunQuery | backend/app/routers/client.py:220-244 | the run completes exactly when neither the idea phase nor the report phase raises; a failed idea phase ends it with its partial output and untouched ideas, transcript and counter; otherwise the ideas are stored, the output is ideas, then searches, then the completion message, then the report's chunks, and the transcript is the idea agent's list, the results and the query; context, analysis and report never change |
| Client.QueryRoute | backend/app/routers/client.py:729-745 | a `/query` runs a fresh orchestrator over the shared session, so the MCP rotation starts at zero for every request; it completes exactly when neither agent phase raises; it stores the ideas and transcript as RunQuery does and leaves context, analysis and report alone |
| Client.SetContextRoute | backend/app/routers/client.py:720-727 | a parsed body is stored exactly when company and role are non-empty; otherwise a 400 and the context is unchanged; the rest of the session never changes |
| Client.MaterialReport | backend/app/routers/client.py:559-569 | the intended report step returns the writer's `report` field exactly when the writer's run produces one |
| Client.MaterialIntelligence.constructor | backend/app/routers/client.py:493-494 | a new orchestrator uses the given session |
| Client.MaterialIntelligence.GenerateSearchIdeasMaterial | backend/app/routers/client.py:514-529 | a tripped guardrail is a 400 with the sensitive-content detail; an analysis is stored with the agent's input list and returned; a failure changes nothing |
| Client.MaterialIntelligence.Search | backend/app/routers/client.py:531-543 | returns the result or None and appends exactly the successful result |
| Client.MaterialIntelligence.ResearchWeb | backend/app/routers/client.py:545-557 | the results are the successful searches, each once, and with the failures they account for every idea; the transcript gains exactly those results |
| Client.MaterialIntelligence.AnalyseAndResearch | backend/app/routers/client.py:500-507 | a guardrail trip is a 400 and an analysis failure unhandled, both before any search and with the transcript and analysis untouched; otherwise the analysis is stored and the research results are returned and appended to the transcript; context, ideas and report never change |
| Client.MaterialIntelligence.RunUpload | backend/app/routers/client.py:500-512 | as written, every upload fails: a guardrail trip is a 400, anything else unhandled, because the report step calls the writer's `Report` object; the analysis and the searches' transcript items are still stored |
| Client.MaterialIntelligence.RunUploadIntended | backend/app/routers/client.py:500-512 | with the intended report step, an analysed upload returns the writer's report, and the session changes as in RunUpload |
| ShinanMcp.ItemText | backend/app/shinan_mcp.py:86-98 | an item's text is its first entry's text, or "No content available" when that text is missing or empty, and never "" |
| ShinanMcp.FileSearch | backend/app/shinan_mcp.py:62-114 | a missing or blank query gives no results; otherwise one shaped result per hit, in order |
| ShinanMcp.ShapeResults | backend/app/shinan_mcp.py:80-111 | the loop gives one result per hit, the i-th shaped from the i-th hit |
| ShinanMcp.SnippetBounds | backend/app/shinan_mcp.py:101-102 | a snippet has at most 203 characters; a short text is kept; a long one is its first 200 characters and "..." |
| ShinanMcp.SnippetIdempotent | backend/app/shinan_mcp.py:101-102 | shortening a snippet again changes nothing |
| ShinanMcp.ShapeItemFields | backend/app/shinan_mcp.py:83-109 | the id defaults to `vs_<i>` and the title to `Document <i+1>`; present attributes are used as they are; the url is the files URL followed by the id |
| ShinanMcp.DefaultIdsDistinct | backend/app/shinan_mcp.py:83 | hits without file ids at different positions get different ids |
| ShinanMcp.Metadata | backend/app/shinan_mcp.py:176-181 | the metadata is the file's attributes exactly when it has non-empty ones, otherwise None |
| ShinanMcp.FileFetch | backend/app/shinan_mcp.py:138-184 | an empty id raises "Document ID is required" and only then; otherwise the id, the files URL, the chunk texts joined by newlines (the placeholder for an empty response), the filename or `Document <id>` as title, and the metadata |
| ShinanMcp.FetchedTextLines | backend/app/shinan_mcp.py:160-164 | when no chunk text spans lines, the document's lines are the chunk texts in order |
| ShinanMcp.ChunkTextsCount | backend/app/shinan_mcp.py:161-163 | the texts are those of exactly the chunks that have one, never more than the chunks |
| ShinanMcp.TextlessChunksNoLines | backend/app/shinan_mcp.py:158-163 | chunks without text contribute no lines |
| ShinanMcp.TextlessChunksGiveEmptyText | backend/app/shinan_mcp.py:158-166 | a non-empty response whose chunks all lack text gives "", not the placeholder |
| Chat.Step | frontend/app/components/Chat.tsx:88-117 | handling a chunk keeps the stream state well formed: a bubble is open whenever streaming |
| Chat.Consume | frontend/app/components/Chat.tsx:82-118 | handling chunks one after another keeps the stream state well formed |
| Chat.ConsumeKeepsEarlier | frontend/app/components/Chat.tsx:88-117 | chunks never remove bubbles and change only the last bubble before them, and only when it is streaming |
| Chat.StreamingOpened | frontend/app/components/Chat.tsx:94-99 | streaming after a non-streaming start means a bubble was added |
| Chat.ConsumeKeepsLength | frontend/app/components/Chat.tsx:88-117 | chunks never remove bubbles |
| Chat.StreamedConcatenation | frontend/app/components/Chat.tsx:101-111 | while streaming, unmarked chunks are appended, in order, to the last bubble and nothing else changes |
| Chat.UpdateChunks | frontend/app/components/Chat.tsx:88-92 | a run of `UPDATE ` chunks adds one update bubble per chunk, in order, and ends not streaming |
| Chat.SendTranscriptShape | frontend/app/components/Chat.tsx:55-121 | the user's bubble follows the earlier bubbles; a failure ends with the error bubble; a failure before any chunk leaves just the user and error bubbles |
| Chat.ChatPanel.constructor | frontend/app/components/Chat.tsx:30-33 | an empty input, no bubbles, not loading, no error |
| Chat.ChatPanel.SendMessage | frontend/app/components/Chat.tsx:44-125 | a blank input or a missing context changes nothing; otherwise the input is sent and cleared, the bubbles follow the send transcript, the error text is set exactly when something raised, and loading ends off |
| Chat.ChatPanel.Receive | frontend/app/components/Chat.tsx:62-118 | a network failure, a non-2xx status, a missing body or a read failure raises the matching error; the delivered chunks are handled in order |
| Chat.ChatPanel.ReadChunks | frontend/app/components/Chat.tsx:82-118 | the read loop leaves exactly the bubbles that handling the chunks one by one gives |
| Chat.ChatPanel.OnResult | frontend/app/components/Chat.tsx:285-303 | an upload result adds one bot bubble per shown content item of a JSON array, or the raw result when it is not an array |
| Chat.ChatPanel.AddParts | frontend/app/components/Chat.tsx:291-297 | the inner loop adds exactly the bubbles of the shown items, in order |
| Chat.ItemsMessagesAreShown | frontend/app/components/Chat.tsx:291-297 | only text items and images with a URL show, each as one bot bubble, in order |
| ContextPrompt.TrimAll | frontend/app/components/ContextPrompt.tsx:29 | each piece is trimmed, in place |
| ContextPrompt.HandleSubmit | frontend/app/components/ContextPrompt.tsx:18-31 | nothing is submitted exactly when a field is blank, and then the error is set and the form stays; otherwise the error clears, the form hides and the trimmed company, the trimmed role and the interests are submitted |
| ContextPrompt.NonEmptyMembers | frontend/app/components/ContextPrompt.tsx:29 | `filter(Boolean)` never lengthens the list, keeps only non-empty strings, and keeps every non-empty one |
| ContextPrompt.NonEmptyKeepsAll | frontend/app/components/ContextPrompt.tsx:29 | a list without empty strings passes `filter(Boolean)` whole |
| ContextPrompt.NonEmptyDropsAll | frontend/app/components/ContextPrompt.tsx:29 | a list of empty strings filters to nothing |
| ContextPrompt.NonEmptyProperties | frontend/app/components/ContextPrompt.tsx:29 | `filter(Boolean)` keeps exactly the non-empty strings, never adds any, and keeps a list without empties whole |
| ContextPrompt.InterestsCount | frontend/app/components/ContextPrompt.tsx:29 | no more interests than commas plus one |
| ContextPrompt.InterestsAreTrimmedPieces | frontend/app/components/ContextPrompt.tsx:29 | the interests are exactly the non-empty trimmed pieces, each without outer whitespace |
| ContextPrompt.TrimmedStayTrimmed | frontend/app/components/ContextPrompt.tsx:29 | trimmed pieces are already trimmed |
| ContextPrompt.InterestsKeepOrder | frontend/app/components/ContextPrompt.tsx:29 | with no blank piece, every piece is kept, trimmed, in the original order |
| ContextPrompt.OnlyCommas | frontend/app/components/ContextPrompt.tsx:20-29 | a field of only commas passes the blank check yet gives no interests |
| ContextPrompt.CommaPiecesEmpty | frontend/app/components/ContextPrompt.tsx:29 | splitting only commas on commas gives only empty pieces |
| SoftBank.EntryUrlsMembers | backend/app/tools/sb_blogs_store/softbank.py:16-20 | a URL is collected exactly when it is the site root followed by an entry href of the page |
| SoftBank.GetArticleLinks | backend/app/tools/sb_blogs_store/softbank.py:9-22 | the links have no duplicates, are exactly the site root followed by each entry href, and are no more than the anchors |
| SoftBank.EntryUrlsLength | backend/app/tools/sb_blogs_store/softbank.py:16-20 | never more URLs than anchors |
| SoftBank.Dedup | backend/app/tools/sb_blogs_store/softbank.py:22 | de-duplication keeps every element exactly once and adds nothing |
| SoftBank.SanitiseTitle | backend/app/tools/sb_blogs_store/softbank.py:27 | the stripped title with every space and slash turned into `_`, the same length, every other character in place |
| SoftBank.PathsOfTitle | backend/app/tools/sb_blogs_store/softbank.py:28-29 | the PDF of a sanitised title lands in the working directory, the HTML copy directly under `/tmp/` |
| SoftBank.Download | backend/app/tools/sb_blogs_store/softbank.py:24-36 | an article is saved exactly when it has a title and writing works, as the PDF path of its sanitised title |
| SoftBank.DownloadAll | backend/app/tools/sb_blogs_store/softbank.py:38-45 | each link is downloaded in turn; the saved PDFs and the reported failures are those of every link, in order |
| SoftBank.EveryLinkTried | backend/app/tools/sb_blogs_store/softbank.py:41-45 | every link ends up either saved or reported |
| SoftBank.FailureDoesNotStop | backend/app/tools/sb_blogs_store/softbank.py:41-45 | a failure does not keep any other link from being saved, and exactly the failing links are reported |
| EndToEnd.SubmittedContextAccepted | frontend/app/components/ContextPrompt.tsx:26-30 | if what the form submits were posted to `/context`, it would pass validation unchanged |
| EndToEnd.CommaOnlyInterestsStoredEmpty | backend/app/routers/client.py:722 | a comma-only interests field, if posted to `/context`, would be accepted as an empty interests list |
| EndToEnd.IdeaProgressShown | frontend/app/components/Chat.tsx:88-92 | when the panel talks to `/query`, the idea phase's progress shows as update bubbles, one each, in order |
| EndToEnd.SearchProgressShown | frontend/app/components/Chat.tsx:88-92 | when the panel talks to `/query`, a search worker's progress shows as update bubbles, one each, in order |
| EndToEnd.ContextMessageShown | backend/app/routers/client.py:296-299 | when the panel talks to `/query`, the context confirmation shows without its marker |
| EndToEnd.SearchCompleteShown | backend/app/routers/client.py:442 | when the panel talks to `/query`, the search completion message has no marker, so it shows as a bot bubble |
| EndToEnd.ReportShown | backend/app/routers/client.py:485-488 | when the panel talks to `/query`, the report shows as the completion update followed by a bot bubble with its text |

## Left out

- Concurrency is not modelled. This covers `asyncio.create_task`,
  `Queue` blocking, the task cancellation and `gather` clean-up, and the
  `sleep` delays. The merge is modelled over an arbitrary interleaving of
  the workers' puts.
- Client.TextIntelligence.OverallSearchInOrder: runs the workers one after
  another, in launch order. This is one schedule of the queue.
  `Merge.MergeOfWorkers` covers every schedule for the output, but not the
  order of the transcript or the MCP counter under other schedules.
- The Agents SDK runs are not modelled. This covers `Runner.run`,
  `run_streamed`, stream events, guardrails, `to_input_list` and
  `final_output_as`.
  - Each run is an input: the events the code reacts to, and the outcome.
  - Text deltas and other events are one "other" event that yields
    nothing.
  - An agent's input list is an opaque sequence of transcript items.
  - The SDK checks a run's final output against the agent's `output_type`. A mistyped output is therefore a stream failure before the thanks message. `final_output_as(TextSearchIdeas)` at client.py:306 then only casts, so `set_text_ideas` never stores a wrong-typed value.
- Agent and prompt definitions have no behaviour of their own and are not
  part of this model.
- `run_deep_research`, `run_messages` and their routes are thin calls to
  the OpenAI client and are not part of this model. So the chat panel's
  choice of endpoint is not modelled: the response is an input.
- Library plumbing is left out: FastAPI routing, `StreamingResponse`,
  the MCP server transport, the vector-store API, `requests`, BeautifulSoup
  and pdfkit. An `HTTPException` is an error result. An exception the
  route does not handle is `Unhandled`.
- The `openai_client` checks in the MCP tools are left out. The client
  object is created at start-up, so these checks do not fail here.
- fitz, PIL, pytesseract and base64 are left out:
  - a page is its text and its base64 image;
  - OCR is an optional text, None when it fails.
- Material.PdfHybridToMaterial: `max_pages` is unused in the code, so every
  page is converted, as written. The PNG bytes of a page are labelled
  `image/jpeg`, as written.
- The whitespace sets of Python's `strip` and JavaScript's `trim` are
  modelled by one predicate. It holds the ASCII whitespace and the Unicode
  space separators both functions strip. The separators only one of them
  strips (for example U+001C to U+001F for Python, U+FEFF for JavaScript)
  are not modelled.
- The toast in `sendMessage` is left out, and so are the `agentStep`
  state, rendering and scrolling. `!messages` never holds for an array, so
  the toast never shows.
- `TextDecoder` chunk boundaries are not modelled. Each yielded string
  arrives as exactly one chunk; a network can split or merge chunks.
- JSON parsing is not modelled: the parsed result is an input. FastAPI's
  body validation is not modelled either: `/context` receives a parsed
  `ShinanContext`, and a body it cannot parse is answered 422 before the
  handler.
- Client.TextIntelligence.GenerateReport: the writer's run is the events
  it delivers before it raises and whether it raises. Which event raises
  (a web search call without an action, a stream error) is not told
  apart.
- The frontend does not post the context form to `/context`, and the chat
  panel's default mode calls `/deep_research`. The EndToEnd facts about
  `/context` and `/query` hold for a client that does call them.
- Chat.ChatPanel.OnResult: a `null` element in the parsed array, which
  would raise a `TypeError`, is not modelled.
- `FileUpload` in this snapshot does not pass its result to the chat
  panel, so `onResult` is never called. OnResult models the handler as
  written.
- SoftBank.GetArticleLinks: the order of `list(set(...))` is not specified
  by Python. The contract holds for any order. `Dedup` keeps first
  occurrences, which is one such order.
- SoftBank.Download: the HTML file write, the PDF conversion and the
  removal of the HTML copy are one `saves` flag. A page without a
  `<title>` raises, like a failed write.
- Client.MaterialIntelligence.ResearchWeb: the tasks complete in
  `as_completed` order. The model takes the outcomes in one given order
  and does not tie each outcome to its idea.
- The `__main__` printing of the scraper is left out, and so are the
  `print` and logging calls.

## Findings

| source | as written | input that shows it | evidently intended | confidence | as-written member | corrected member |
|---|---|---|---|---|---|---|
| backend/app/routers/client.py:569 | `return result.final_output()` calls the agent's output | any upload whose writer run succeeds: its output is a `Report` object, and calling it raises `TypeError` ('Report' object is not callable), so `/upload` fails after all searches are done | `return result.final_output.report`, the report text | not executed | Client.MaterialIntelligence.RunUpload | Client.MaterialIntelligence.RunUploadIntended |
