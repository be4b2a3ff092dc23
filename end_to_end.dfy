/**
 * Facts that span the frontend and the backend, each under a wiring the
 * repository does not fix:
 *   - if the context the form submits is posted to `/context` (nothing
 *     in the frontend posts it there), the handler accepts it and stores
 *     it as it is;
 *   - when the chat panel talks to `/query` (its mode "old"; the default
 *     mode "new" posts to `/deep_research`), it shows the chunks the
 *     query pipeline yields as below, each yielded string arriving as
 *     one chunk.
 */
module EndToEnd {
  import opened Wrappers
  import opened Text
  import opened Session
  import opened ClientFormat
  import opened Merge
  import opened Client
  import opened Chat
  import opened ContextPrompt

  /** Posted to `/context`, whatever the form submits passes the handler's check and is stored as it is. */
  lemma SubmittedContextAccepted(form: Form, show: bool)
    requires HandleSubmit(form, show).submitted.Some?
    ensures var c := HandleSubmit(form, show).submitted.value;
      ValidateContext(c) == Success(c)
  {
    TrimEmptyIffBlank(form.company);
    TrimEmptyIffBlank(form.role);
  }

  /** Posted to `/context`, a comma-only interests field is accepted and stored as an empty interests list. */
  lemma CommaOnlyInterestsStoredEmpty(form: Form)
    requires !IsBlank(form.company) && !IsBlank(form.role)
    requires form.interests != [] && forall k | 0 <= k < |form.interests| :: form.interests[k] == ','
    ensures HandleSubmit(form, true).submitted.Some?
    ensures ValidateContext(HandleSubmit(form, true).submitted.value)
      == Success(Context(Trim(form.company), Trim(form.role), []))
  {
    OnlyCommas(form.interests);
    SubmittedContextAccepted(form, true);
  }

  function UpdateBubbles(chunks: seq<string>): seq<Message> {
    seq(|chunks|, i requires 0 <= i < |chunks| => Message(UpdateRole, SliceFrom(chunks[i], 7)))
  }

  /** Talking to `/query`, the panel shows the idea phase's progress messages as update bubbles, one each, in order. */
  lemma IdeaProgressShown(s: StreamState, events: seq<IdeaEvent>)
    requires Valid(s) && IdeaStreamYields(events) != []
    ensures Consume(s, IdeaStreamYields(events)) ==
      StreamState(s.messages + UpdateBubbles(IdeaStreamYields(events)), false)
  {
    IdeaStreamYieldsAreUpdates(events);
    UpdateChunks(s, IdeaStreamYields(events));
  }

  /** Talking to `/query`, the panel shows a search worker's progress messages as update bubbles, one each, in order. */
  lemma SearchProgressShown(s: StreamState, query: string, events: seq<SearchEvent>, k: nat)
    requires Valid(s) && SearchUpdates(query, events, k) != []
    ensures Consume(s, SearchUpdates(query, events, k)) ==
      StreamState(s.messages + UpdateBubbles(SearchUpdates(query, events, k)), false)
  {
    SearchUpdatesAreUpdates(query, events, k);
    UpdateChunks(s, SearchUpdates(query, events, k));
  }

  /** Talking to `/query`, the panel shows the context confirmation without its marker. */
  lemma ContextMessageShown(company: string, role: string, interests: seq<string>)
    ensures SliceFrom(ContextMessage(company, role, interests), 7) ==
      company + "で" + role + "としてお勤めで、" + FormatInterests(interests) + "にご興味があるのですね。承知しました!"
  {
  }

  /**
   * Talking to `/query`: the search completion message carries no
   * marker, so after the progress bubbles it shows as a bot bubble of
   * its own.
   */
  lemma SearchCompleteShown(s: StreamState)
    requires Valid(s) && !s.streaming
    ensures Consume(s, [SearchCompleteMessage]) == StreamState(s.messages + [Message(BotRole, SearchCompleteMessage)], false)
  {
    assert [SearchCompleteMessage][..0] == [];
    assert SearchCompleteMessage[0] != 'U' && SearchCompleteMessage[0] != 'S';
  }

  /** Talking to `/query`, the panel shows the report's completion update and its text as an update bubble and a bot bubble. */
  lemma ReportShown(s: StreamState, text: string)
    requires Valid(s) && !Marked(text)
    ensures Consume(s, [ReportDoneMessage, text]).messages ==
      s.messages + [Message(UpdateRole, ReportDoneText), Message(BotRole, text)]
  {
    var chunks := [ReportDoneMessage, text];
    ConsumeStep(s, chunks, 0);
    ConsumeStep(s, chunks, 1);
    assert chunks[..0] == [] && chunks[..2] == chunks;
    assert ReportDoneMessage[..7] == UpdatePrefix && ReportDoneMessage[7..] == ReportDoneText;
    StepEffect(s, ReportDoneMessage);
    StepEffect(Step(s, ReportDoneMessage), text);
  }
}
