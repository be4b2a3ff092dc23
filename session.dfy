/**
 * The per-process session of the backend (`ShinanSessionManager`): the
 * user's context, the transcript of input items handed to every agent
 * run, the last text search ideas, the last material analysis and the
 * last report. A plain state holder: every operation is a read or an
 * assignment of one field, and the transcript grows only by appending.
 */
module Session {

  /** `ShinanContext`: who the user is and what interests them. */
  datatype Context = Context(company: string, role: string, interests: seq<string>)

  /** One transcript entry, `{"content": ..., "role": ...}`. */
  datatype InputItem = InputItem(content: string, role: string)

  /** A search idea produced by an idea agent (text or material flow). */
  datatype Idea = Idea(query: string, reasoning: string)

  /** A material insight point produced by the material agent. */
  datatype Insight = Insight(materialAnalysis: string, pointOfInterest: string, reasoning: string)

  /** `Analysis`: the material agent's search ideas and insights. */
  datatype Analysis = Analysis(ideas: seq<Idea>, insights: seq<Insight>)

  function AssistantItem(content: string): InputItem {
    InputItem(content, "assistant")
  }

  function UserItem(content: string): InputItem {
    InputItem(content, "user")
  }

  /** The context a fresh session starts with. */
  const DefaultContext := Context("SoftBank", "Intern", ["AI", "Strategy"])

  class SessionManager {
    var context: Context
    var inputItems: seq<InputItem>
    var textIdeas: seq<Idea>
    var analysis: Analysis
    var report: string

    constructor ()
      ensures context == DefaultContext
      ensures inputItems == [] && textIdeas == []
      ensures analysis == Analysis([], []) && report == ""
    {
      context := DefaultContext;
      inputItems := [];
      textIdeas := [];
      analysis := Analysis([], []);
      report := "";
    }

    method GetContext() returns (c: Context)
      ensures c == context
    {
      c := context;
    }

    method SetContext(c: Context)
      modifies this
      ensures context == c
      ensures inputItems == old(inputItems) && textIdeas == old(textIdeas)
      ensures analysis == old(analysis) && report == old(report)
    {
      context := c;
    }

    method GetInputItems() returns (items: seq<InputItem>)
      ensures items == inputItems
    {
      items := inputItems;
    }

    /** Replaces the whole transcript. */
    method SetInputItems(items: seq<InputItem>)
      modifies this
      ensures inputItems == items
      ensures context == old(context) && textIdeas == old(textIdeas)
      ensures analysis == old(analysis) && report == old(report)
    {
      inputItems := items;
    }

    /** Appends one item at the end; the earlier items stay as they were. */
    method AddInputItem(item: InputItem)
      modifies this
      ensures inputItems == old(inputItems) + [item]
      ensures |inputItems| == |old(inputItems)| + 1 && inputItems[..|old(inputItems)|] == old(inputItems)
      ensures context == old(context) && textIdeas == old(textIdeas)
      ensures analysis == old(analysis) && report == old(report)
    {
      inputItems := inputItems + [item];
      assert inputItems[..|old(inputItems)|] == old(inputItems);
    }

    method SetTextIdeas(ideas: seq<Idea>)
      modifies this
      ensures textIdeas == ideas
      ensures context == old(context) && inputItems == old(inputItems)
      ensures analysis == old(analysis) && report == old(report)
    {
      textIdeas := ideas;
    }

    method SetAnalysis(a: Analysis)
      modifies this
      ensures analysis == a
      ensures context == old(context) && inputItems == old(inputItems)
      ensures textIdeas == old(textIdeas) && report == old(report)
    {
      analysis := a;
    }

    method SetReport(r: string)
      modifies this
      ensures report == r
      ensures context == old(context) && inputItems == old(inputItems)
      ensures textIdeas == old(textIdeas) && analysis == old(analysis)
    {
      report := r;
    }
  }
}
