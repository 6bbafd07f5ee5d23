/** The streamed Responses translation against the batch one, for every cutting of a message. */
module ChatResponsesRefinement {
  import opened Basics
  import opened ChatWire
  import opened ChatResponses

  /** A tool call on which both translations agree: the batch one accepts it, its id is not
      blank, and its arguments have no outer white space. */
  ghost predicate AgreeableTool(t: ChatTool, json: string -> bool) {
    && (t.kind == "" || t.kind == "function") && Trim(t.id) != "" && t.name != ""
    && (t.args == "" || (json(t.args) && Trim(t.args) == t.args))
  }

  /** The messages on which both translations agree. */
  ghost predicate Agreeable(m: ChatMessage, json: string -> bool) {
    && (m.text != "" || m.tools != [])
    && m.finish != "length" && m.finish != "content_filter"
    && forall i :: 0 <= i < |m.tools| ==> AgreeableTool(m.tools[i], json)
  }

  lemma {:induction false} StreamOutputAt(h: seq<Chunk>, status: string, order: seq<int>)
    requires forall i :: i in order ==> i in Indexes(Deltas(h))
    ensures |StreamOutput(h, status, order)| == |TextItems(h, status)| + |order|
    ensures forall k :: 0 <= k < |TextItems(h, status)| ==> StreamOutput(h, status, order)[k] == TextItems(h, status)[k]
    ensures forall k :: 0 <= k < |order| ==>
              order[k] in Indexes(Deltas(h))
              && StreamOutput(h, status, order)[|TextItems(h, status)| + k] == CallOf(h, order[k], status)
  {
    hide CallOf, TextItems, Deltas, Indexes;
    if order != [] {
      assert forall k :: 0 <= k < |order| ==> order[k] in order;
      StreamOutputAt(h, status, order[..|order| - 1]);
    }
  }

  lemma BlankIsNotEmptyObject()
    ensures Trim("{}") == "{}"
  {
  }

  /** One tool of a cutting that ends normally. */
  lemma ToolAgrees(h: seq<Chunk>, m: ChatMessage, i: nat, json: string -> bool)
    requires Cuts(h, m) && i < |m.tools| && json("{}")
    ensures i in Indexes(Deltas(h))
    ensures (&& json(CheckedArgs(h, i)) && ToolToItem(m.tools[i], json).Ok?
             && CallOf(h, i, "completed") == ToolToItem(m.tools[i], json).value)
            <==> AgreeableTool(m.tools[i], json)
  {
    hide Trim, ArgsOf, NameOf, FirstOf, Content, Finish, Accepted, Deltas;
    var t := m.tools[i];
    assert CutsTool(Deltas(h), i, t);
    NameOfCut(Deltas(h), i, t.name);
    MadeUpIdIsNotBlank(i);
    BlankIsNotEmptyObject();
    TrimEmpty();
  }

  lemma TrimEmpty()
    ensures Trim("") == ""
  {
  }

  /** The streamed output is the batch output exactly on the agreeable messages: for every
      way of cutting `m` into chunks, both translations succeed and their terminal output
      items are equal if and only if the message is not empty, was not cut short, and all its
      tool calls are agreeable. Status and incomplete reason always agree. */
  lemma StreamRefinesBatch(h: seq<Chunk>, m: ChatMessage, json: string -> bool, order: seq<int>)
    requires Cuts(h, m) && Lists(order, Indexes(Deltas(h))) && json("{}")
    ensures (&& Completable(h, json) && AllToolsTranslate(m.tools, json)
             && StreamOutput(h, StatusOf(m.finish), order) == BatchOutput(m, json))
            <==> Agreeable(m, json)
    ensures StatusOf(Finish(h).value) == StatusOf(m.finish)
            && IncompleteReason(Finish(h).value) == IncompleteReason(m.finish)
  {
    hide Trim, ArgsOf, NameOf, FirstOf, Content, Finish, Accepted, Deltas, StreamOutput, CallOf, ToolToItem,
         CheckedArgs, CutsTool;
    var status := StatusOf(m.finish);
    OrderOfCut(h, m, order);
    IndexesOfCut(h, m);
    StreamOutputAt(h, status, order);
    if Agreeable(m, json) {
      forall i: nat | i < |m.tools|
        ensures ToolToItem(m.tools[i], json).Ok? && json(CheckedArgs(h, i))
        ensures CallOf(h, i, status) == ToolToItem(m.tools[i], json).value
      {
        ToolAgrees(h, m, i, json);
      }
      var s, b, head := StreamOutput(h, status, order), BatchOutput(m, json), TextItems(h, status);
      forall k | 0 <= k < |b| ensures s[k] == b[k] {
        if k >= |head| { assert s[|head| + (k - |head|)] == CallOf(h, order[k - |head|], status); }
      }
      assert s == b;
    } else if Completable(h, json) && AllToolsTranslate(m.tools, json)
              && StreamOutput(h, status, order) == BatchOutput(m, json) {
      EqualOutputsAgree(h, m, json, order);
    }
  }

  lemma EqualOutputsAgree(h: seq<Chunk>, m: ChatMessage, json: string -> bool, order: seq<int>)
    requires Cuts(h, m) && Lists(order, Indexes(Deltas(h))) && json("{}")
    requires Completable(h, json) && AllToolsTranslate(m.tools, json)
    requires StreamOutput(h, StatusOf(m.finish), order) == BatchOutput(m, json)
    ensures Agreeable(m, json)
  {
    hide Trim, ArgsOf, NameOf, FirstOf, Content, Finish, Accepted, Deltas, StreamOutput, CheckedArgs, CutsTool;
    var status := StatusOf(m.finish);
    OrderOfCut(h, m, order);
    IndexesOfCut(h, m);
    StreamOutputAt(h, status, order);
    var s, b := StreamOutput(h, status, order), BatchOutput(m, json);
    if m.text != "" {
      assert s[0] == TextItems(h, status)[0];
    } else if m.tools != [] {
      assert s[0 + 0] == CallOf(h, order[0], status);
    }
    assert s[0] == b[0];
    forall i | 0 <= i < |m.tools| ensures AgreeableTool(m.tools[i], json) {
      ToolAgrees(h, m, i, json);
      assert s[|TextItems(h, status)| + i] == b[|TextItems(h, status)| + i];
    }
  }
}
