/**
 * The two-step exchange with the MCP tool server (`callMcpTool` in the chat route):
 * list the tools, call the first one with the user's text, join its text items.
 * The server is abstract: its answer to the listing and its answer to each call are inputs.
 */
module McpClient {
  import opened Wrappers
  import opened Text

  /** The JSON-RPC style requests the client POSTs to the tool server. */
  datatype McpRequest = ListTools | CallTool(name: string, input: string)

  datatype ToolDescriptor = ToolDescriptor(name: string)

  /**
   * What the listing request produced: it threw, the server answered with a non-2xx status, or
   * it answered with `result.tools` (a missing list reads as empty). `ListRejected` carries the
   * message of whatever threw: the fetch itself rejecting, `json()` rejecting on a reply that is
   * not JSON, or a TypeError from a `result` of an unexpected shape.
   */
  datatype ListResponse = ListRejected(reason: string) | ListNotOk | ListOk(tools: seq<ToolDescriptor>)

  /** One item of `result.content`; an item without `text` joins as the empty string. */
  datatype ContentItem = ContentItem(text: Option<string>)

  /**
   * What the call request produced, in the same three forms. `CallRejected` likewise stands for
   * every throw: the fetch, `json()` on a non-JSON reply, or a `content` of an unexpected shape.
   */
  datatype CallResponse = CallRejected(reason: string) | CallNotOk | CallOk(content: seq<ContentItem>)

  /** The four ways the exchange ends. */
  datatype ToolOutcome =
    | ListFailed(message: string)
    | NoTools
    | CallFailed(message: string)
    | Content(items: seq<ContentItem>)

  /** The requests sent, in order, and how the exchange ended. */
  datatype Exchange = Exchange(sent: seq<McpRequest>, outcome: ToolOutcome)

  const ListFailedMessage := "Failed to list MCP tools"
  const NoToolsMessage := "No tools available on MCP server"
  const CallFailedMessage := "Failed to call MCP tool"
  const EmptyReplyText := "No response from MCP tool"

  /**
   * Runs the exchange: the listing is always sent; the call is sent only when the listing
   * succeeded with at least one tool, and then it names the first tool and carries the input.
   */
  function RunExchange(input: string, listing: ListResponse, call: McpRequest -> CallResponse): (r: Exchange)
    ensures |r.sent| >= 1 && r.sent[0] == ListTools
    ensures |r.sent| == 2 <==> listing.ListOk? && |listing.tools| > 0
    ensures |r.sent| <= 2
    ensures |r.sent| == 2 ==> r.sent[1] == CallTool(listing.tools[0].name, input)
    ensures r.outcome.ListFailed? <==> !listing.ListOk?
    ensures r.outcome.NoTools? <==> listing.ListOk? && |listing.tools| == 0
    ensures r.outcome.Content? ==> call(r.sent[1]).CallOk? && r.outcome.items == call(r.sent[1]).content
    ensures r.outcome.CallFailed? ==> |r.sent| == 2 && !call(r.sent[1]).CallOk?
  {
    match listing
    case ListRejected(reason) => Exchange([ListTools], ListFailed(reason))
    case ListNotOk => Exchange([ListTools], ListFailed(ListFailedMessage))
    case ListOk(tools) =>
      if |tools| == 0 then Exchange([ListTools], NoTools)
      else
        var req := CallTool(tools[0].name, input);
        match call(req)
        case CallRejected(reason) => Exchange([ListTools, req], CallFailed(reason))
        case CallNotOk => Exchange([ListTools, req], CallFailed(CallFailedMessage))
        case CallOk(content) => Exchange([ListTools, req], Content(content))
  }

  /** The text of each item, missing text as the empty string. */
  function Texts(items: seq<ContentItem>): seq<string>
  {
    seq(|items|, k requires 0 <= k < |items| => if items[k].text.Some? then items[k].text.value else "")
  }

  /**
   * The tool's reply as one string, or the error the exchange throws: items joined by a
   * newline, with a fixed notice when that join is empty.
   */
  function ToolText(outcome: ToolOutcome): (r: Result<string>)
    ensures outcome.ListFailed? || outcome.CallFailed? ==> r == Err(outcome.message)
    ensures outcome.NoTools? ==> r == Err(NoToolsMessage)
    ensures outcome.Content? ==> r.Ok? && r.value != []
    ensures outcome.Content? && Join(Texts(outcome.items), "\n") != [] ==> r.value == Join(Texts(outcome.items), "\n")
    ensures outcome.Content? && Join(Texts(outcome.items), "\n") == [] ==> r == Ok(EmptyReplyText)
  {
    match outcome
    case ListFailed(m) => Err(m)
    case NoTools => Err(NoToolsMessage)
    case CallFailed(m) => Err(m)
    case Content(items) =>
      var joined := Join(Texts(items), "\n");
      Ok(if joined == [] then EmptyReplyText else joined)
  }

  /** `callMcpTool`: the requests it sends and the text it returns or the error it throws. */
  function CallMcpTool(input: string, listing: ListResponse, call: McpRequest -> CallResponse): (r: (seq<McpRequest>, Result<string>))
    ensures listing.ListRejected? ==> r == ([ListTools], Err(listing.reason))
    ensures listing.ListNotOk? ==> r == ([ListTools], Err(ListFailedMessage))
    ensures listing == ListOk([]) ==> r == ([ListTools], Err(NoToolsMessage))
    ensures listing.ListOk? && |listing.tools| > 0 ==>
      var req := CallTool(listing.tools[0].name, input);
      && r.0 == [ListTools, req]
      && (call(req).CallRejected? ==> r.1 == Err(call(req).reason))
      && (call(req).CallNotOk? ==> r.1 == Err(CallFailedMessage))
      && (call(req).CallOk? ==>
            && r.1.Ok? && r.1.value != []
            && (Join(Texts(call(req).content), "\n") != [] ==> r.1.value == Join(Texts(call(req).content), "\n"))
            && (Join(Texts(call(req).content), "\n") == [] ==> r.1.value == EmptyReplyText))
  {
    var ex := RunExchange(input, listing, call);
    (ex.sent, ToolText(ex.outcome))
  }

  /** An empty tool list ends the exchange with the no-tools error before any call is sent. */
  lemma EmptyListingSendsNoCall(input: string, call: McpRequest -> CallResponse)
    ensures CallMcpTool(input, ListOk([]), call) == ([ListTools], Err(NoToolsMessage))
  {
  }

  /**
   * The reply is the fixed notice exactly when the items join to nothing (no items, or a single
   * empty one) or happen to join to the notice's own text.
   */
  lemma EmptyReplyIff(items: seq<ContentItem>)
    ensures ToolText(Content(items)) == Ok(EmptyReplyText)
        <==> |items| == 0 || (|items| == 1 && Texts(items)[0] == []) || Join(Texts(items), "\n") == EmptyReplyText
  {
    JoinEmptyIff(Texts(items), "\n");
  }
}
