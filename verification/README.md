# Streaming chat gateway — a Dafny model

This project models the parts of the kk-agent chat application that make decisions:

- **The chat route** (`POST /api/chat`). It picks the last user message. It chooses one response
  source: the MCP tool server, the fal proxy, or a hosted model (groq or the xai default). It puts
  the system preamble in front of the conversation. Any failure becomes one `"Error: …"` chunk of
  an event stream.
- **The MCP exchange** (`callMcpTool`). It lists the tools, calls the first one with the user's
  text, and joins the text items of the reply.
- **The chat page's submit handler** (`handleSubmit`). It validates the input and appends the
  trimmed user turn. It then folds the streamed chunks into a single trailing assistant turn, and
  turns failures into a visible error instead of an invented reply.
- **The provider marketplace endpoints.** The listing stamps an `installed` flag onto a fixed
  catalogue. The install endpoint is an idempotent, validated insert into the installed list. The
  connect endpoint maps a provider id to a redirect URL.

The model is purely functional. The network, the hosted models, the proxy and the tool server
are inputs:

- the model's text stream is a `seq<string>`;
- the proxy's response is an opaque `RawResponse`;
- the tool server is given by its answer to the listing and a function from call request to answer;
- the page's fetch result is a `FetchResult`: rejected, no body, or a sequence of reads followed
  by a close or a read failure.

The shared `installedProviders` list is an explicit state value. The system preamble and the
catalogue are read-only configuration values. `ChatRoute.SystemPrompt` and `Providers.Catalogue`
hold their deployed contents. `ServeProviders` applies the catalogue. `ServePost` applies the
preamble to the corrected handler `Post`. The handler as written differs on the fal path only;
see `## Findings`.

Modules: `Wrappers` (Option, Result), `Text` (the JavaScript string operations used: `trim`,
ASCII `toLowerCase`, `includes`, `join`), `Messages`, `McpClient`, `ChatRoute`, `ChatUI`,
`Providers`, `ProviderInstall`, `ProviderConnect`.

## Model

| member | source | states |
|---|---|---|
| Text.TrimEmptyIff | app/components/ChatUI.tsx:76 | the trimmed input is empty exactly when every character of the input is whitespace, so only all-blank input is refused |
| Text.TrimShape | app/components/ChatUI.tsx:78 | the text stored in the user turn is a contiguous piece of the input whose first and last characters are not blank, and everything cut off before and after it is whitespace |
| Text.ContainsIff | app/api/chat/route.ts:106 | the substring test used for routing holds exactly when the keyword occurs at some position of the text |
| Text.LowerPreservesOccurrence | app/api/chat/route.ts:106 | lowercasing keeps an occurrence: if `p` occurs in `s`, then lower(`p`) occurs in lower(`s`) |
| McpClient.RunExchange | app/api/chat/route.ts:46-86 | the listing is always sent first; the call is sent only when the listing succeeded with at least one tool, names the first tool and carries the user's text; the outcome is list-failed, no-tools, call-failed or the call's content, as the responses dictate |
| McpClient.ToolText | app/api/chat/route.ts:56-89 | failures yield their message, an empty listing yields "No tools available on MCP server", content yields a non-empty text: the newline-joined items, or "No response from MCP tool" when that join is empty |
| McpClient.CallMcpTool | app/api/chat/route.ts:42-90 | for every listing and call answer: the requests sent, and the text returned or the message thrown ("Failed to list MCP tools", "No tools available on MCP server", "Failed to call MCP tool", or a rejected fetch's own message) |
| McpClient.EmptyListingSendsNoCall | app/api/chat/route.ts:60-64 | an empty tool list sends only the listing request and throws the no-tools error |
| McpClient.EmptyReplyIff | app/api/chat/route.ts:86-87 | the fallback notice is returned exactly when there are no items, a single empty item, or items that join to the notice's own text |
| ChatRoute.LastUserContentIsLast | app/api/chat/route.ts:102 | the selected text is the content of the last message whose role is user, and the empty string when there is none |
| ChatRoute.TrailingNonUserIgnored | app/api/chat/route.ts:102 | assistant and system messages after the last user message do not change the selected text |
| ChatRoute.Outbound | app/api/chat/route.ts:95-98 | a hosted model receives one more message than the caller sent: the system preamble first, then the caller's messages unchanged |
| ChatRoute.SelectRoute | app/api/chat/route.ts:105-136 | the tool path is taken exactly when the lowercased text contains "mcp", whatever the hint; otherwise "fal" selects the proxy, "groq" selects llama-3.1-8b-instant, and any other or absent hint selects grok-2-1212 |
| ChatRoute.KeywordInAnyCaseSelectsTool | app/api/chat/route.ts:106 | any casing of "mcp" inside the last user text, for example "MCP", sends the request to the tool server for every hint |
| ChatRoute.ErrorChunk | app/api/chat/route.ts:145-154 | the in-band error starts with "Error: " and the rest is exactly the thrown message |
| ChatRoute.Post | app/api/chat/route.ts:92-163 | exactly one source is consulted; every stream the route builds carries Content-Type text/event-stream, Cache-Control no-cache, no-transform and Connection keep-alive; the proxy's response comes back untouched exactly on the proxy path when the proxy answered; a hosted model receives the preamble-prefixed conversation and its fragments are relayed in order; on the tool path there is exactly one chunk, holding the tool's text or "Error: " followed by the exchange's error message |
| ChatRoute.EmptyToolListDegrades | app/api/chat/route.ts:60-64 | with the keyword present and an empty tool list, the response is the single chunk "Error: No tools available on MCP server" and no tool call is made |
| ChatRoute.FailuresDegradeToOneChunk | app/api/chat/route.ts:145-162 | whenever the selected source throws, the caller gets a well-formed stream with the route's headers and exactly one chunk starting with "Error: " |
| ChatRoute.PostAsWritten | app/api/chat/route.ts:124-133 | as written, the proxy branch re-reads the consumed request body, so it never contacts the proxy and never returns a passthrough response; every other route behaves as in `Post` |
| ChatRoute.ProxyUnreachableAsWritten | app/api/chat/route.ts:93-133 | on a concrete fal request the intended handler forwards and returns the proxy's response, while the handler as written answers with an error chunk |
| ChatUI.ErrorText | app/components/ChatUI.tsx:122-123 | the shown error is never empty: the thrown message, or "An error occurred" when that message is empty |
| ChatUI.BeginSubmit | app/components/ChatUI.tsx:74-93 | blank input is refused with nothing sent; otherwise exactly one user turn holding the trimmed input is appended after the unchanged old messages, the input is cleared, loading starts, the error is cleared, and the request body is the old messages followed by the new user turn |
| ChatUI.Merge | app/components/ChatUI.tsx:110-119 | a chunk overwrites a trailing assistant turn or appends one; the result ends with the assistant turn holding the accumulator, and every earlier message is unchanged |
| ChatUI.MergeAddsAtMostOneAssistant | app/components/ChatUI.tsx:110-119 | a merge adds at most one assistant turn |
| ChatUI.MergeTwice | app/components/ChatUI.tsx:109-119 | merging again replaces the previous merge's turn, so only the latest accumulator survives |
| ChatUI.ReceiveClosedForm | app/components/ChatUI.tsx:101-121 | reads without a value leave the conversation unchanged; otherwise the whole read sequence amounts to one merge of the concatenation of the delivered chunks |
| ChatUI.ReceiveAfterUser | app/components/ChatUI.tsx:101-121 | after the user turn, the reads leave the conversation untouched when nothing was delivered and otherwise append exactly one assistant turn holding the concatenation of the chunks |
| ChatUI.ReadLoop | app/components/ChatUI.tsx:101-121 | the loop that reads until done ends with the accumulator equal to the concatenation of the delivered chunks and the conversation in the closed form above |
| ChatUI.Complete | app/components/ChatUI.tsx:84-126 | after the fetch, loading is always false; a rejected fetch or a missing body keeps the messages and sets the error; a stream adds no assistant turn when nothing was delivered and otherwise one turn holding the concatenated chunks; a read failure sets the error and keeps what was merged |
| ChatUI.HandleSubmit | app/components/ChatUI.tsx:74-127 | a refused submit changes nothing; a valid one ends not loading, with the input cleared, the old messages and the new user turn as a prefix, and at most one assistant turn after it |
| ChatUI.CycleOutcome | app/components/ChatUI.tsx:84-126 | for each fetch result the final messages and error: a throw keeps the user turn, adds no assistant turn and shows its message; a stream ends as old messages, then the user turn, then the assistant turn with the concatenation of the chunks |
| ChatUI.SubmitEvent | app/components/ChatUI.tsx:176-222 | while loading, input and button are disabled and a submit changes nothing; otherwise the cycle ends not loading and the conversation only grows, by at most two turns |
| ChatUI.ChunkingInvariance | app/components/ChatUI.tsx:102-119 | when both streams deliver at least one chunk, or both deliver none, the final state depends only on the concatenated text, not on how the stream cut it into chunks; one empty chunk and no chunk at all are told apart, because the handler tests whether a chunk is present, not whether its text is empty |
| ChatUI.OneOpenTurn | app/components/ChatUI.tsx:104-121 | after any number of reads the conversation is the submitted one followed by at most one assistant turn, and that turn is the last element |
| ChatUI.StreamingScenario | tests/integration/chat.test.tsx:27-62 | submitting "Test message" with chunks "Hello" and " World" ends with the user turn, then the assistant turn "Hello World", with the input cleared and loading false |
| ChatUI.NetworkErrorScenario | tests/integration/chat.test.tsx:65-78 | a fetch rejected with "Network error" keeps the user turn, adds no assistant turn, and shows "Network error" |
| Providers.CatalogueInitials | app/api/providers/route.ts:4-92 | the eight catalogue ids start with the pairwise different letters x, g, f, d, c, e, l, p |
| Providers.CatalogueWellFormed | app/api/providers/route.ts:4-92 | the catalogue has eight entries, its ids are pairwise distinct, and every entry has `installed` false |
| Providers.Stamp | app/api/providers/route.ts:98-101 | the stamped entry is installed exactly when its id is in the installed list, and all other fields are the catalogue entry's |
| Providers.ListProviders | app/api/providers/route.ts:96-104 | the listing has as many entries as the catalogue, in catalogue order; each is flagged installed exactly when its id is in the installed list; every other field equals the catalogue entry's |
| Providers.FlagPerIdWellDefined | app/api/providers/route.ts:98-101 | over a catalogue with distinct ids, the listing has distinct ids too, so each id has one flag |
| Providers.ListingDependsOnMembership | app/api/providers/route.ts:100 | two installed lists with the same members give the same listing, so duplicates and order do not matter |
| ProviderInstall.Install | app/api/providers/install.ts:6-31 | a body that fails to parse gives 500 with its message or "Installation failed"; a missing or empty field gives 400 "Missing required fields" with the list unchanged; otherwise an absent id is appended at the end, a present id leaves the list unchanged, and the reply is "Provider installed successfully" |
| ProviderInstall.InstallMembership | app/api/providers/install.ts:17-20 | after any request the installed ids are the previous ones plus, on success, the requested id; any non-empty id is accepted, even one that is not in the catalogue |
| ProviderInstall.InstallIdempotent | app/api/providers/install.ts:18 | repeating the same request leaves the list and the reply as after the first |
| ProviderInstall.InstallKeepsNoDuplicates | app/api/providers/install.ts:18-19 | a duplicate-free installed list stays duplicate-free |
| ProviderInstall.InstallThenList | app/api/providers/install.ts:18-19 | after a successful install, a listing flags an entry exactly when its id was installed before or is the newly installed id |
| ProviderConnect.Connect | app/api/providers/connect/route.ts:3-29 | an absent or empty id gives 400 "Missing providerId"; elevenlabs, lmnt and pinecone redirect to their fixed pages; any other id redirects to the example.com connect URL with the encoded id; every non-empty id gets exactly one redirect with status 307 |
| ProviderConnect.GenericIffUnknown | app/api/providers/connect/route.ts:14-26 | for every encoding, a non-empty id is redirected to the generic connect URL exactly when it has no dedicated page |

## Findings

| source | as written | input that shows it | evidently intended | confidence | as-written member | corrected member |
|---|---|---|---|---|---|---|
| app/api/chat/route.ts:93-133 | the body is parsed with `req.json()` at line 93, and the fal branch re-reads it with `req.text()` to forward it; reading a consumed body rejects, so the forward is never sent and the catch block answers `"Error: " + <TypeError message>` | `{messages:[{role:"user",content:"hi"}], provider:"fal"}` | forward the request to the proxy and return its response unchanged | likely; not executed | ChatRoute.PostAsWritten, ChatRoute.ProxyUnreachableAsWritten | ChatRoute.Post |

## Left out

- Byte decoding: fragments are already-decoded strings. `TextDecoder.decode` runs without `{stream: true}`, so a multibyte character split across two chunks would be garbled. The model cannot show that.
- An empty chunk: the handler tests whether a byte chunk is present, not whether its text is empty. A present but empty chunk (`Some("")`) therefore still opens an assistant turn holding the empty string. The model keeps that behaviour.
- Text.ToLower: maps only the ASCII letters. For the "mcp" test no other character lowercases to `m`, `c` or `p`, so routing is unaffected.
- Text.IsWhitespace: covers the ECMAScript WhiteSpace and LineTerminator characters listed in the model. Any other space separators a particular engine recognises are not modelled.
- JSON parsing of request bodies, `fetch`, `ReadableStream` mechanics and React's state batching and scheduling are not modelled. The handler is a sequential fold, and two throws before the route's `try` are not modelled: `req.json()` failing, and a body whose `messages` field is missing or not an array, which throws a TypeError while the outbound list is spread (app/api/chat/route.ts:97). `ChatRequest.messages` is always a sequence of messages.
- Request fields are strings: install fields are `Option<string>` (absent or a string). Non-string JSON values, which JavaScript truthiness would also judge, are not modelled.
- Mid-stream failure of a hosted model after the route has returned its response ends the stream outside the route's `try`. That is not modelled; `ModelRejected` covers a failure before the stream starts.
- The `streamText` SDK, the xai and groq model objects, and the fal proxy route are external; they are abstract inputs.
- McpClient.RunExchange: a throw during the listing or the call is one case, `ListRejected` or `CallRejected`, carrying its message. The fetch rejecting, `json()` rejecting on a reply that is not JSON, and a TypeError from a `result` of an unexpected shape are not told apart.
- `MCP_SERVER_URL` and the HTTP shape of the tool requests (method, headers, JSON envelope) are left out. Only each request's kind, tool name and input are modelled.
- `encodeURIComponent` is an uninterpreted parameter of `ProviderConnect.Connect`.
- ProviderInstall.InstallThenList: assumes the install endpoint and the listing use one installed list. The listing declares its own `installedProviders` (app/api/providers/route.ts:94). The install endpoint imports one from `./index` (app/api/providers/install.ts:4). The source shown does not establish that the two are the same list.
- The installed-provider list is shared mutable state across requests. In the source, the install endpoint imports it from `./index`, and app/api/providers/index is not part of this model. Here it is a state value passed in and returned, with no concurrency claims.
- The system prompt's text is kept as `ChatRoute.SystemPrompt`; the properties hold for any preamble.
- Presentation is not modelled: animation, particles, the emoji tray (which only appends to the input), the code-preview rendering of `isCodeSnippet`, scrolling, and the pages `app/page.tsx`, `app/ai/page.tsx` and `app/layout.tsx`.
