/**
 * The chat page's submit handler: validate the input, append the user turn, post the
 * conversation, and fold the streamed chunks into one trailing assistant turn.
 * The network is abstract: what the fetch produced is an input of the cycle.
 */
module ChatUI {
  import opened Wrappers
  import opened Text
  import opened Messages

  /** The component state the handler reads and writes. */
  datatype ChatState = ChatState(messages: seq<Message>, input: string, isLoading: bool, error: Option<string>)

  /** How reading the body stopped: the stream closed, or a read threw. */
  datatype StreamEnd = Closed | ReadFailed(message: string)

  /**
   * What the fetch produced: it threw, it resolved without a body, or it resolved with a body
   * whose reads delivered these chunks (`None` is a read without a value) before `end`.
   */
  datatype FetchResult = FetchRejected(message: string) | NoBody | Body(chunks: seq<Option<string>>, end: StreamEnd)

  const NoBodyMessage := "No response body"
  const DefaultError := "An error occurred"

  /** The text shown for a thrown error: its message, or a fixed text when the message is empty. */
  function ErrorText(message: string): (r: string)
    ensures r != []
    ensures message != [] ==> r == message
    ensures message == [] ==> r == DefaultError
  {
    if message == [] then DefaultError else message
  }

  /** The state right after a valid submit, and the conversation sent as the request body. */
  datatype Submitted = Submitted(state: ChatState, body: seq<Message>)

  /**
   * Validation and the synchronous part of the handler. Blank input is refused with nothing
   * changed and nothing sent; otherwise one trimmed user turn is appended, the input is
   * cleared, loading starts, the error is cleared, and the whole conversation is sent.
   */
  function BeginSubmit(s: ChatState): (r: Option<Submitted>)
    ensures r.None? <==> AllWhitespace(s.input)
    ensures r.Some? ==>
      && |r.value.state.messages| == |s.messages| + 1
      && r.value.state.messages[..|s.messages|] == s.messages
      && r.value.state.messages[|s.messages|] == UserMessage(Trim(s.input))
      && Trim(s.input) != []
      && r.value.state.input == []
      && r.value.state.isLoading
      && r.value.state.error == None
      && r.value.body == r.value.state.messages
  {
    TrimEmptyIff(s.input);
    var text := Trim(s.input);
    if text == [] then None
    else
      var msgs := s.messages + [UserMessage(text)];
      Some(Submitted(ChatState(msgs, "", true, None), msgs))
  }

  /** The conversation ends with an assistant turn, the one a chunk overwrites. */
  predicate EndsWithAssistant(msgs: seq<Message>)
  {
    |msgs| > 0 && msgs[|msgs| - 1].role == Assistant
  }

  /**
   * One chunk's update of the conversation: a trailing assistant turn is overwritten with the
   * accumulated text, otherwise a new assistant turn is appended; nothing earlier changes.
   */
  function Merge(msgs: seq<Message>, acc: string): (r: seq<Message>)
    ensures |r| == if EndsWithAssistant(msgs) then |msgs| else |msgs| + 1
    ensures forall k :: 0 <= k < |r| - 1 ==> r[k] == msgs[k]
    ensures r[|r| - 1] == AssistantMessage(acc)
  {
    var last := |msgs| - 1;
    if EndsWithAssistant(msgs) then msgs[..last] + [AssistantMessage(acc)] else msgs + [AssistantMessage(acc)]
  }

  /** A merge adds at most one assistant turn to the conversation. */
  lemma MergeAddsAtMostOneAssistant(msgs: seq<Message>, acc: string)
    ensures AssistantCount(Merge(msgs, acc)) <= AssistantCount(msgs) + 1
  {
    var r := Merge(msgs, acc);
    var last := |msgs| - 1;
    if EndsWithAssistant(msgs) {
      assert msgs == msgs[..last] + [msgs[last]];
      assert r == msgs[..last] + [AssistantMessage(acc)];
      AssistantCountAppend(msgs[..last], [msgs[last]]);
      AssistantCountAppend(msgs[..last], [AssistantMessage(acc)]);
    } else {
      assert r == msgs + [AssistantMessage(acc)];
      AssistantCountAppend(msgs, [AssistantMessage(acc)]);
    }
  }

  /** Merging again overwrites the turn the previous merge left: only the latest accumulator survives. */
  lemma MergeTwice(msgs: seq<Message>, a: string, b: string)
    ensures Merge(Merge(msgs, a), b) == Merge(msgs, b)
  {
    var m := Merge(msgs, a);
    assert EndsWithAssistant(m);
    assert |Merge(m, b)| == |Merge(msgs, b)|;
  }

  /** The chunks actually delivered, in order: reads without a value contribute nothing. */
  function Values(chunks: seq<Option<string>>): seq<string>
  {
    if |chunks| == 0 then []
    else (if chunks[0].Some? then [chunks[0].value] else []) + Values(chunks[1..])
  }

  lemma {:induction false} ValuesAppend(a: seq<Option<string>>, b: seq<Option<string>>)
    ensures Values(a + b) == Values(a) + Values(b)
    decreases |a|
  {
    if |a| == 0 {
      assert a + b == b;
    } else {
      assert (a + b)[1..] == a[1..] + b;
      ValuesAppend(a[1..], b);
    }
  }

  /** The read loop as a fold: `acc` is the text accumulated before these reads. */
  function Receive(msgs: seq<Message>, acc: string, chunks: seq<Option<string>>): seq<Message>
    decreases |chunks|
  {
    if |chunks| == 0 then msgs
    else match chunks[0]
      case None => Receive(msgs, acc, chunks[1..])
      case Some(chunk) => Receive(Merge(msgs, acc + chunk), acc + chunk, chunks[1..])
  }

  /** The first read's contribution to the delivered values and to their concatenation. */
  lemma ValuesHead(chunks: seq<Option<string>>)
    requires |chunks| > 0
    ensures chunks[0].None? ==> Values(chunks) == Values(chunks[1..])
    ensures chunks[0].Some? ==> Values(chunks) != []
    ensures chunks[0].Some? ==> Concat(Values(chunks)) == chunks[0].value + Concat(Values(chunks[1..]))
  {
    if chunks[0].Some? {
      var v := Values(chunks[1..]);
      assert Values(chunks) == [chunks[0].value] + v;
      assert ([chunks[0].value] + v)[1..] == v;
    }
  }

  /**
   * The fold in closed form: untouched when nothing was delivered, otherwise one merge of the
   * whole accumulated text, so the conversation ends in exactly one assistant turn holding the
   * concatenation of the delivered chunks.
   */
  lemma {:induction false} ReceiveClosedForm(msgs: seq<Message>, acc: string, chunks: seq<Option<string>>)
    ensures Values(chunks) == [] ==> Receive(msgs, acc, chunks) == msgs
    ensures Values(chunks) != [] ==> Receive(msgs, acc, chunks) == Merge(msgs, acc + Concat(Values(chunks)))
    decreases |chunks|
  {
    if |chunks| > 0 {
      var rest := chunks[1..];
      ValuesHead(chunks);
      ReceiveClosedForm(msgs, acc, rest);
      if chunks[0].Some? {
        var a := acc + chunks[0].value;
        ReceiveClosedForm(Merge(msgs, a), a, rest);
        if Values(rest) != [] {
          assert acc + Concat(Values(chunks)) == a + Concat(Values(rest));
          MergeTwice(msgs, a, a + Concat(Values(rest)));
        } else {
          assert acc + Concat(Values(chunks)) == a;
        }
      }
    }
  }

  /**
   * Started from a conversation that ends with the user turn, the reads leave it untouched when
   * nothing was delivered and otherwise append one assistant turn holding the concatenation.
   */
  lemma ReceiveAfterUser(msgs: seq<Message>, chunks: seq<Option<string>>)
    requires |msgs| > 0 && msgs[|msgs| - 1].role == User
    ensures Values(chunks) == [] ==> Receive(msgs, "", chunks) == msgs
    ensures Values(chunks) != [] ==> Receive(msgs, "", chunks) == msgs + [AssistantMessage(Concat(Values(chunks)))]
  {
    ReceiveClosedForm(msgs, "", chunks);
    assert "" + Concat(Values(chunks)) == Concat(Values(chunks));
  }

  /** The same loop written as the handler writes it: read until the stream is done. */
  method ReadLoop(msgs: seq<Message>, chunks: seq<Option<string>>) returns (result: seq<Message>, acc: string)
    ensures acc == Concat(Values(chunks))
    ensures Values(chunks) == [] ==> result == msgs
    ensures Values(chunks) != [] ==> result == Merge(msgs, acc)
  {
    result, acc := msgs, "";
    var i := 0;
    while i < |chunks|
      invariant 0 <= i <= |chunks|
      invariant acc == Concat(Values(chunks[..i]))
      invariant Values(chunks[..i]) == [] ==> result == msgs
      invariant Values(chunks[..i]) != [] ==> result == Merge(msgs, acc)
      decreases |chunks| - i
    {
      assert chunks[..i + 1] == chunks[..i] + [chunks[i]];
      ValuesAppend(chunks[..i], [chunks[i]]);
      ConcatAppend(Values(chunks[..i]), Values([chunks[i]]));
      if chunks[i].Some? {
        acc := acc + chunks[i].value;
        result := Merge(result, acc);
      }
      i := i + 1;
    }
    assert chunks[..i] == chunks;
  }

  /**
   * The asynchronous part of the handler, from the fetch to the `finally` block, started from the
   * state a valid submit left. Loading always ends; the error is set exactly when something threw;
   * a throw never adds an assistant turn beyond the chunks already merged.
   */
  function Complete(st: ChatState, fetch: FetchResult): (r: ChatState)
    requires |st.messages| > 0 && st.messages[|st.messages| - 1].role == User
    ensures !r.isLoading && r.input == st.input
    ensures |st.messages| <= |r.messages| <= |st.messages| + 1 && r.messages[..|st.messages|] == st.messages
    ensures fetch.FetchRejected? ==> r.messages == st.messages && r.error == Some(ErrorText(fetch.message))
    ensures fetch.NoBody? ==> r.messages == st.messages && r.error == Some(NoBodyMessage)
    ensures fetch.Body? && Values(fetch.chunks) == [] ==> r.messages == st.messages
    ensures fetch.Body? && Values(fetch.chunks) != [] ==>
      r.messages == st.messages + [AssistantMessage(Concat(Values(fetch.chunks)))]
    ensures fetch.Body? && fetch.end.Closed? ==> r.error == st.error
    ensures fetch.Body? && fetch.end.ReadFailed? ==> r.error == Some(ErrorText(fetch.end.message))
  {
    match fetch
    case FetchRejected(m) => st.(isLoading := false, error := Some(ErrorText(m)))
    case NoBody => st.(isLoading := false, error := Some(NoBodyMessage))
    case Body(chunks, end) =>
      var msgs := Receive(st.messages, "", chunks);
      ReceiveAfterUser(st.messages, chunks);
      match end
      case Closed => st.(messages := msgs, isLoading := false)
      case ReadFailed(m) => st.(messages := msgs, isLoading := false, error := Some(ErrorText(m)))
  }

  /** The whole handler: a refused submit changes nothing; a valid one runs a full cycle. */
  function HandleSubmit(s: ChatState, fetch: FetchResult): (r: ChatState)
    ensures AllWhitespace(s.input) ==> r == s
    ensures !AllWhitespace(s.input) ==>
      && !r.isLoading
      && r.input == []
      && |s.messages| + 1 <= |r.messages| <= |s.messages| + 2
      && r.messages[..|s.messages| + 1] == s.messages + [UserMessage(Trim(s.input))]
      && (|r.messages| == |s.messages| + 2 ==> r.messages[|s.messages| + 1].role == Assistant)
  {
    match BeginSubmit(s)
    case None => s
    case Some(sub) =>
      Complete(sub.state, fetch)
  }

  /**
   * What a valid submit leaves behind for each way the request can go: a throw keeps the user
   * turn, adds no assistant turn and shows its message; a delivered stream adds one assistant
   * turn holding the concatenated chunks, or none when nothing was delivered.
   */
  lemma CycleOutcome(s: ChatState, fetch: FetchResult)
    requires !AllWhitespace(s.input)
    ensures var r := HandleSubmit(s, fetch);
      var user := UserMessage(Trim(s.input));
      && (fetch.FetchRejected? ==> r.messages == s.messages + [user] && r.error == Some(ErrorText(fetch.message)))
      && (fetch.NoBody? ==> r.messages == s.messages + [user] && r.error == Some(NoBodyMessage))
      && (fetch.Body? && Values(fetch.chunks) == [] ==> r.messages == s.messages + [user])
      && (fetch.Body? && Values(fetch.chunks) != [] ==>
            r.messages == s.messages + [user, AssistantMessage(Concat(Values(fetch.chunks)))])
      && (fetch.Body? && fetch.end.Closed? ==> r.error == None)
      && (fetch.Body? && fetch.end.ReadFailed? ==> r.error == Some(ErrorText(fetch.end.message)))
  {
    var sub := BeginSubmit(s).value;
    assert HandleSubmit(s, fetch) == Complete(sub.state, fetch);
    assert sub.state.messages == s.messages + [UserMessage(Trim(s.input))];
  }

  /** The form: while a cycle is loading, input and button are disabled and a submit does nothing. */
  function SubmitEvent(s: ChatState, fetch: FetchResult): (r: ChatState)
    ensures s.isLoading ==> r == s
    ensures !s.isLoading ==> !r.isLoading
    ensures |s.messages| <= |r.messages| <= |s.messages| + 2
    ensures r.messages[..|s.messages|] == s.messages
  {
    if s.isLoading then s
    else
      var r := HandleSubmit(s, fetch);
      assert !AllWhitespace(s.input) ==> r.messages[..|s.messages|] == r.messages[..|s.messages| + 1][..|s.messages|];
      r
  }

  /**
   * The final state depends only on the delivered text and on whether any chunk arrived at all,
   * not on how the stream cut that text into chunks. Whether a chunk arrived matters on its own:
   * one empty chunk opens an empty assistant turn, while no chunk opens none.
   */
  lemma ChunkingInvariance(s: ChatState, end: StreamEnd, a: seq<Option<string>>, b: seq<Option<string>>)
    requires (Values(a) == []) == (Values(b) == [])
    requires Concat(Values(a)) == Concat(Values(b))
    ensures HandleSubmit(s, Body(a, end)) == HandleSubmit(s, Body(b, end))
  {
    if !AllWhitespace(s.input) {
      CycleOutcome(s, Body(a, end));
      CycleOutcome(s, Body(b, end));
    }
  }

  /**
   * During receiving, after any number of reads, the conversation is the submitted one with
   * at most one assistant turn after it, and that turn is the last element.
   */
  lemma OneOpenTurn(base: seq<Message>, chunks: seq<Option<string>>, k: nat)
    requires |base| > 0 && base[|base| - 1].role == User
    requires k <= |chunks|
    ensures var msgs := Receive(base, "", chunks[..k]);
      && |base| <= |msgs| <= |base| + 1
      && msgs[..|base|] == base
      && (|msgs| == |base| + 1 ==> msgs[|base|].role == Assistant)
      && AssistantCount(msgs) <= AssistantCount(base) + 1
  {
    ReceiveClosedForm(base, "", chunks[..k]);
    var msgs := Receive(base, "", chunks[..k]);
    if Values(chunks[..k]) != [] {
      assert msgs == base + [msgs[|base|]];
      AssistantCountAppend(base, [msgs[|base|]]);
    }
  }

  /** Two chunks "Hello" and " World" after "Test message" end as one assistant turn "Hello World". */
  lemma StreamingScenario()
    ensures SubmitEvent(ChatState([], "Test message", false, None), Body([Some("Hello"), Some(" World")], Closed))
         == ChatState([UserMessage("Test message"), AssistantMessage("Hello World")], "", false, None)
  {
    var s := ChatState([], "Test message", false, None);
    assert !IsWhitespace(s.input[0]);
    assert Trim(s.input) == "Test message";
    var chunks := [Some("Hello"), Some(" World")];
    assert Values(chunks) == ["Hello", " World"] by {
      assert chunks[1..] == [Some(" World")];
      assert chunks[1..][1..] == [];
    }
    assert Concat(["Hello", " World"]) == "Hello World" by {
      assert ["Hello", " World"][1..] == [" World"];
      assert [" World"][1..] == [];
    }
  }

  /** A rejected fetch keeps the user turn, adds no assistant turn, and shows the rejection text. */
  lemma NetworkErrorScenario()
    ensures SubmitEvent(ChatState([], "Test error", false, None), FetchRejected("Network error"))
         == ChatState([UserMessage("Test error")], "", false, Some("Network error"))
  {
    var s := ChatState([], "Test error", false, None);
    assert !IsWhitespace(s.input[0]);
    assert Trim(s.input) == "Test error";
  }
}
