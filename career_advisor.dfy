/**
 * The career-advisor chat: a send is guarded, appends the user's message,
 * then streams the model's reply into a placeholder message chunk by chunk;
 * any failure appends a fixed apology.
 */
module CareerAdvisor {
  import opened Common
  import opened Types
  import JsText

  const Greeting := ChatMessage(Model,
    "Hello! I'm your personal AI A&R Advisor. How can I help you with your music career today? Feel free to ask me anything from 'What kind of track should I produce next?' to 'Which curators should I target based on my last release?'")

  const ErrorReply := "Sorry, I encountered an error. Please try again."

  /**
   * How the awaited reply went: the stream could not be opened, or it yielded
   * these chunk texts and then either ended or failed.
   */
  datatype Stream = OpenFailed(message: string) | Streamed(chunks: seq<string>, failure: Option<string>)

  predicate Completed(s: Stream) {
    s.Streamed? && s.failure.None?
  }

  /** The error message the `catch` block sees, if any. */
  function FailureMessage(s: Stream): Option<string> {
    if s.OpenFailed? then Some(s.message) else s.failure
  }

  /** The accumulated reply after the given chunks: `modelResponse += chunk.text` from the empty string. */
  function Concat(chunks: seq<string>): (r: string)
    ensures chunks == [] ==> r == ""
    decreases |chunks|
  {
    if chunks == [] then "" else Concat(chunks[..|chunks| - 1]) + chunks[|chunks| - 1]
  }

  /** The accumulated reply is every chunk in order, so its length is the sum of theirs. */
  lemma {:induction false} ConcatAppend(a: seq<string>, b: seq<string>)
    ensures Concat(a + b) == Concat(a) + Concat(b)
    decreases |b|
  {
    if b != [] {
      var b' := b[..|b| - 1];
      assert (a + b)[..|a + b| - 1] == a + b';
      ConcatAppend(a, b');
    } else {
      assert a + b == a;
    }
  }

  /** The message list a send leaves behind, for the list and input it started from. */
  function Transcript(msgs: seq<ChatMessage>, input: string, s: Stream): (r: seq<ChatMessage>)
    ensures |r| > |msgs| + 1
    ensures r[..|msgs|] == msgs && r[|msgs|] == ChatMessage(User, input)
    ensures Completed(s) ==> |r| == |msgs| + 2 && r[|r| - 1] == ChatMessage(Model, Concat(s.chunks))
    ensures s.OpenFailed? ==> |r| == |msgs| + 2 && r[|r| - 1] == ChatMessage(Model, ErrorReply)
    ensures s.Streamed? && s.failure.Some? ==>
      |r| == |msgs| + 3 && r[|r| - 2] == ChatMessage(Model, Concat(s.chunks)) && r[|r| - 1] == ChatMessage(Model, ErrorReply)
  {
    var sent := msgs + [ChatMessage(User, input)];
    match s
    case OpenFailed(_) => sent + [ChatMessage(Model, ErrorReply)]
    case Streamed(chunks, None) => sent + [ChatMessage(Model, Concat(chunks))]
    case Streamed(chunks, Some(_)) => sent + [ChatMessage(Model, Concat(chunks)), ChatMessage(Model, ErrorReply)]
  }

  /** The chat's cells; `hasChat` stands for the chat session object being set. */
  class Advisor {
    var messages: seq<ChatMessage>
    var isLoading: bool
    var input: string
    var error: Option<string>
    var hasChat: bool

    /** The first render, before the mount effect has run. */
    constructor ()
      ensures messages == [] && !isLoading && input == "" && error.None? && !hasChat
    {
      messages := [];
      isLoading := false;
      input := "";
      error := None;
      hasChat := false;
    }

    /** The mount effect: a chat session exists and the list holds only the greeting. */
    method InitChat()
      modifies this
      ensures hasChat && messages == [Greeting]
      ensures isLoading == old(isLoading) && input == old(input) && error == old(error)
    {
      hasChat := true;
      messages := [Greeting];
    }

    /** Typing into the input box. */
    method SetInput(text: string)
      modifies this
      ensures input == text
      ensures messages == old(messages) && isLoading == old(isLoading) && error == old(error) && hasChat == old(hasChat)
    {
      input := text;
    }

    /**
     * `handleSendMessage` with the reply `s`: ignored for a blank input, no
     * session or a reply in flight; otherwise the user message (untrimmed) and
     * the streamed reply are appended, the input is cleared and loading ends.
     */
    method SendMessage(s: Stream) returns (resetKey: bool)
      modifies this
      ensures JsText.Trim(old(input)) == [] || !old(hasChat) || old(isLoading) ==>
        && messages == old(messages) && input == old(input) && isLoading == old(isLoading)
        && error == old(error) && !resetKey
      ensures JsText.Trim(old(input)) != [] && old(hasChat) && !old(isLoading) ==>
        && messages == Transcript(old(messages), old(input), s)
        && input == "" && !isLoading
        && error == (if Completed(s) then None else Some(ErrorReply))
        && (resetKey <==> FailureMessage(s).Some? && JsText.Contains(FailureMessage(s).value, KeyNotFound))
      ensures hasChat == old(hasChat)
    {
      resetKey := false;
      if JsText.Trim(input) == [] || !hasChat || isLoading {
        return;
      }
      var sent := input;
      ghost var before := messages;
      messages := messages + [ChatMessage(User, sent)];
      input := "";
      isLoading := true;
      error := None;
      if s.Streamed? {
        var chunks := s.chunks;
        var response := "";
        messages := messages + [ChatMessage(Model, "")];
        var i := 0;
        while i < |chunks|
          invariant 0 <= i <= |chunks|
          invariant response == Concat(chunks[..i])
          invariant messages == before + [ChatMessage(User, sent), ChatMessage(Model, response)]
          invariant input == "" && isLoading && error.None? && hasChat
        {
          assert chunks[..i + 1][..i] == chunks[..i];
          response := response + chunks[i];
          messages := messages[..|messages| - 1] + [ChatMessage(Model, response)];
          i := i + 1;
        }
        assert chunks[..|chunks|] == chunks;
        assert messages == before + [ChatMessage(User, sent), ChatMessage(Model, Concat(chunks))];
      }
      var failure := FailureMessage(s);
      if failure.Some? {
        resetKey := JsText.Contains(failure.value, KeyNotFound);
        error := Some(ErrorReply);
        messages := messages + [ChatMessage(Model, ErrorReply)];
      }
      assert messages == Transcript(before, sent, s);
      isLoading := false;
    }
  }

  /** From the greeting, a completed reply leaves exactly the greeting, the question and the answer. */
  lemma FirstExchange(question: string, chunks: seq<string>)
    ensures Transcript([Greeting], question, Streamed(chunks, None))
      == [Greeting, ChatMessage(User, question), ChatMessage(Model, Concat(chunks))]
  {
  }
}
