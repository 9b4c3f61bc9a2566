/**
 * The assistant chat page: a message log that starts with one greeting and
 * to which each send appends the user's trimmed text and then exactly one
 * assistant message, the reply or a fixed error. A `Success` reply carries
 * `res.data.reply`; a 2xx response without a body makes reading it throw,
 * which lands in the same catch branch as a failed request, so such a
 * response is passed as a `Failure`.
 */
module Reports {
  import opened Common

  datatype Role = User | Assistant

  datatype Message = Message(role: Role, content: Value)

  const Greeting: string := "Hello \U{1F44B} I'm your business assistant. You can ask me about sales, orders, or performance \U{2014} or even general business insights."
  const Fallback: string := "Hmm... I couldn\U{2019}t get that. Please try again."
  const ErrorText: string := "\U{26A0}\U{FE0F} There was an error reaching the assistant. Try again."

  /** `res.data.reply || <fallback>` */
  function ReplyContent(reply: Value): (r: Value)
    ensures Truthy(reply) ==> r == reply
    ensures !Truthy(reply) ==> r == Str(Fallback)
    ensures Truthy(r)
  {
    Or(reply, Str(Fallback))
  }

  /** The assistant message a settled request appends: its reply's content, or the fixed error. */
  function AnswerOf(res: Reply<Value>): (m: Message)
    ensures m.role == Assistant
    ensures res.Success? ==> m.content == ReplyContent(res.data)
    ensures res.Failure? ==> m.content == Str(ErrorText)
  {
    match res
    case Success(reply) => Message(Assistant, ReplyContent(reply))
    case Failure(_) => Message(Assistant, Str(ErrorText))
  }

  /** The page's state: `messages`, `input` and `loading`. */
  class Chat {
    var messages: seq<Message>
    var input: string
    var loading: bool

    constructor ()
      ensures messages == [Message(Assistant, Str(Greeting))]
      ensures input == "" && !loading
    {
      messages := [Message(Assistant, Str(Greeting))];
      input := "";
      loading := false;
    }

    /** The input field's `onChange`. */
    method Type(text: string)
      modifies this
      ensures input == text && messages == old(messages) && loading == old(loading)
    {
      input := text;
    }

    /**
     * The synchronous part of `handleSend`: a whitespace-only input changes
     * nothing; otherwise the user's trimmed text is appended, the input is
     * cleared and loading is set. `sent` is the message posted to the
     * assistant, if any.
     */
    method BeginSend() returns (sent: Option<string>)
      modifies this
      ensures AllSpace(old(input)) ==>
                sent.None? && messages == old(messages) && input == old(input) && loading == old(loading)
      ensures !AllSpace(old(input)) ==>
                && sent == Some(Trim(old(input)))
                && messages == old(messages) + [Message(User, Str(Trim(old(input))))]
                && input == "" && loading
    {
      TrimEmptyIffAllSpace(input);
      var text := Trim(input);
      if text == "" {
        return None;
      }
      messages := messages + [Message(User, Str(text))];
      input := "";
      loading := true;
      sent := Some(text);
    }

    /**
     * The part of `handleSend` after the request settles: one assistant
     * message is appended to whatever the log holds by then, and loading
     * is cleared either way.
     */
    method FinishSend(res: Reply<Value>)
      modifies this
      ensures messages == old(messages) + [AnswerOf(res)]
      ensures !loading && input == old(input)
    {
      match res {
        case Success(reply) =>
          var aiReply := ReplyContent(reply);
          messages := messages + [Message(Assistant, aiReply)];
        case Failure(_) =>
          messages := messages + [Message(Assistant, Str(ErrorText))];
      }
      loading := false;
    }

    /** A whole send with nothing typed in between: the earlier log is kept as a prefix. */
    method HandleSend(res: Reply<Value>) returns (sent: Option<string>)
      modifies this
      ensures sent.None? <==> AllSpace(old(input))
      ensures AllSpace(old(input)) ==> messages == old(messages) && loading == old(loading) && input == old(input)
      ensures !AllSpace(old(input)) ==>
                && messages == old(messages) + [Message(User, Str(Trim(old(input)))), AnswerOf(res)]
                && !loading && input == ""
      ensures |old(messages)| <= |messages| && messages[..|old(messages)|] == old(messages)
    {
      sent := BeginSend();
      if sent.Some? {
        FinishSend(res);
      }
    }
  }

  /** The log a sequence of sends, each with its outcome, builds from a given log. */
  function Log(log: seq<Message>, turns: seq<(string, Reply<Value>)>): seq<Message>
    decreases |turns|
  {
    if turns == [] then log
    else
      Log(Step(log, turns[0]), turns[1..])
  }

  /** The log after the first of several sends. */
  function Step(log: seq<Message>, turn: (string, Reply<Value>)): seq<Message>
  {
    if AllSpace(turn.0) then log else log + [Message(User, Str(Trim(turn.0))), AnswerOf(turn.1)]
  }

  /**
   * Across any number of sends the log only grows: the earlier log, and so
   * the greeting, stays a prefix, and every non-blank send adds exactly two
   * messages.
   */
  lemma {:induction false} LogGrows(log: seq<Message>, turns: seq<(string, Reply<Value>)>)
    ensures |Log(log, turns)| == |log| + 2 * CountSent(turns)
    ensures Log(log, turns)[..|log|] == log
    decreases |turns|
  {
    if turns != [] {
      var next := Step(log, turns[0]);
      assert Log(log, turns) == Log(next, turns[1..]);
      LogGrows(next, turns[1..]);
      assert next[..|log|] == log;
    }
  }

  /** The number of sends that were not blank. */
  function CountSent(turns: seq<(string, Reply<Value>)>): nat
  {
    if turns == [] then 0 else (if AllSpace(turns[0].0) then 0 else 1) + CountSent(turns[1..])
  }
}
