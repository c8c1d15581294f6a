/**
 * `POST /api/support-chat`: validation, the conversation window built from the
 * client's history, the prompt sent to the responses endpoint, and the mapping
 * of the provider's outcome to a reply or an error status.  The handler holds
 * no state (its only module value, the system prompt, is fixed at load time),
 * so it is a pure function of the key, the system prompt, the request and the
 * provider's outcome.
 */
module SupportChat {
  import opened Wrappers
  import opened Text
  import opened Provider

  const ChatModel: string := "gpt-4o-mini"
  const MessageRequired: string := "message is required"
  const Unexpected: string := "Unexpected error while contacting OpenAI"

  /** How many of the most recent history items the prompt may quote. */
  const HistoryWindow: nat := 6

  const UserLabel: string := "ユーザー: "
  const AssistantLabel: string := "AI: "

  /** The cue the prompt ends with, inviting the model's turn. */
  const AnswerCue: string := "\nAI:"

  /** A history item as the client sent it; the client's type says "user" or "bot", but any string may arrive. */
  datatype HistoryMessage = HistoryMessage(role: string, content: string)

  datatype Role = User | Assistant

  /** A conversation entry after the role mapping. */
  datatype Entry = Entry(role: Role, content: string)

  /** The JSON body; a field the client left out is `None`. */
  datatype ChatRequest = ChatRequest(message: Option<string>, history: Option<seq<HistoryMessage>>)

  datatype Response =
    | Failure(status: nat, error: string)
    | Reply(reply: string)
  {
    function Status(): nat {
      match this
      case Failure(status, _) => status
      case Reply(_) => 200
    }
  }

  // ---------------------------------------------------------------------------
  // The conversation

  /** `"bot"` speaks as the assistant; every other role as the user. */
  function RoleOf(role: string): Role
  {
    if role == "bot" then Assistant else User
  }

  function ToEntry(m: HistoryMessage): Entry
  {
    Entry(RoleOf(m.role), m.content)
  }

  /** The role mapping over a run of history items. */
  function Entries(items: seq<HistoryMessage>): (es: seq<Entry>)
    ensures |es| == |items|
    ensures forall i :: 0 <= i < |items| ==> es[i] == ToEntry(items[i])
  {
    seq(|items|, i requires 0 <= i < |items| => ToEntry(items[i]))
  }

  /** The entries whose content is not blank after trimming, in their order. */
  function KeepNonBlank(entries: seq<Entry>): (kept: seq<Entry>)
    ensures |kept| <= |entries|
    ensures forall i :: 0 <= i < |kept| ==> !IsBlank(kept[i].content)
  {
    if entries == [] then []
    else if IsBlank(entries[0].content) then KeepNonBlank(entries[1..])
    else [entries[0]] + KeepNonBlank(entries[1..])
  }

  /** An entry survives the filter exactly when it is present and not blank. */
  lemma {:induction false} KeepNonBlankMembers(entries: seq<Entry>)
    ensures forall e :: e in KeepNonBlank(entries) <==> e in entries && !IsBlank(e.content)
  {
    if entries != [] {
      KeepNonBlankMembers(entries[1..]);
      assert entries == [entries[0]] + entries[1..];
    }
  }

  /**
   * The filter distributes over concatenation; with its effect on one entry
   * (kept unless blank) this pins it down as the order-preserving filter.
   */
  lemma {:induction false} KeepNonBlankConcat(a: seq<Entry>, b: seq<Entry>)
    ensures KeepNonBlank(a + b) == KeepNonBlank(a) + KeepNonBlank(b)
  {
    if a == [] {
      assert a + b == b;
    } else {
      assert (a + b)[1..] == a[1..] + b;
      KeepNonBlankConcat(a[1..], b);
      if !IsBlank(a[0].content) {
        ConcatAssoc([a[0]], KeepNonBlank(a[1..]), KeepNonBlank(b));
      }
    }
  }

  /** A run without blank entries passes the filter unchanged. */
  lemma {:induction false} KeepNonBlankAll(entries: seq<Entry>)
    requires forall i :: 0 <= i < |entries| ==> !IsBlank(entries[i].content)
    ensures KeepNonBlank(entries) == entries
  {
    if entries != [] {
      KeepNonBlankAll(entries[1..]);
    }
  }

  /** `history.slice(-6).map(...).filter(...)`: the last six items, role-mapped, blank ones dropped. */
  function Conversation(history: seq<HistoryMessage>): (conv: seq<Entry>)
    ensures |conv| <= HistoryWindow
    ensures forall i :: 0 <= i < |conv| ==> !IsBlank(conv[i].content)
  {
    KeepNonBlank(Entries(Slice(history, -(HistoryWindow as int), |history|)))
  }

  /** The window is the last six items (all of them when there are fewer). */
  lemma ConversationWindow(history: seq<HistoryMessage>)
    ensures Conversation(history) == KeepNonBlank(Entries(history[|history| - Min(HistoryWindow, |history|)..]))
  {
    SliceLast(history, HistoryWindow);
  }

  /**
   * Every entry comes from one of the last six items, with its content as sent
   * and the assistant role exactly for `"bot"`; every non-blank item of the
   * window appears.
   */
  lemma ConversationEntries(history: seq<HistoryMessage>)
    ensures var start := |history| - Min(HistoryWindow, |history|);
            forall e :: e in Conversation(history) <==>
              exists i :: start <= i < |history| && e == ToEntry(history[i]) && !IsBlank(history[i].content)
    ensures forall e :: e in Conversation(history) ==> (e.role == Assistant <==> exists m :: m in history && m.role == "bot" && ToEntry(m) == e)
  {
    ConversationWindow(history);
    var start := |history| - Min(HistoryWindow, |history|);
    var window := history[start..];
    var es := Entries(window);
    KeepNonBlankMembers(es);
    forall e | e in Conversation(history)
      ensures exists i :: start <= i < |history| && e == ToEntry(history[i]) && !IsBlank(history[i].content)
    {
      var j :| 0 <= j < |es| && es[j] == e;
      assert e == ToEntry(history[start + j]);
    }
    forall i | start <= i < |history| && !IsBlank(history[i].content)
      ensures ToEntry(history[i]) in Conversation(history)
    {
      assert es[i - start] == ToEntry(history[i]);
    }
    forall e | e in Conversation(history) && e.role == Assistant
      ensures exists m :: m in history && m.role == "bot" && ToEntry(m) == e
    {
      var i :| start <= i < |history| && e == ToEntry(history[i]) && !IsBlank(history[i].content);
      assert history[i] in history;
    }
  }

  /** Items older than the last six never reach the prompt. */
  lemma ConversationIgnoresOlder(older: seq<HistoryMessage>, recent: seq<HistoryMessage>)
    requires |recent| >= HistoryWindow
    ensures Conversation(older + recent) == Conversation(recent)
  {
    var h := older + recent;
    ConversationWindow(h);
    ConversationWindow(recent);
    assert h[|h| - HistoryWindow..] == recent[|recent| - HistoryWindow..];
  }

  /** Six or more items whose last six are all non-blank give a conversation of exactly those six. */
  lemma ConversationFull(history: seq<HistoryMessage>)
    requires |history| >= HistoryWindow
    requires forall i :: |history| - HistoryWindow <= i < |history| ==> !IsBlank(history[i].content)
    ensures Conversation(history) == Entries(history[|history| - HistoryWindow..])
    ensures |Conversation(history)| == HistoryWindow
  {
    ConversationWindow(history);
    var es := Entries(history[|history| - HistoryWindow..]);
    assert forall i :: 0 <= i < |es| ==> es[i].content == history[|history| - HistoryWindow + i].content;
    KeepNonBlankAll(es);
  }

  /**
   * The blank filter runs after the window is cut, not before: seven items of
   * which only the second is blank give five entries, although six items of the
   * history are not blank.
   */
  lemma FilterAfterWindow(history: seq<HistoryMessage>)
    requires |history| == 7
    requires IsBlank(history[1].content)
    requires forall i :: 0 <= i < 7 && i != 1 ==> !IsBlank(history[i].content)
    ensures |Conversation(history)| == 5
  {
    ConversationWindow(history);
    var es := Entries(history[1..]);
    assert es == [es[0]] + es[1..];
    assert IsBlank(es[0].content);
    assert forall i :: 0 <= i < |es[1..]| ==> es[1..][i] == ToEntry(history[i + 2]);
    KeepNonBlankAll(es[1..]);
    KeepNonBlankConcat([es[0]], es[1..]);
  }

  // ---------------------------------------------------------------------------
  // The prompt

  /** One line of the transcript: the speaker's label, then the content as sent. */
  function Line(e: Entry): string
  {
    (if e.role == Assistant then AssistantLabel else UserLabel) + e.content
  }

  function Lines(conv: seq<Entry>): (lines: seq<string>)
    ensures |lines| == |conv|
    ensures forall i :: 0 <= i < |conv| ==> lines[i] == Line(conv[i])
  {
    seq(|conv|, i requires 0 <= i < |conv| => Line(conv[i]))
  }

  /**
   * The lines joined by newlines.  Every line carries a label, so the text is
   * empty exactly for an empty conversation.
   */
  function ConversationText(conv: seq<Entry>): (text: string)
    ensures text == "" <==> conv == []
  {
    assert conv != [] ==> |Line(conv[0])| > 0;
    Join(Lines(conv), "\n")
  }

  /**
   * `promptInput`: the transcript and a newline if there is one, then the user's
   * message as sent, then the cue; so every prompt ends with the user's line and
   * `\nAI:`.
   */
  function PromptInput(conv: seq<Entry>, message: string): (p: string)
    ensures var last := UserLabel + message + AnswerCue;
            |p| >= |last| && p[|p| - |last|..] == last
  {
    var text := ConversationText(conv);
    var head := if text != "" then text + "\n" else "";
    assert (head + UserLabel + message + AnswerCue)[|head|..] == UserLabel + message + AnswerCue;
    head + UserLabel + message + AnswerCue
  }

  /** Reference reading of the prompt: every entry is one line ended by a newline. */
  function Transcript(conv: seq<Entry>): string
  {
    if conv == [] then "" else Line(conv[0]) + "\n" + Transcript(conv[1..])
  }

  /** The joined lines plus the trailing newline are the line-per-entry transcript. */
  lemma {:induction false} JoinedIsTranscript(conv: seq<Entry>)
    requires conv != []
    ensures ConversationText(conv) + "\n" == Transcript(conv)
  {
    if |conv| > 1 {
      JoinedIsTranscript(conv[1..]);
      assert Lines(conv)[1..] == Lines(conv[1..]);
    }
  }

  /**
   * The prompt is the transcript, one labelled line per entry in order, then the
   * user's untrimmed message on its own labelled line, then the cue.
   */
  lemma PromptIsTranscript(conv: seq<Entry>, message: string)
    ensures PromptInput(conv, message) == Transcript(conv) + UserLabel + message + AnswerCue
  {
    if conv != [] {
      JoinedIsTranscript(conv);
    }
  }

  // ---------------------------------------------------------------------------
  // The handler

  /** The response and the provider calls made. */
  datatype ChatOutcome = ChatOutcome(response: Response, calls: seq<ProviderRequest>)

  /** The one generation request for a conversation and message. */
  function ChatCall(systemPrompt: string, conv: seq<Entry>, message: string): ProviderRequest
  {
    GenerationRequest(ChatModel, systemPrompt, PromptInput(conv, message), Temperature, MaxOutputTokens)
  }

  /**
   * The handler.  `systemPrompt` is the module's `SYSTEM_PROMPT`; `gen` is what
   * the responses endpoint answers (consulted only if the handler gets that far).
   */
  function HandleChat(apiKey: Option<string>, systemPrompt: string, req: ChatRequest, gen: GenResponse): (o: ChatOutcome)
    ensures |o.calls| <= 1
    ensures o.calls != [] <==> KeyConfigured(apiKey) && !MissingOrBlank(req.message)
    ensures o.response.Reply? ==> o.response.reply != "" && o.calls != []
  {
    if !KeyConfigured(apiKey) then ChatOutcome(Failure(500, KeyMissing), [])
    else if MissingOrBlank(req.message) then ChatOutcome(Failure(400, MessageRequired), [])
    else
      var call := ChatCall(systemPrompt, Conversation(req.history.GetOr([])), req.message.value);
      match gen
      case GenError => ChatOutcome(Failure(500, Unexpected), [call])
      case Generated(text) =>
        var reply := AnswerText(text);
        if reply == "" then ChatOutcome(Failure(502, EmptyResponse), [call])
        else ChatOutcome(Reply(reply), [call])
  }

  /** A missing key is answered with 500 before anything else, without a provider call. */
  lemma ChatKeyMissing(apiKey: Option<string>, systemPrompt: string, req: ChatRequest, gen: GenResponse)
    requires !KeyConfigured(apiKey)
    ensures HandleChat(apiKey, systemPrompt, req, gen) == ChatOutcome(Failure(500, KeyMissing), [])
  {
  }

  /** With a key, a missing or blank message is answered with 400, again without a provider call. */
  lemma ChatMessageMissing(apiKey: Option<string>, systemPrompt: string, req: ChatRequest, gen: GenResponse)
    requires KeyConfigured(apiKey) && MissingOrBlank(req.message)
    ensures HandleChat(apiKey, systemPrompt, req, gen) == ChatOutcome(Failure(400, MessageRequired), [])
  {
  }

  /**
   * A valid request makes exactly one provider call: the fixed model and
   * sampling settings, the system prompt as instructions, and the prompt built
   * from the conversation window and the message as sent.
   */
  lemma ChatSingleCall(apiKey: Option<string>, systemPrompt: string, req: ChatRequest, gen: GenResponse)
    requires KeyConfigured(apiKey) && !MissingOrBlank(req.message)
    ensures var conv := Conversation(req.history.GetOr([]));
            HandleChat(apiKey, systemPrompt, req, gen).calls
              == [GenerationRequest("gpt-4o-mini", systemPrompt, PromptInput(conv, req.message.value), 0.2, 400)]
  {
  }

  /** A request without `history` is answered as one with an empty history. */
  lemma ChatHistoryDefault(apiKey: Option<string>, systemPrompt: string, message: Option<string>, gen: GenResponse)
    ensures HandleChat(apiKey, systemPrompt, ChatRequest(message, None), gen)
         == HandleChat(apiKey, systemPrompt, ChatRequest(message, Some([])), gen)
  {
  }

  /**
   * Every response is 200, 400, 500 or 502, and only 200 carries a reply.  A
   * 500 is the missing key, or else the generic error, which a valid request
   * gets exactly when the generation call threw.
   */
  lemma ChatStatuses(apiKey: Option<string>, systemPrompt: string, req: ChatRequest, gen: GenResponse)
    ensures var r := HandleChat(apiKey, systemPrompt, req, gen).response;
            && r.Status() in {200, 400, 500, 502}
            && (r.Status() == 200 <==> r.Reply?)
            && (r.Failure? && r.status == 500 ==> r.error == KeyMissing || r.error == Unexpected)
    ensures KeyConfigured(apiKey) && !MissingOrBlank(req.message) ==>
              (HandleChat(apiKey, systemPrompt, req, gen).response == Failure(500, Unexpected) <==> gen.GenError?)
  {
  }

  /**
   * The reply: exactly when the request is valid and the generated text is not
   * blank, and then it is that text trimmed.
   */
  lemma ChatReply(apiKey: Option<string>, systemPrompt: string, req: ChatRequest, gen: GenResponse)
    ensures var r := HandleChat(apiKey, systemPrompt, req, gen).response;
            r.Reply? <==>
              KeyConfigured(apiKey) && !MissingOrBlank(req.message) && gen.Generated? && !MissingOrBlank(gen.outputText)
    ensures var r := HandleChat(apiKey, systemPrompt, req, gen).response;
            r.Reply? ==>
              && r.reply == Trim(gen.outputText.value)
              && r.reply != [] && !IsWs(r.reply[0]) && !IsWs(r.reply[|r.reply| - 1])
  {
    if KeyConfigured(apiKey) && !MissingOrBlank(req.message) && gen.Generated? && !MissingOrBlank(gen.outputText) {
      var reply := AnswerText(gen.outputText);
      assert reply == Trim(gen.outputText.value) && reply != "";
    }
  }

  /** 502 exactly when the request is valid but the generated text is missing or blank. */
  lemma ChatEmptyReply(apiKey: Option<string>, systemPrompt: string, req: ChatRequest, gen: GenResponse)
    ensures HandleChat(apiKey, systemPrompt, req, gen).response.Status() == 502 <==>
              KeyConfigured(apiKey) && !MissingOrBlank(req.message) && gen.Generated? && MissingOrBlank(gen.outputText)
  {
  }
}
