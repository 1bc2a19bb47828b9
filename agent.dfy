/**
 * The currency agent of sk/agent.py: the phrase check that decides whether an
 * answer asks the user for more input, the per-session chat memory, and the
 * fixed three-item stream.  The language model is an oracle `llm` that maps the
 * chat history it is shown to an answer or a failure.
 */
module Agent {
  import opened Wrappers
  import opened Text

  type SessionId = string

  /** One entry of a session's chat history. */
  datatype ChatMessage = SystemInstruction | UserMessage(text: string) | AssistantMessage(text: string)

  /** What the chat-completion service gives back: an answer, or an exception with its text. */
  datatype LlmReply = Answer(text: string) | Failed(error: string)

  type Llm = seq<ChatMessage> -> LlmReply

  /** The result dictionary returned by `invoke` and yielded by `stream`. */
  datatype AgentResult = AgentResult(isTaskComplete: bool, requireUserInput: bool, content: string)

  /** `invoke` either returns a result or raises with the service's error text. */
  datatype InvokeOutcome = Replied(result: AgentResult) | Raised(error: string)

  /** The items a `stream` generator yields, then the exception it raises, if any. */
  datatype StreamRun = StreamRun(items: seq<AgentResult>, raised: Option<string>)

  const SupportedContentTypes: seq<string> := ["text", "text/plain"]

  /** The phrases whose presence in the lower-cased answer means "needs more input". */
  const InputPhrases: seq<string> := ["which currency", "what currency", "specify", "need more information"]

  const LookingUp := AgentResult(false, false, "Looking up the exchange rates...")
  const ProcessingRates := AgentResult(false, false, "Processing the exchange rates...")

  // ---------------------------------------------------------------------------
  // Classification of an answer
  // ---------------------------------------------------------------------------

  predicate NeedsMoreInput(answer: string) {
    ContainsAny(Lower(answer), InputPhrases)
  }

  /** The result dictionary built from the answer text. */
  function Classify(answer: string): AgentResult {
    if NeedsMoreInput(answer) then AgentResult(false, true, answer)
    else AgentResult(true, false, answer)
  }

  /**
   * `require_user_input` is set exactly when one of the four phrases occurs in the
   * lower-cased answer; `is_task_complete` is its negation; the content is the answer.
   */
  lemma RequireUserInputIff(answer: string)
    ensures Classify(answer).requireUserInput <==>
              exists k, i :: 0 <= k < |InputPhrases| && OccursAt(InputPhrases[k], Lower(answer), i)
    ensures Classify(answer).isTaskComplete == !Classify(answer).requireUserInput
    ensures Classify(answer).content == answer
  {
    ContainsAnyIff(Lower(answer), InputPhrases);
  }

  /** The classification does not depend on the case of the answer's letters. */
  lemma ClassifyIgnoresCase(answer: string)
    ensures Classify(Lower(answer)).requireUserInput == Classify(answer).requireUserInput
    ensures Classify(Lower(answer)).isTaskComplete == Classify(answer).isTaskComplete
  {
    LowerIdempotent(answer);
  }

  /** Every answer that starts with "Which currency" is classified as needing input. */
  lemma AskingForCurrencyNeedsInput(a: string)
    requires |a| >= 14 && a[..14] == "Which currency"
    ensures Classify(a).requireUserInput
  {
    var l := Lower(a);
    forall i | 0 <= i < 14
      ensures l[i] == "which currency"[i]
    {
      assert a[i] == a[..14][i];
      assert l[i] == LowerChar(a[i]);
    }
    assert l[..14] == "which currency";
    RequireUserInputIff(a);
    assert OccursAt(InputPhrases[0], Lower(a), 0);
  }

  // ---------------------------------------------------------------------------
  // Session memory
  // ---------------------------------------------------------------------------

  /** The history of a session, a fresh one (holding only the system instruction) if unseen. */
  function SessionHistory(conversations: map<SessionId, seq<ChatMessage>>, session: SessionId): seq<ChatMessage> {
    if session in conversations then conversations[session] else [SystemInstruction]
  }

  /** The history handed to the model AS WRITTEN (line 142): the current query is not in it yet. */
  function PromptAsWritten(conversations: map<SessionId, seq<ChatMessage>>, session: SessionId): seq<ChatMessage> {
    SessionHistory(conversations, session)
  }

  /** The history the model is evidently meant to see: the session so far, then the query. */
  function Prompt(conversations: map<SessionId, seq<ChatMessage>>, session: SessionId, query: string): seq<ChatMessage> {
    SessionHistory(conversations, session) + [UserMessage(query)]
  }

  /**
   * The session table after one `invoke`: the session is created if absent; on an
   * answer, the query and then the answer are appended; on a failure nothing is appended.
   */
  function ConversationsAfter(conversations: map<SessionId, seq<ChatMessage>>, session: SessionId,
                              query: string, reply: LlmReply): map<SessionId, seq<ChatMessage>> {
    match reply
    case Answer(a) => conversations[session := SessionHistory(conversations, session) + [UserMessage(query), AssistantMessage(a)]]
    case Failed(_) => conversations[session := SessionHistory(conversations, session)]
  }

  function InvokeResult(reply: LlmReply): InvokeOutcome {
    match reply
    case Answer(a) => Replied(Classify(a))
    case Failed(e) => Raised(e)
  }

  /** What `stream` yields: one progress item, then (after `invoke`) a second one and the result. */
  function StreamRunOf(reply: LlmReply): StreamRun {
    match InvokeResult(reply)
    case Replied(r) => StreamRun([LookingUp, ProcessingRates, r], None)
    case Raised(e) => StreamRun([LookingUp], Some(e))
  }

  /** A new session gets a fresh history; a known one keeps its history as the prefix. */
  lemma SessionCreatedOrReused(conversations: map<SessionId, seq<ChatMessage>>, session: SessionId,
                               query: string, reply: LlmReply)
    ensures var after := ConversationsAfter(conversations, session, query, reply);
      && session in after
      && after.Keys == conversations.Keys + {session}
      && (session !in conversations ==> after[session][..1] == [SystemInstruction])
      && (session in conversations ==> after[session][..|conversations[session]|] == conversations[session])
  {
  }

  /** One answered turn adds exactly the query and then the answer to that session, and nothing else changes. */
  lemma AnsweredTurn(conversations: map<SessionId, seq<ChatMessage>>, session: SessionId, query: string, answer: string)
    ensures var after := ConversationsAfter(conversations, session, query, Answer(answer));
      && after[session] == SessionHistory(conversations, session) + [UserMessage(query), AssistantMessage(answer)]
      && |after[session]| == |SessionHistory(conversations, session)| + 2
      && forall other :: other in conversations && other != session ==> other in after && after[other] == conversations[other]
  {
  }

  /** A history that starts with the system instruction and then alternates user and assistant messages. */
  ghost predicate WellFormedHistory(h: seq<ChatMessage>) {
    && |h| % 2 == 1
    && h[0] == SystemInstruction
    && forall i :: 1 <= i < |h| ==> (if i % 2 == 1 then h[i].UserMessage? else h[i].AssistantMessage?)
  }

  ghost predicate WellFormedConversations(conversations: map<SessionId, seq<ChatMessage>>) {
    forall s :: s in conversations ==> WellFormedHistory(conversations[s])
  }

  /** Every `invoke` keeps all session histories well formed. */
  lemma InvokeKeepsConversationsWellFormed(conversations: map<SessionId, seq<ChatMessage>>, session: SessionId,
                                           query: string, reply: LlmReply)
    requires WellFormedConversations(conversations)
    ensures WellFormedConversations(ConversationsAfter(conversations, session, query, reply))
  {
    var h := SessionHistory(conversations, session);
    assert WellFormedHistory(h);
    if reply.Answer? {
      var h' := h + [UserMessage(query), AssistantMessage(reply.text)];
      forall i | 1 <= i < |h'|
        ensures if i % 2 == 1 then h'[i].UserMessage? else h'[i].AssistantMessage?
      {
        if i < |h| {
          assert h'[i] == h[i];
        }
      }
      assert WellFormedHistory(h');
    }
  }

  /**
   * As written, the model is shown a history whose last entry is never a user
   * message: it never sees the query it is answering.
   */
  lemma PromptAsWrittenOmitsQuery(conversations: map<SessionId, seq<ChatMessage>>, session: SessionId)
    requires WellFormedConversations(conversations)
    ensures var p := PromptAsWritten(conversations, session);
      |p| > 0 && !p[|p| - 1].UserMessage?
  {
    var p := PromptAsWritten(conversations, session);
    assert WellFormedHistory(p);
    assert (|p| - 1) % 2 == 0;
  }

  /** The first query of a new session: the model is shown the system instruction alone. */
  lemma FirstQueryIsNotShown(conversations: map<SessionId, seq<ChatMessage>>, session: SessionId, query: string)
    requires session !in conversations
    ensures PromptAsWritten(conversations, session) == [SystemInstruction]
    ensures UserMessage(query) !in PromptAsWritten(conversations, session)
  {
  }

  /** With the correction, the model sees the query last, and the stored turn is that prompt plus its answer. */
  lemma PromptEndsWithQuery(conversations: map<SessionId, seq<ChatMessage>>, session: SessionId, query: string, answer: string)
    ensures var p := Prompt(conversations, session, query);
      && p[|p| - 1] == UserMessage(query)
      && ConversationsAfter(conversations, session, query, Answer(answer))[session] == p + [AssistantMessage(answer)]
  {
  }

  /** The stream's shape: two progress items and the result, or one progress item and the exception. */
  lemma StreamShape(reply: LlmReply)
    ensures var run := StreamRunOf(reply);
      && run.items[0] == LookingUp
      && (reply.Answer? ==>
            |run.items| == 3 && run.items[1] == ProcessingRates && run.items[2] == Classify(reply.text) && run.raised == None)
      && (reply.Failed? ==> |run.items| == 1 && run.raised == Some(reply.error))
      && forall k :: 0 <= k < |run.items| - 1 ==> !run.items[k].isTaskComplete && !run.items[k].requireUserInput
  {
  }

  class CurrencyAgent {
    /** `self.conversations`: the chat history of every session seen so far. */
    var conversations: map<SessionId, seq<ChatMessage>>

    constructor ()
      ensures conversations == map[]
      ensures WellFormedConversations(conversations)
    {
      conversations := map[];
    }

    /** `invoke`: one turn of the conversation of `session`. */
    method Invoke(query: string, session: SessionId, llm: Llm) returns (r: InvokeOutcome)
      modifies this
      ensures old(WellFormedConversations(conversations)) ==> WellFormedConversations(conversations)
      ensures var reply := llm(Prompt(old(conversations), session, query));
        && conversations == ConversationsAfter(old(conversations), session, query, reply)
        && r == InvokeResult(reply)
    {
      ghost var h := SessionHistory(conversations, session);
      if session !in conversations {
        conversations := conversations[session := [SystemInstruction]];
      } else {
        assert conversations.Keys == conversations.Keys + {session};
        assert conversations == conversations[session := h];
      }
      var prompt := conversations[session] + [UserMessage(query)];
      assert prompt == Prompt(old(conversations), session, query);
      var reply := llm(prompt);
      match reply {
        case Failed(e) =>
          r := Raised(e);
        case Answer(answer) =>
          conversations := conversations[session := conversations[session] + [UserMessage(query)]];
          conversations := conversations[session := conversations[session] + [AssistantMessage(answer)]];
          assert conversations[session] == h + [UserMessage(query), AssistantMessage(answer)];
          assert conversations == old(conversations)[session := h + [UserMessage(query), AssistantMessage(answer)]];
          r := Replied(Classify(answer));
      }
      if old(WellFormedConversations(conversations)) {
        InvokeKeepsConversationsWellFormed(old(conversations), session, query, reply);
      }
    }

    /** `stream`: yields the first progress item, calls `invoke` once, then yields the rest. */
    method Stream(query: string, session: SessionId, llm: Llm) returns (run: StreamRun)
      modifies this
      ensures old(WellFormedConversations(conversations)) ==> WellFormedConversations(conversations)
      ensures var reply := llm(Prompt(old(conversations), session, query));
        && conversations == ConversationsAfter(old(conversations), session, query, reply)
        && run == StreamRunOf(reply)
    {
      var items := [LookingUp];
      var response := Invoke(query, session, llm);
      match response {
        case Raised(e) =>
          run := StreamRun(items, Some(e));
        case Replied(result) =>
          items := items + [ProcessingRates];
          run := StreamRun(items + [result], None);
      }
    }
  }
}
