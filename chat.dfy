/**
 * The reply pipeline of the chat widget (`AIChat`): the conversation
 * history, the request sent to the chat-completion endpoint, the fallback
 * on every failure, and the `isProcessing` guard that lets one message be
 * handled at a time.
 *
 * `generateResponse` is asynchronous: it awaits the `fetch` of the remote
 * reply and then `response.json()`. The model takes the two awaits together
 * as one settled `FetchOutcome` and splits the method there. `HandleClick`
 * runs a click handler up to the suspension (or to the end, when no API key
 * is stored and nothing is fetched); `ResolveFetch` runs the rest once the
 * call has settled. Between the two, further clicks are handled, and dropped.
 */
module Chat {
  import opened Wrappers
  import opened Storage
  import opened Config
  import Fallback

  datatype Role = System | User | Assistant

  datatype Message = Message(role: Role, content: string)

  /** How many history entries the request carries (`slice(-10)`). */
  const HistoryWindow: nat := 10

  const Endpoint: string := "https://api.openai.com/v1/chat/completions"
  const ModelName: string := "gpt-3.5-turbo"
  const MaxTokens: nat := 500
  const Temperature: real := 0.7
  const PresencePenalty: real := 0.1
  const FrequencyPenalty: real := 0.1

  /** The POST to the endpoint: the bearer key and the JSON body. */
  datatype ChatRequest = ChatRequest(
    endpoint: string,
    apiKey: string,
    model: string,
    messages: seq<Message>,
    maxTokens: nat,
    temperature: real,
    presencePenalty: real,
    frequencyPenalty: real)

  /** How the two awaits of a call, `fetch` and `response.json()`, settled,
      taken together: a transport failure, or a response with its HTTP
      status and the string found at `choices[0].message.content`. `None`
      stands for every body that holds no such string: one that is not JSON,
      one without `choices[0].message`, and one whose `content` is absent
      or not a string. */
  datatype FetchOutcome =
    | NetworkError
    | Response(status: int, content: Option<string>)

  /** `response.ok` */
  predicate IsOk(status: int) {
    200 <= status <= 299
  }

  /** The assistant's text, when the call succeeded; None on every failure. */
  function AiReply(outcome: FetchOutcome): (reply: Option<string>)
    ensures reply.Some? <==> outcome.Response? && IsOk(outcome.status) && outcome.content.Some?
    ensures reply.Some? ==> reply == outcome.content
  {
    match outcome
    case NetworkError => None
    case Response(status, content) => if IsOk(status) then content else None
  }

  function Min(a: nat, b: nat): nat {
    if a <= b then a else b
  }

  /** `history.slice(-n)` for n > 0: the last n entries, or all when there are fewer. */
  function LastN(history: seq<Message>, n: nat): (r: seq<Message>)
    requires n > 0
    ensures |r| == Min(|history|, n)
    ensures r == history[|history| - |r|..]
  {
    if |history| <= n then history else history[|history| - n..]
  }

  /** The `messages` of the request: the system prompt, then the last ten
      history entries, oldest first. */
  function Outbound(systemPrompt: string, history: seq<Message>): (r: seq<Message>)
    ensures 1 <= |r| <= 1 + HistoryWindow
    ensures |r| == 1 + Min(|history|, HistoryWindow)
    ensures r[0] == Message(System, systemPrompt)
    ensures r[1..] == history[|history| - (|r| - 1)..]
    ensures |history| > 0 ==> r[|r| - 1] == history[|history| - 1]
  {
    [Message(System, systemPrompt)] + LastN(history, HistoryWindow)
  }

  /** The request `generateResponse` sends with `apiKey` once `history` holds the new message. */
  function RequestFor(apiKey: string, systemPrompt: string, history: seq<Message>): ChatRequest {
    ChatRequest(Endpoint, apiKey, ModelName, Outbound(systemPrompt, history),
                MaxTokens, Temperature, PresencePenalty, FrequencyPenalty)
  }

  /** `initializeSystemPrompt()`: the persona and instructions sent ahead of
      the history on every request. */
  const InitialSystemPrompt: string :=
    "Ciao! Sono DevNinja-bot, l'assistente virtuale di DevNinja 🤖\n\nSono qui per aiutarti a scoprire come possiamo trasformare le tue idee digitali in realtà! Lavoro con un team fantastico di sviluppatori che creano siti web, app e soluzioni AI innovative.\n\n🏢 **Chi siamo:**\nDevNinja è un'azienda di sviluppo web con sede a Milano. Siamo specializzati nel creare esperienze digitali che fanno la differenza per i nostri clienti.\n\n📍 **Dove trovarci:**\nVia Roma 123, Milano\n📧 info@devninja.it\n📱 +39 02 1234 5678 (chiamaci dal lunedì al venerdì, 9-18)\n\n🚀 **Cosa facciamo meglio:**\n• Siti web moderni e responsive (React, Vue.js, Angular)\n• Backend robusti e scalabili (Node.js, Python, PHP)\n• E-commerce che convertono davvero\n• Chatbot AI come me! 🤖\n• App web personalizzate\n\n💡 **Progetti di cui andiamo fieri:**\n• Un e-commerce fashion con oltre 10.000 prodotti\n• Sistema gestionale per una clinica con telemedicina\n• Piattaforma e-learning interattiva\n• Chatbot bancario che gestisce migliaia di richieste\n\n💰 **Investimento indicativo:**\n• Sito vetrina: €800-1.500\n• Sito business: €1.500-3.000\n• App web complessa: €3.000-8.000\n• Chatbot AI: €500-2.000\n\n⏰ **Tempi di realizzazione:**\n• Sito semplice: 2-4 settimane\n• Progetto business: 4-8 settimane\n• App complessa: 8-16 settimane\n• Chatbot: 1-3 settimane\n\n**Come devo comportarmi:**\n- Parla come un consulente esperto ma amichevole\n- Usa un tono conversazionale e naturale\n- Fai domande per capire meglio le esigenze\n- Racconta aneddoti sui progetti quando appropriato\n- Usa emoji con moderazione per essere più umano\n- Suggerisci sempre il prossimo passo concreto\n- Se non sai qualcosa, ammettilo onestamente\n- Personalizza le risposte in base al contesto\n- Mantieni un equilibrio tra professionalità e cordialità\n- Evita risposte troppo lunghe o elenchi puntati eccessivi"


  /** The stored history never holds the system prompt, and every assistant
      entry directly follows the user entry it answers. */
  predicate WellFormed(history: seq<Message>) {
    forall i :: 0 <= i < |history| ==> history[i].role != System && AnswersUser(history, i)
  }

  /** An assistant entry at `i` directly follows a user entry. */
  predicate AnswersUser(history: seq<Message>, i: nat)
    requires i < |history|
  {
    history[i].role == Assistant ==> i > 0 && history[i - 1].role == User
  }

  /** Appending a user message keeps the history well formed. */
  lemma AppendUserKeepsWellFormed(history: seq<Message>, text: string)
    requires WellFormed(history)
    ensures WellFormed(history + [Message(User, text)])
  {
    var h := history + [Message(User, text)];
    forall i | 0 <= i < |h| ensures h[i].role != System && AnswersUser(h, i) {
      if i < |history| {
        assert h[i] == history[i];
      }
      if 0 < i < |history| { assert h[i - 1] == history[i - 1]; }
    }
  }

  /** Appending an assistant message right after a user message keeps the
      history well formed. */
  lemma AppendAnswerKeepsWellFormed(history: seq<Message>, text: string)
    requires WellFormed(history)
    requires |history| > 0 && history[|history| - 1].role == User
    ensures WellFormed(history + [Message(Assistant, text)])
  {
    var h := history + [Message(Assistant, text)];
    forall i | 0 <= i < |h| ensures h[i].role != System && AnswersUser(h, i) {
      if i < |history| {
        assert h[i] == history[i];
      }
      if 0 < i <= |history| { assert h[i - 1] == history[i - 1]; }
      if i == |history| { assert h[i - 1] == history[|history| - 1]; }
    }
  }

  /** In a well-formed history the request carries the system prompt once,
      at its head. */
  lemma {:induction false} SystemPromptOnlyAtHead(systemPrompt: string, history: seq<Message>)
    requires WellFormed(history)
    ensures forall i :: 1 <= i < |Outbound(systemPrompt, history)| ==> Outbound(systemPrompt, history)[i].role != System
  {
    var r := Outbound(systemPrompt, history);
    forall i | 1 <= i < |r| ensures r[i].role != System {
      assert r[i] == r[1..][i - 1] == history[|history| - (|r| - 1) + (i - 1)];
    }
  }

  /** What `generateResponse` gives back before it would await the fetch:
      the finished reply, or the request it sends. */
  datatype Step = Replied(text: string) | Sent(request: ChatRequest)

  /** What a click handler does with a click. */
  datatype ClickResult =
    | Ignored                    // not on a button, or a message is still in flight
    | Answered(reply: string)    // handled to the end: the reply shown
    | Awaiting(request: ChatRequest)  // suspended on the fetch of this request

  class AIChat {
    const storage: LocalStorage
    /** `window.ChatbotConfig`, which may be missing. */
    const config: ChatbotConfig?
    const systemPrompt: string
    var history: seq<Message>
    var isProcessing: bool
    /** The message of the handler suspended on the fetch, if any. */
    var pending: Option<string>

    ghost predicate Valid()
      reads this
    {
      && (config != null ==> config.storage == storage)
      && (isProcessing <==> pending.Some?)
      && WellFormed(history)
      && (pending.Some? ==> |history| > 0 && history[|history| - 1] == Message(User, pending.value))
    }

    constructor (storage: LocalStorage, config: ChatbotConfig?)
      requires config != null ==> config.storage == storage
      ensures Valid()
      ensures this.storage == storage && this.config == config
      ensures systemPrompt == InitialSystemPrompt
      ensures history == [] && !isProcessing
    {
      this.storage := storage;
      this.config := config;
      systemPrompt := InitialSystemPrompt;
      history := [];
      isProcessing := false;
      pending := None;
    }

    /** `getApiKey()`: asks `ChatbotConfig` when it is present, else reads
        `localStorage` itself; both read the same entry the same way. */
    method GetApiKey() returns (r: Result<string, ConfigError>)
      requires config != null ==> config.storage == storage
      ensures r == StoredKey(storage.items)
    {
      if config != null {
        r := config.GetApiKey();
        return;
      }
      var apiKey := storage.GetItem(ApiKeyName);
      if apiKey.None? || apiKey.value == "" {
        return Failure(NotConfigured);
      }
      r := Success(apiKey.value);
    }

    /** `generateResponse(message)` up to the fetch. Without a key it ends
        with the fallback reply and leaves the history alone; with one it
        appends the user message and builds the request from the history
        that already holds it. */
    method BeginResponse(message: string, roll: real) returns (step: Step)
      requires config != null ==> config.storage == storage
      requires 0.0 <= roll < 1.0
      modifies this`history
      ensures StoredKey(storage.items).Failure? ==>
        step == Replied(Fallback.Respond(message, roll)) && history == old(history)
      ensures StoredKey(storage.items).Success? ==>
        history == old(history) + [Message(User, message)] &&
        step == Sent(RequestFor(StoredKey(storage.items).value, systemPrompt, history))
    {
      var apiKey := GetApiKey();
      if apiKey.Failure? {
        return Replied(Fallback.Respond(message, roll));
      }
      history := history + [Message(User, message)];
      step := Sent(RequestFor(apiKey.value, systemPrompt, history));
    }

    /** `generateResponse(message)` after the fetch: the assistant's text is
        appended and returned on success; on any failure the history is left
        alone and the fallback reply to the original message is returned. */
    method CompleteResponse(message: string, outcome: FetchOutcome, roll: real) returns (reply: string)
      requires 0.0 <= roll < 1.0
      modifies this`history
      ensures AiReply(outcome).Some? ==>
        reply == AiReply(outcome).value && history == old(history) + [Message(Assistant, reply)]
      ensures AiReply(outcome).None? ==>
        reply == Fallback.Respond(message, roll) && history == old(history)
    {
      match outcome
      case NetworkError =>
        reply := Fallback.Respond(message, roll);
      case Response(status, content) =>
        if !IsOk(status) || content.None? {
          reply := Fallback.Respond(message, roll);
        } else {
          history := history + [Message(Assistant, content.value)];
          reply := content.value;
        }
    }

    /** A click on an action button or a quick reply (`onTarget`), carrying
        `message`. While a message is in flight the click is dropped. */
    method HandleClick(onTarget: bool, message: string, roll: real) returns (result: ClickResult)
      requires Valid()
      requires 0.0 <= roll < 1.0
      modifies this
      ensures Valid()
      ensures !onTarget || old(isProcessing) ==>
        result == Ignored && history == old(history) &&
        isProcessing == old(isProcessing) && pending == old(pending)
      ensures onTarget && !old(isProcessing) && StoredKey(storage.items).Failure? ==>
        result == Answered(Fallback.Respond(message, roll)) &&
        history == old(history) && !isProcessing
      ensures onTarget && !old(isProcessing) && StoredKey(storage.items).Success? ==>
        history == old(history) + [Message(User, message)] &&
        result == Awaiting(RequestFor(StoredKey(storage.items).value, systemPrompt, history)) &&
        isProcessing && pending == Some(message)
    {
      if !onTarget || isProcessing {
        return Ignored;
      }
      ghost var before := history;
      isProcessing := true;
      var step := BeginResponse(message, roll);
      match step
      case Replied(text) =>
        isProcessing := false;
        result := Answered(text);
      case Sent(request) =>
        AppendUserKeepsWellFormed(before, message);
        pending := Some(message);
        result := Awaiting(request);
    }

    /** The fetch a suspended handler awaits settles with `outcome`: the
        handler finishes and the guard is released. */
    method ResolveFetch(outcome: FetchOutcome, roll: real) returns (reply: string)
      requires Valid() && isProcessing
      requires 0.0 <= roll < 1.0
      modifies this
      ensures Valid() && !isProcessing
      ensures AiReply(outcome).Some? ==>
        reply == AiReply(outcome).value && history == old(history) + [Message(Assistant, reply)]
      ensures AiReply(outcome).None? ==>
        reply == Fallback.Respond(old(pending).value, roll) && history == old(history)
    {
      var message := pending.value;
      ghost var before := history;
      reply := CompleteResponse(message, outcome, roll);
      if AiReply(outcome).Some? {
        AppendAnswerKeepsWellFormed(before, reply);
      }
      pending := None;
      isProcessing := false;
    }
  }

  /** Two clicks, the second arriving while the first is in flight: the
      second is dropped, and the history gains the first exchange, in order. */
  method SecondClickWhileInFlight(chat: AIChat, first: string, second: string, outcome: FetchOutcome, roll: real)
    returns (reply: string)
    requires chat.Valid() && !chat.isProcessing
    requires StoredKey(chat.storage.items).Success?
    requires 0.0 <= roll < 1.0
    modifies chat
    ensures chat.Valid() && !chat.isProcessing
    ensures AiReply(outcome).Some? ==>
      chat.history == old(chat.history) + [Message(User, first), Message(Assistant, reply)]
    ensures AiReply(outcome).None? ==>
      chat.history == old(chat.history) + [Message(User, first)] &&
      reply == Fallback.Respond(first, roll)
  {
    var started := chat.HandleClick(true, first, roll);
    var dropped := chat.HandleClick(true, second, roll);
    assert dropped == Ignored;
    reply := chat.ResolveFetch(outcome, roll);
  }
}
