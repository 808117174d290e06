/** The two-step chat flow: `create_chat` stores the user message and an empty assistant
    row and registers a stream ticket; `stream_chat` redeems the ticket once and streams
    the answer as delta events, appending what it streamed to the assistant row.
    The language model is a parameter (the deltas it produces and whether it then fails);
    fresh ids are parameters that must not be in use; SSE framing is left abstract. */
module Chat {
  import opened Text
  import Settings

  datatype Role = User | Assistant

  /** A row of the `messages` table. */
  datatype Message = Message(id: string, sessionId: string, role: Role, content: string)

  /** One server-sent event: `{"delta": text, "done": false}` or `{"done": true}`. */
  datatype Event = Delta(text: string) | Done

  /** The errors a client sees: a request body pydantic rejects (422), a message insert
      rejected by the foreign key on `session_id` (500), an unknown or spent ticket (404). */
  datatype ChatError = ValidationError | ForeignKeyViolation | NotFound

  datatype CreateChatResponse = CreateChatResponse(streamId: string, sessionId: string)

  /** What redeeming a stream id yields: the payload and the assistant row to fill. */
  datatype Ticket = Ticket(payload: string, placeholder: string)

  /** The language model's answer: the deltas it streamed, and whether it raised afterwards. */
  datatype Completion = Completion(deltas: seq<string>, fails: bool)

  const TitleLength: nat := 40
  const NewChatTitle: string := "New Chat"
  const EchoPrefix: string := "Echo: "
  const SystemPrompt: string := "You are a helpful assistant."
  const DefaultOpenRouterModel: string := "google/gemini-2.5-flash-image-preview:free"

  // ---------------------------------------------------------------------
  // Pure parts

  /** `user_message[:40] or "New Chat"` */
  function Title(message: string): (t: string)
    ensures t != []
    ensures message != [] ==> t == message[..Min(TitleLength, |message|)]
    ensures message == [] ==> t == NewChatTitle
  {
    var prefix := Take(message, TitleLength);
    if prefix != [] then prefix else NewChatTitle
  }

  /** The language model is used when the provider is openai or openrouter, streaming is on,
      and that provider's key is set; otherwise the echo fallback runs. */
  predicate UseLlm(s: Settings.Settings) {
    (s.llmProvider == "openai" || s.llmProvider == "openrouter") && s.llmStreamingEnabled
    && ((s.llmProvider == "openai" && s.openaiApiKey != []) || (s.llmProvider == "openrouter" && s.openrouterApiKey != []))
  }

  /** The payload stored with a ticket: the raw message for the model, "Echo: " + message otherwise. */
  function Payload(s: Settings.Settings, message: string): string
  {
    if UseLlm(s) then message else EchoPrefix + message
  }

  /** One chat message sent to the model. */
  datatype ChatMessage = ChatMessage(role: string, content: string)

  /** The messages sent to the model: the fixed system prompt and the payload, nothing else. */
  function LlmMessages(payload: string): seq<ChatMessage>
  {
    [ChatMessage("system", SystemPrompt), ChatMessage("user", payload)]
  }

  /** How the streaming client is built for OpenRouter. */
  datatype ClientConfig = ClientConfig(apiKey: string, model: string, baseUrl: string, headers: map<string, string>)

  function OpenRouterClient(s: Settings.Settings): (c: ClientConfig)
    ensures c.apiKey == s.openrouterApiKey && c.baseUrl == s.openrouterBaseUrl
    ensures c.model == (if s.openaiModel != [] then s.openaiModel else DefaultOpenRouterModel)
    ensures "HTTP-Referer" in c.headers <==> s.openrouterSiteUrl != []
    ensures "X-Title" in c.headers <==> s.openrouterSiteTitle != []
    ensures c.headers.Keys <= {"HTTP-Referer", "X-Title"}
    ensures forall k :: k in c.headers ==> c.headers[k] != []
  {
    var h1: map<string, string> := if s.openrouterSiteUrl != [] then map["HTTP-Referer" := s.openrouterSiteUrl] else map[];
    var h2 := if s.openrouterSiteTitle != [] then h1["X-Title" := s.openrouterSiteTitle] else h1;
    ClientConfig(s.openrouterApiKey, if s.openaiModel != [] then s.openaiModel else DefaultOpenRouterModel,
                 s.openrouterBaseUrl, h2)
  }

  /** The client `generator` builds: the OpenRouter configuration for that provider, the
      default client built from the settings (`None`) for openai. */
  function ClientFor(s: Settings.Settings): Option<ClientConfig>
  {
    if s.llmProvider == "openrouter" then Some(OpenRouterClient(s)) else None
  }

  /** The language model behind `stream_chat` of the client: for the client it is reached
      through and the messages sent, the deltas it streams and whether it raises afterwards. */
  type LanguageModel = (Option<ClientConfig>, seq<ChatMessage>) -> Completion

  /** The chunks of the echo stream: the words, each after the first preceded by one space. */
  function Chunks(words: seq<string>): (cs: seq<string>)
    ensures |cs| == |words|
  {
    seq(|words|, i requires 0 <= i < |words| => (if i > 0 then " " else "") + words[i])
  }

  function DeltasOf(ds: seq<string>): (es: seq<Event>)
    ensures |es| == |ds| && forall i :: 0 <= i < |ds| ==> es[i] == Delta(ds[i])
  {
    seq(|ds|, i requires 0 <= i < |ds| => Delta(ds[i]))
  }

  /** `_stream_response_text(text)`: a delta per word, then `done`. */
  function EchoEvents(text: string): seq<Event>
  {
    DeltasOf(Chunks(Words(text))) + [Done]
  }

  /** The texts of the delta events that are non-empty, in order. */
  function NonEmptyDeltas(events: seq<Event>): seq<string>
  {
    if events == [] then []
    else
      var e := events[|events| - 1];
      NonEmptyDeltas(events[..|events| - 1]) + (if e.Delta? && e.text != [] then [e.text] else [])
  }

  /** Everything a client reads from the delta events, in order. */
  function EmittedText(events: seq<Event>): string
  {
    if events == [] then []
    else
      var e := events[|events| - 1];
      EmittedText(events[..|events| - 1]) + (if e.Delta? then e.text else [])
  }

  /** `content = content || suffix` on the row with that id. */
  function UpdateContent(msgs: seq<Message>, id: string, suffix: string): (r: seq<Message>)
    ensures |r| == |msgs|
    ensures forall i :: 0 <= i < |msgs| ==>
              r[i].id == msgs[i].id && r[i].sessionId == msgs[i].sessionId && r[i].role == msgs[i].role
    ensures forall i :: 0 <= i < |msgs| ==>
              r[i].content == if msgs[i].id == id then msgs[i].content + suffix else msgs[i].content
  {
    seq(|msgs|, i requires 0 <= i < |msgs| =>
      if msgs[i].id == id then msgs[i].(content := msgs[i].content + suffix) else msgs[i])
  }

  /** The events the stream yields before its final `done`: the model's deltas, or every
      event of the echo of the payload. */
  function StreamEvents(s: Settings.Settings, payload: string, completion: Completion): seq<Event>
  {
    if UseLlm(s) then DeltasOf(completion.deltas) else EchoEvents(EchoPrefix + payload)
  }

  /** The deltas the stream collects for the database. */
  function Accumulated(s: Settings.Settings, payload: string, completion: Completion): seq<string>
  {
    if UseLlm(s) then completion.deltas else NonEmptyDeltas(EchoEvents(EchoPrefix + payload))
  }

  // ---------------------------------------------------------------------
  // Facts about the stream

  lemma {:induction false} ConcatChunks(words: seq<string>)
    ensures Concat(Chunks(words)) == Join(words, " ")
    decreases |words|
  {
    if |words| > 1 {
      var rest := words[1..];
      var cs := Chunks(words);
      assert cs[0] == words[0];
      ConcatOfTail(words);
      ConcatChunks(rest);
      assert Concat(cs) == words[0] + Concat(cs[1..]);
    } else if |words| == 1 {
      assert Chunks(words)[1..] == [];
    }
  }

  /** Past the first word, every chunk is a space followed by the word. */
  lemma ConcatOfTail(words: seq<string>)
    requires |words| > 1
    ensures Concat(Chunks(words)[1..]) == " " + Concat(Chunks(words[1..]))
  {
    var tail := Chunks(words)[1..];
    var rest := Chunks(words[1..]);
    assert tail[0] == " " + rest[0];
    assert tail[1..] == rest[1..];
  }

  lemma {:induction false} NonEmptyDeltasAppend(a: seq<Event>, b: seq<Event>)
    ensures NonEmptyDeltas(a + b) == NonEmptyDeltas(a) + NonEmptyDeltas(b)
    ensures EmittedText(a + b) == EmittedText(a) + EmittedText(b)
    decreases |b|
  {
    if b == [] {
      assert a + b == a;
    } else {
      var b' := b[..|b| - 1];
      assert (a + b)[..|a + b| - 1] == a + b';
      NonEmptyDeltasAppend(a, b');
    }
  }

  /** For deltas that are all non-empty, what is collected is exactly what was emitted. */
  lemma {:induction false} NonEmptyDeltasOfDeltas(ds: seq<string>)
    ensures EmittedText(DeltasOf(ds)) == Concat(ds)
    ensures (forall i :: 0 <= i < |ds| ==> ds[i] != []) ==> NonEmptyDeltas(DeltasOf(ds)) == ds
    decreases |ds|
  {
    if ds != [] {
      var init := ds[..|ds| - 1];
      assert DeltasOf(ds) == DeltasOf(init) + [Delta(ds[|ds| - 1])];
      NonEmptyDeltasAppend(DeltasOf(init), [Delta(ds[|ds| - 1])]);
      assert [Delta(ds[|ds| - 1])][..0] == [];
      NonEmptyDeltasOfDeltas(init);
      assert ds == init + [ds[|ds| - 1]];
      ConcatAppend(init, ds[|ds| - 1]);
    }
  }

  /** The echo stream emits the words of the text joined by single spaces, collects the same
      text, and ends with one `done`. */
  lemma EchoEventsText(text: string)
    ensures EmittedText(EchoEvents(text)) == Normalize(text)
    ensures Concat(NonEmptyDeltas(EchoEvents(text))) == Normalize(text)
    ensures EchoEvents(text)[|EchoEvents(text)| - 1] == Done
    ensures forall i :: 0 <= i < |EchoEvents(text)| - 1 ==> EchoEvents(text)[i].Delta?
  {
    var ws := Words(text);
    var cs := Chunks(ws);
    WordsAreWords(text);
    forall i | 0 <= i < |cs| ensures cs[i] != [] {
      assert ws[i] in ws;
    }
    NonEmptyDeltasOfDeltas(cs);
    NonEmptyDeltasAppend(DeltasOf(cs), [Done]);
    assert [Done][..0] == [];
    assert EmittedText([Done]) == [] && NonEmptyDeltas([Done]) == [];
    ConcatChunks(ws);
    assert EmittedText(EchoEvents(text)) == Concat(cs);
    assert NonEmptyDeltas(EchoEvents(text)) == cs;
  }

  /** "Echo: " in front of a text adds the word "Echo:" in front of its words. */
  lemma NormalizeEcho(p: string)
    ensures Normalize(EchoPrefix + p) == if Words(p) == [] then "Echo:" else "Echo: " + Normalize(p)
  {
    assert IsWord("Echo:");
    assert EchoPrefix + p == "Echo:" + (" " + p);
    WordsOfWordThen("Echo:", " " + p);
    WordsOfSpaceThen(p);
    if Words(p) != [] {
      JoinCons("Echo:", Words(p), " ");
    }
  }

  // ---------------------------------------------------------------------
  // The service

  predicate HasId(msgs: seq<Message>, id: string) {
    exists i :: 0 <= i < |msgs| && msgs[i].id == id
  }

  predicate IsAssistantRow(msgs: seq<Message>, id: string) {
    exists i :: 0 <= i < |msgs| && msgs[i].id == id && msgs[i].role == Assistant
  }

  predicate DistinctIds(msgs: seq<Message>) {
    forall i, j :: 0 <= i < j < |msgs| ==> msgs[i].id != msgs[j].id
  }

  /** Appending a row adds exactly its id, keeps the rows already there and keeps the ids
      distinct when the new id is unused. */
  lemma AppendMessage(msgs: seq<Message>, m: Message)
    ensures forall id :: HasId(msgs + [m], id) <==> HasId(msgs, id) || m.id == id
    ensures forall id :: IsAssistantRow(msgs, id) ==> IsAssistantRow(msgs + [m], id)
    ensures m.role == Assistant ==> IsAssistantRow(msgs + [m], m.id)
    ensures DistinctIds(msgs) && !HasId(msgs, m.id) ==> DistinctIds(msgs + [m])
  {
    var r := msgs + [m];
    assert r[|msgs|] == m;
    forall id | HasId(msgs, id) ensures HasId(r, id) {
      var i :| 0 <= i < |msgs| && msgs[i].id == id;
      assert r[i] == msgs[i];
    }
    forall id | IsAssistantRow(msgs, id) ensures IsAssistantRow(r, id) {
      var i :| 0 <= i < |msgs| && msgs[i].id == id && msgs[i].role == Assistant;
      assert r[i] == msgs[i];
    }
    forall id | HasId(r, id) ensures HasId(msgs, id) || m.id == id {
      var i :| 0 <= i < |r| && r[i].id == id;
      if i < |msgs| {
        assert r[i] == msgs[i];
      }
    }
    if DistinctIds(msgs) && !HasId(msgs, m.id) {
      forall i, j | 0 <= i < j < |r| ensures r[i].id != r[j].id {
        if j == |msgs| {
          assert r[i] == msgs[i];
        }
      }
    }
  }

  /** The sessions and messages tables, and the two module-level ticket maps. */
  class ChatService {
    const settings: Settings.Settings
    var sessions: map<string, string>
    var messages: seq<Message>
    var streams: map<string, string>
    var placeholders: map<string, string>

    /** Both ticket maps have the same keys; message ids are unique; every message belongs to
        a stored session; every ticket points at an assistant row. */
    ghost predicate Valid()
      reads this
    {
      streams.Keys == placeholders.Keys
      && DistinctIds(messages)
      && (forall i :: 0 <= i < |messages| ==> messages[i].sessionId in sessions)
      && (forall s :: s in placeholders ==> IsAssistantRow(messages, placeholders[s]))
    }

    constructor (settings: Settings.Settings)
      ensures Valid()
      ensures this.settings == settings && sessions == map[] && messages == [] && streams == map[] && placeholders == map[]
    {
      this.settings := settings;
      sessions := map[];
      messages := [];
      streams := map[];
      placeholders := map[];
    }

    /** `_ensure_session(session_id, title)`: a given non-empty id is returned as is, without
        checking it; otherwise a session with the fresh id and the title is inserted. */
    method EnsureSession(sessionId: Option<string>, title: string, newId: string) returns (sid: string)
      requires Valid() && newId !in sessions
      modifies this
      ensures Valid()
      ensures sessionId.Some? && sessionId.value != [] ==> sid == sessionId.value && sessions == old(sessions)
      ensures !(sessionId.Some? && sessionId.value != []) ==> sid == newId && sessions == old(sessions)[newId := title]
      ensures messages == old(messages) && streams == old(streams) && placeholders == old(placeholders)
    {
      if sessionId.Some? && sessionId.value != [] {
        return sessionId.value;
      }
      sessions := sessions[newId := title];
      sid := newId;
    }

    /** `_insert_message`: appends a row, unless the session is unknown (foreign key). */
    method InsertMessage(id: string, sessionId: string, role: Role, content: string) returns (ok: bool)
      requires Valid() && !HasId(messages, id)
      modifies this
      ensures Valid()
      ensures ok <==> sessionId in sessions
      ensures ok ==> messages == old(messages) + [Message(id, sessionId, role, content)]
      ensures !ok ==> messages == old(messages)
      ensures sessions == old(sessions) && streams == old(streams) && placeholders == old(placeholders)
    {
      if sessionId !in sessions {
        return false;
      }
      AppendMessage(messages, Message(id, sessionId, role, content));
      messages := messages + [Message(id, sessionId, role, content)];
      ok := true;
    }

    /** `create_chat(req)` with the fresh session, message and stream ids it would draw. */
    method CreateChat(sessionId: Option<string>, userMessage: string, newSessionId: string,
                      userMsgId: string, assistantMsgId: string, streamId: string)
      returns (r: Result<CreateChatResponse, ChatError>)
      requires Valid()
      requires newSessionId !in sessions
      requires userMsgId != assistantMsgId && !HasId(messages, userMsgId) && !HasId(messages, assistantMsgId)
      requires streamId !in streams
      modifies this
      ensures Valid()
      ensures r.Ok? <==> userMessage != [] && !(sessionId.Some? && sessionId.value != [] && sessionId.value !in old(sessions))
      ensures userMessage == [] ==> r == Err(ValidationError)
      ensures userMessage != [] && sessionId.Some? && sessionId.value != [] && sessionId.value !in old(sessions) ==>
                r == Err(ForeignKeyViolation)
      ensures r.Err? ==> sessions == old(sessions) && messages == old(messages) && streams == old(streams) && placeholders == old(placeholders)
      ensures r.Ok? ==>
                var given := sessionId.Some? && sessionId.value != [];
                var sid := if given then sessionId.value else newSessionId;
                r.value == CreateChatResponse(streamId, sid) &&
                sessions == (if given then old(sessions) else old(sessions)[sid := Title(userMessage)]) &&
                messages == old(messages) + [Message(userMsgId, sid, User, userMessage), Message(assistantMsgId, sid, Assistant, "")] &&
                streams == old(streams)[streamId := Payload(settings, userMessage)] &&
                placeholders == old(placeholders)[streamId := assistantMsgId]
    {
      if userMessage == [] {
        return Err(ValidationError);
      }
      if sessionId.Some? && sessionId.value != [] && sessionId.value !in sessions {
        return Err(ForeignKeyViolation);
      }
      var title := Title(userMessage);
      var sid := EnsureSession(sessionId, title, newSessionId);
      var user := Message(userMsgId, sid, User, userMessage);
      var assistant := Message(assistantMsgId, sid, Assistant, "");
      var ok1 := InsertMessage(userMsgId, sid, User, userMessage);
      AppendMessage(old(messages), user);
      var ok2 := InsertMessage(assistantMsgId, sid, Assistant, "");
      AppendMessage(old(messages) + [user], assistant);
      assert old(messages) + [user] + [assistant] == old(messages) + [user, assistant];
      RegisterStream(streamId, Payload(settings, userMessage), assistantMsgId);
      r := Ok(CreateChatResponse(streamId, sid));
    }

    /** The two ticket-map writes of `create_chat`. */
    method RegisterStream(streamId: string, payload: string, placeholder: string)
      requires Valid() && IsAssistantRow(messages, placeholder)
      modifies this
      ensures Valid()
      ensures streams == old(streams)[streamId := payload] && placeholders == old(placeholders)[streamId := placeholder]
      ensures sessions == old(sessions) && messages == old(messages)
    {
      streams := streams[streamId := payload];
      placeholders := placeholders[streamId := placeholder];
    }

    /** `stream_chat(stream_id)` up to the generator: the ticket is popped from both maps; an
        unknown or already redeemed id is a 404 that changes nothing. */
    method StreamChat(streamId: string) returns (r: Result<Ticket, ChatError>)
      requires Valid()
      modifies this
      ensures Valid()
      ensures streamId in old(streams) ==>
                r == Ok(Ticket(old(streams)[streamId], old(placeholders)[streamId])) &&
                streams == old(streams) - {streamId} && placeholders == old(placeholders) - {streamId}
      ensures streamId !in old(streams) ==>
                r == Err(NotFound) && streams == old(streams) && placeholders == old(placeholders)
      ensures sessions == old(sessions) && messages == old(messages)
    {
      var payload := if streamId in streams then Some(streams[streamId]) else None;
      var placeholder := if streamId in placeholders then Some(placeholders[streamId]) else None;
      streams := streams - {streamId};
      placeholders := placeholders - {streamId};
      if payload.None? || placeholder.None? {
        return Err(NotFound);
      }
      r := Ok(Ticket(payload.value, placeholder.value));
    }

    /** The `finally` clause's update: appends the collected text to the placeholder row. */
    method AppendToPlaceholder(id: string, suffix: string)
      requires Valid()
      modifies this
      ensures Valid()
      ensures messages == UpdateContent(old(messages), id, suffix)
      ensures sessions == old(sessions) && streams == old(streams) && placeholders == old(placeholders)
    {
      var before := messages;
      messages := UpdateContent(messages, id, suffix);
      forall s | s in placeholders ensures IsAssistantRow(messages, placeholders[s]) {
        var i :| 0 <= i < |before| && before[i].id == placeholders[s] && before[i].role == Assistant;
        assert messages[i].id == before[i].id && messages[i].role == before[i].role;
      }
    }

    /** The generator of `stream_chat` run to its end: the deltas are forwarded and collected;
        in the `finally` clause the collected text is appended to the placeholder row (when
        anything was collected) and `done` is sent. `failed` tells that the model raised after
        its last delta, which ends the stream with an error once `done` is out. */
    method Generate(ticket: Ticket, llm: LanguageModel) returns (events: seq<Event>, failed: bool)
      requires Valid()
      modifies this
      ensures Valid()
      ensures var completion := llm(ClientFor(settings), LlmMessages(ticket.payload));
              events == StreamEvents(settings, ticket.payload, completion) + [Done]
      ensures var completion := llm(ClientFor(settings), LlmMessages(ticket.payload));
              var acc := Accumulated(settings, ticket.payload, completion);
              messages == if acc != [] then UpdateContent(old(messages), ticket.placeholder, Concat(acc)) else old(messages)
      ensures failed <==> UseLlm(settings) && llm(ClientFor(settings), LlmMessages(ticket.payload)).fails
      ensures sessions == old(sessions) && streams == old(streams) && placeholders == old(placeholders)
    {
      var accumulated: seq<string> := [];
      events := [];
      failed := false;
      if UseLlm(settings) {
        var completion := llm(ClientFor(settings), LlmMessages(ticket.payload));
        var ds := completion.deltas;
        var i := 0;
        while i < |ds|
          invariant 0 <= i <= |ds|
          invariant accumulated == ds[..i]
          invariant events == DeltasOf(ds[..i])
        {
          accumulated := accumulated + [ds[i]];
          events := events + [Delta(ds[i])];
          assert ds[..i + 1] == ds[..i] + [ds[i]];
          i := i + 1;
        }
        assert ds[..i] == ds;
        failed := completion.fails;
      } else {
        var inner := EchoEvents(EchoPrefix + ticket.payload);
        var i := 0;
        while i < |inner|
          invariant 0 <= i <= |inner|
          invariant accumulated == NonEmptyDeltas(inner[..i])
          invariant events == inner[..i]
        {
          var e := inner[i];
          if e.Delta? && e.text != [] {
            accumulated := accumulated + [e.text];
          }
          events := events + [e];
          assert inner[..i + 1][..i] == inner[..i];
          i := i + 1;
        }
        assert inner[..i] == inner;
      }
      if accumulated != [] {
        AppendToPlaceholder(ticket.placeholder, Concat(accumulated));
      }
      events := events + [Done];
    }
  }

  /** On every path the stream ends with `done`, and the text appended to the placeholder is
      exactly the text of the delta events the client received. */
  lemma PersistedIsEmitted(s: Settings.Settings, payload: string, completion: Completion)
    ensures var events := StreamEvents(s, payload, completion) + [Done];
            events[|events| - 1] == Done &&
            Concat(Accumulated(s, payload, completion)) == EmittedText(events)
  {
    var events := StreamEvents(s, payload, completion);
    NonEmptyDeltasAppend(events, [Done]);
    assert [Done][..0] == [];
    if UseLlm(s) {
      NonEmptyDeltasOfDeltas(completion.deltas);
    } else {
      EchoEventsText(EchoPrefix + payload);
    }
  }

  /** The echo fallback sends `done` twice: once closing the echo of the payload, once in
      the `finally` clause. */
  lemma FallbackEndsTwice(s: Settings.Settings, payload: string, completion: Completion)
    requires !UseLlm(s)
    ensures var events := StreamEvents(s, payload, completion) + [Done];
            |events| >= 2 && events[|events| - 2] == Done && events[|events| - 1] == Done
  {
    EchoEventsText(EchoPrefix + payload);
  }

  /** What the echo fallback streams and stores is the message with "Echo: " twice in front
      (whitespace normalised): once from the payload, once from the echo of it. */
  lemma FallbackEchoesTwice(s: Settings.Settings, message: string, completion: Completion)
    requires !UseLlm(s)
    ensures Concat(Accumulated(s, Payload(s, message), completion)) ==
              EchoPrefix + (if Words(message) == [] then "Echo:" else EchoPrefix + Normalize(message))
  {
    var inner := EchoPrefix + message;
    var text := EchoPrefix + inner;
    assert Accumulated(s, Payload(s, message), completion) == NonEmptyDeltas(EchoEvents(text));
    EchoEventsText(text);
    WordsOfEcho(message);
    NormalizeEcho(inner);
    NormalizeEcho(message);
  }

  /** The echo of a text always has at least one word. */
  lemma WordsOfEcho(p: string)
    ensures Words(EchoPrefix + p) != []
  {
    assert IsWord("Echo:");
    assert EchoPrefix + p == "Echo:" + (" " + p);
    WordsOfWordThen("Echo:", " " + p);
  }

  /** On the echo fallback something is always stored, and it is the doubly prefixed echo. */
  lemma EchoIsStored(s: Settings.Settings, message: string, completion: Completion)
    requires !UseLlm(s)
    ensures var acc := Accumulated(s, Payload(s, message), completion);
            acc != [] &&
            Concat(acc) == EchoPrefix + (if Words(message) == [] then "Echo:" else EchoPrefix + Normalize(message))
  {
    FallbackEchoesTwice(s, message, completion);
  }

  /** The text appended to a freshly created, still empty assistant row becomes its content. */
  lemma FilledPlaceholder(user: Message, placeholder: Message, text: string)
    requires placeholder.content == []
    ensures UpdateContent([user, placeholder], placeholder.id, text)[1] == placeholder.(content := text)
  {
    assert placeholder.content + text == text;
  }

  /** The first half of an exchange on a new service: the chat is created in a new session and
      its ticket redeemed, leaving the two rows and no ticket under that stream id. */
  method OpenStream(s: Settings.Settings, message: string,
                    sessionId: string, userMsgId: string, assistantMsgId: string, streamId: string)
    returns (chat: ChatService, ticket: Ticket)
    requires message != [] && userMsgId != assistantMsgId
    ensures fresh(chat) && chat.Valid() && chat.settings == s
    ensures chat.messages == [Message(userMsgId, sessionId, User, message), Message(assistantMsgId, sessionId, Assistant, "")]
    ensures ticket == Ticket(Payload(s, message), assistantMsgId)
    ensures streamId !in chat.streams
  {
    chat := new ChatService(s);
    var created := chat.CreateChat(None, message, sessionId, userMsgId, assistantMsgId, streamId);
    var redeemed := chat.StreamChat(streamId);
    ticket := redeemed.value;
  }

  /** A whole exchange on the echo fallback: a new session, the two rows, one stream; the
      assistant row ends up holding the doubly prefixed echo, and the ticket is spent. */
  method EchoExchange(s: Settings.Settings, message: string, llm: LanguageModel,
                      sessionId: string, userMsgId: string, assistantMsgId: string, streamId: string)
    returns (events: seq<Event>, assistant: Message, again: Result<Ticket, ChatError>)
    requires !UseLlm(s) && message != [] && userMsgId != assistantMsgId
    ensures assistant == Message(assistantMsgId, sessionId, Assistant,
              EchoPrefix + (if Words(message) == [] then "Echo:" else EchoPrefix + Normalize(message)))
    ensures |events| >= 2 && events[|events| - 1] == Done && events[|events| - 2] == Done
    ensures again == Err(NotFound)
  {
    var chat, ticket := OpenStream(s, message, sessionId, userMsgId, assistantMsgId, streamId);
    var failed;
    events, failed := chat.Generate(ticket, llm);
    ghost var completion := llm(ClientFor(s), LlmMessages(Payload(s, message)));
    FallbackEndsTwice(s, Payload(s, message), completion);
    EchoIsStored(s, message, completion);
    FilledPlaceholder(Message(userMsgId, sessionId, User, message), Message(assistantMsgId, sessionId, Assistant, ""),
                      Concat(Accumulated(s, Payload(s, message), completion)));
    assistant := chat.messages[1];
    again := chat.StreamChat(streamId);
  }
}
