/** The chat client of the local language-model server: the tool catalog, the
    request context built from the conversation history, the resolution of a
    reply into a tool call or plain text, and the history bookkeeping of
    `send_message`. The HTTP transport and `json.loads` are parameters. */
module LmChatBot {
  import opened Basics
  import opened Strings
  import opened JsonValue

  // ---------------------------------------------------------------------
  // Messages, the tool catalog and the request
  // ---------------------------------------------------------------------

  /** One chat message: a history entry `(role, content)` or an entry of the
      request's `messages` list. */
  datatype Message = Message(role: string, content: string)

  const SystemRole: string := "system"
  const UserRole: string := "user"
  const AssistantRole: string := "assistant"

  const SystemPrompt: string :=
    "You are a smart Spotify Data Assistant.\n" +
    "            - ONLY use the provided tools if the user EXPLICITLY asks for data, summary, analysis, or prediction.\n" +
    "            - For general questions (hello, jokes, fun facts, school), DO NOT use tools. Just chat normally.\n" +
    "            - If you act as a tool, output the JSON. If not, output text."

  /** An advertised function: its name, description and JSON-schema parameters
      (each is sent as `{"type": "function", "function": {...}}`). */
  datatype Tool = Tool(name: string, description: string, parameters: Json)

  const NoParameters: Json := Object(map["type" := Str("object"), "properties" := Object(map[])])

  const NumberSchema: Json := Object(map["type" := Str("number")])

  const ToolCatalog: seq<Tool> := [
    Tool("get_summary",
         "Returns a summary of the Spotify dataset, including total songs and average popularity.",
         NoParameters),
    Tool("analyze_popularity",
         "Analyzes and visualizes the distribution of song popularity and its correlation with audio features.",
         NoParameters),
    Tool("show_correlations",
         "Generates a heatmap to show the correlation between all major audio features.",
         NoParameters),
    Tool("analyze_feature",
         "Analyzes and visualizes a specific audio feature's distribution and its relation to popularity.",
         Object(map[
           "type" := Str("object"),
           "properties" := Object(map[
             "feature_name" := Object(map[
               "type" := Str("string"),
               "description" := Str("The name of the feature to analyze. Must be one of: danceability, energy, valence, acousticness, instrumentalness, liveness, speechiness, tempo.")])]),
           "required" := Array([Str("feature_name")])])),
    Tool("predict_song",
         "Predicts the popularity category of a song based on its audio features.",
         Object(map[
           "type" := Str("object"),
           "properties" := Object(map[
             "danceability" := NumberSchema,
             "energy" := NumberSchema,
             "valence" := NumberSchema,
             "acousticness" := NumberSchema])]))
  ]

  function ToolNames(tools: seq<Tool>): (names: seq<string>)
    ensures |names| == |tools|
    ensures forall k :: 0 <= k < |tools| ==> names[k] == tools[k].name
  {
    seq(|tools|, k requires 0 <= k < |tools| => tools[k].name)
  }

  const DefaultApiUrl: string := "http://localhost:1234/v1"

  /** The POST of a chat completion: endpoint, payload and timeout. */
  datatype Request = Request(url: string, model: string, messages: seq<Message>, maxTokens: nat,
                             temperature: real, tools: seq<Tool>, timeoutSeconds: nat)

  function CompletionRequest(apiUrl: string, messages: seq<Message>, tools: seq<Tool>): (r: Request)
    ensures apiUrl <= r.url && r.url[|apiUrl|..] == "/chat/completions"
    ensures r.messages == messages && r.tools == tools
    ensures r.model == "local-model" && r.maxTokens == 500 && r.temperature == 0.7 && r.timeoutSeconds == 30
  {
    Request(apiUrl + "/chat/completions", "local-model", messages, 500, 0.7, tools, 30)
  }

  /** The messages sent with a new user message: the system prompt, the last
      (at most four) history entries in order, then the user message. */
  function ContextMessages(history: seq<Message>, userMessage: string): (m: seq<Message>)
    ensures |m| == Min(4, |history|) + 2 && |m| <= 6
    ensures m[0] == Message(SystemRole, SystemPrompt)
    ensures m[|m| - 1] == Message(UserRole, userMessage)
    ensures forall k :: 1 <= k <= Min(4, |history|) ==> m[k] == history[|history| - Min(4, |history|) + k - 1]
  {
    [Message(SystemRole, SystemPrompt)] + history[|history| - Min(4, |history|)..] + [Message(UserRole, userMessage)]
  }

  /** Once the history holds four entries or more, the context is always six
      messages long and ends with the four newest entries. */
  lemma ContextWindowSlides(history: seq<Message>, turn: Message, userMessage: string)
    requires |history| >= 4
    ensures var m := ContextMessages(history + [turn], userMessage);
      |m| == 6 && m[4] == turn && m[1..4] == history[|history| - 3..]
  {
    var h := history + [turn];
    var m := ContextMessages(h, userMessage);
    assert m[4] == h[|h| - 1];
    forall k | 1 <= k < 4 ensures m[k] == history[|history| - 3 + (k - 1)] {
      assert m[k] == h[|h| - 4 + (k - 1)];
    }
  }

  // ---------------------------------------------------------------------
  // The reply of the server
  // ---------------------------------------------------------------------

  /** An entry of `tool_calls`: the function's name and its JSON-encoded
      arguments. */
  datatype ToolCall = ToolCall(name: Json, arguments: string)

  /** `choices[0].message`: its tool calls (absent, `null` and `[]` alike)
      and its text (absent gives ""). */
  datatype Choice = Choice(toolCalls: seq<ToolCall>, content: string)

  /** A 200 reply's body: a completion, or something decoding it rejects
      (not JSON, no `choices`, ...) with the message of that exception. */
  datatype Body = Completion(choice: Choice) | Unreadable(reason: string)

  /** What `requests.post` produces: a reply, or the message of the
      exception it raises (refused connection, timeout, ...). */
  datatype Response = Received(status: nat, body: Body) | TransportError(reason: string)

  /** The value `send_message` returns. */
  datatype Reply = FunctionCall(name: Json, args: Json) | Text(content: string)

  /** How one completion is read. */
  datatype Resolution = Call(name: Json, args: Json) | Plain(content: string) | Failed(message: string)

  /** The fallback scan runs on non-empty content holding `{` and `"name":`. */
  predicate FallbackApplies(content: string) {
    |content| > 0 && Contains(content, "{") && Contains(content, "\"name\":")
  }

  /** `content[content.find('{'):content.rfind('}') + 1]`. */
  function Candidate(content: string): (r: string)
    requires '{' in content
    ensures |r| <= |content|
    ensures |r| > 0 ==> r[0] == '{' && r[|r| - 1] == '}'
    ensures RFind(content, '}') < Find(content, '{') ==> r == ""
    ensures Find(content, '{') <= RFind(content, '}') ==> r == content[Find(content, '{')..RFind(content, '}') + 1]
  {
    var start := Find(content, '{');
    var end := RFind(content, '}') + 1;
    Slice(content, start, end)
  }

  /** The candidate is the span from the first `{` through the last `}`, and
      empty when no `}` follows the first `{`. */
  lemma CandidateSpan(content: string, i: nat, j: nat)
    requires i < |content| && content[i] == '{' && forall k :: 0 <= k < i ==> content[k] != '{'
    requires j < |content| && content[j] == '}' && forall k :: j < k < |content| ==> content[k] != '}'
    ensures i <= j ==> Candidate(content) == content[i..j + 1]
    ensures j < i ==> Candidate(content) == ""
  {
    assert content[i] in content;
    assert Find(content, '{') == i;
    assert RFind(content, '}') == j;
  }

  lemma CandidateEmptyWithoutClosingBrace(content: string)
    requires '{' in content && forall k :: 0 <= k < |content| ==> content[k] != '}'
    ensures Candidate(content) == ""
  {
  }

  /** `data.get("parameters", {}) or data.get("args", {})`. */
  function ArgsOf(fields: map<string, Json>): (a: Json)
    ensures "parameters" in fields && Truthy(fields["parameters"]) ==> a == fields["parameters"]
    ensures !("parameters" in fields && Truthy(fields["parameters"])) && "args" in fields ==> a == fields["args"]
    ensures !("parameters" in fields && Truthy(fields["parameters"])) && "args" !in fields ==> a == EmptyObject
  {
    var p := Get(fields, "parameters", EmptyObject);
    if Truthy(p) then p else Get(fields, "args", EmptyObject)
  }

  /** An empty `parameters` object is not used: `args` wins over it. */
  lemma EmptyParametersFallThrough(fields: map<string, Json>)
    requires "parameters" in fields && fields["parameters"] == EmptyObject
    ensures ArgsOf(fields) == Get(fields, "args", EmptyObject)
  {
  }

  /** The reply resolution of `send_message`: the first structured tool
      call, otherwise an object named in the text, otherwise the text. */
  function Resolve(c: Choice, loads: string -> Parsed): (r: Resolution)
    ensures |c.toolCalls| > 0 ==> !r.Plain?
    ensures r.Call? && |c.toolCalls| > 0 ==>
      r.name == c.toolCalls[0].name && loads(c.toolCalls[0].arguments) == Parsed(r.args)
    ensures r.Failed? <==> |c.toolCalls| > 0 && loads(c.toolCalls[0].arguments).Malformed?
    ensures r.Failed? ==> r.message == loads(c.toolCalls[0].arguments).message
    ensures r.Plain? ==> r.content == c.content
    ensures |c.toolCalls| == 0 && !FallbackApplies(c.content) ==> r == Plain(c.content)
    ensures r.Call? && |c.toolCalls| == 0 ==>
      && FallbackApplies(c.content) && '{' in c.content
      && loads(Candidate(c.content)).Parsed? && loads(Candidate(c.content)).value.Object?
      && var f := loads(Candidate(c.content)).value.fields;
         "name" in f && r.name == f["name"] && r.args == ArgsOf(f)
  {
    if |c.toolCalls| > 0 then
      match loads(c.toolCalls[0].arguments)
      case Parsed(v) => Call(c.toolCalls[0].name, v)
      case Malformed(m) => Failed(m)
    else if FallbackApplies(c.content) then
      ContainsChar(c.content, '{');
      match loads(Candidate(c.content))
      case Parsed(Object(f)) => if "name" in f then Call(f["name"], ArgsOf(f)) else Plain(c.content)
      case _ => Plain(c.content)
    else Plain(c.content)
  }

  /** The fallback is taken exactly when the scanned span decodes to an
      object with a `name` key; any other outcome, a decoding error
      included, leaves the content as plain text. */
  lemma FallbackTakenIff(content: string, loads: string -> Parsed)
    requires FallbackApplies(content)
    ensures '{' in content
    ensures Resolve(Choice([], content), loads).Call? <==>
      (loads(Candidate(content)).Parsed? && loads(Candidate(content)).value.Object? &&
       "name" in loads(Candidate(content)).value.fields)
    ensures !Resolve(Choice([], content), loads).Call? ==> Resolve(Choice([], content), loads) == Plain(content)
  {
    ContainsChar(content, '{');
  }

  lemma OccursInMiddle(before: string, obj: string, after: string, pat: string, n: int)
    requires OccursAt(obj, pat, n)
    ensures OccursAt(before + obj + after, pat, |before| + n)
  {
    var content := before + obj + after;
    assert content[|before| + n..|before| + n + |pat|] == obj[n..n + |pat|];
  }

  /** The first `{` of `before + obj + after` opens `obj` and its last `}`
      closes it, so the scanned text is `obj`. */
  lemma EmbeddedCandidate(before: string, obj: string, after: string)
    requires |obj| >= 2 && obj[0] == '{' && obj[|obj| - 1] == '}'
    requires forall k :: 0 <= k < |before| ==> before[k] != '{'
    requires forall k :: 0 <= k < |after| ==> after[k] != '}'
    ensures '{' in before + obj + after
    ensures Candidate(before + obj + after) == obj
  {
    var content := before + obj + after;
    var i, j := |before|, |before| + |obj| - 1;
    assert content[i] == obj[0];
    assert content[j] == obj[|obj| - 1];
    forall k | 0 <= k < i ensures content[k] != '{' {
      assert content[k] == before[k];
    }
    forall k | j < k < |content| ensures content[k] != '}' {
      assert content[k] == after[k - j - 1];
    }
    CandidateSpan(content, i, j);
    assert content[i..j + 1] == obj;
  }

  lemma EmbeddedFallbackApplies(before: string, obj: string, after: string)
    requires |obj| >= 2 && obj[0] == '{' && Contains(obj, "\"name\":")
    ensures FallbackApplies(before + obj + after)
  {
    var n :| OccursAt(obj, "\"name\":", n);
    OccursInMiddle(before, obj, after, "\"name\":", n);
    assert obj[0..1] == "{";
    OccursInMiddle(before, obj, after, "{", 0);
  }

  /** A chatty reply that embeds one object naming a function, with no `{`
      before it and no `}` after it, is read as that call. */
  lemma EmbeddedCall(before: string, obj: string, after: string, f: map<string, Json>, loads: string -> Parsed)
    requires |obj| >= 2 && obj[0] == '{' && obj[|obj| - 1] == '}' && Contains(obj, "\"name\":")
    requires forall k :: 0 <= k < |before| ==> before[k] != '{'
    requires forall k :: 0 <= k < |after| ==> after[k] != '}'
    requires loads(obj) == Parsed(Object(f)) && "name" in f
    ensures Resolve(Choice([], before + obj + after), loads) == Call(f["name"], ArgsOf(f))
  {
    EmbeddedFallbackApplies(before, obj, after);
    EmbeddedCandidate(before, obj, after);
  }

  const ConnectionPrefix: string := "Error connecting to AI: "
  const StatusPrefix: string := "Error: API returned status "

  /** The text of a reply that reports an exception: a fixed prefix, then
      the exception's message, which can be read back from it. */
  function ConnectionError(reason: string): (r: string)
    ensures ConnectionPrefix <= r && r[|ConnectionPrefix|..] == reason
  {
    ConnectionPrefix + reason
  }

  /** The text of a reply with a status other than 200: a fixed prefix, then
      the status in decimal, which can be read back from it. */
  function StatusError(status: nat): (r: string)
    ensures StatusPrefix <= r
    ensures var digits := r[|StatusPrefix|..];
      (forall i :: 0 <= i < |digits| ==> IsDigit(digits[i])) && DecimalValue(digits) == status
  {
    var r := StatusPrefix + NatToDecimal(status);
    assert r[|StatusPrefix|..] == NatToDecimal(status);
    r
  }

  /** What `send_message` returns for a server response. */
  function ReplyOf(response: Response, loads: string -> Parsed): (r: Reply)
    ensures r.FunctionCall? <==>
      response.Received? && response.status == 200 && response.body.Completion? &&
      Resolve(response.body.choice, loads).Call?
  {
    match response
    case TransportError(reason) => Text(ConnectionError(reason))
    case Received(status, body) =>
      if status != 200 then Text(StatusError(status))
      else
        match body
        case Unreadable(reason) => Text(ConnectionError(reason))
        case Completion(choice) =>
          match Resolve(choice, loads)
          case Call(n, a) => FunctionCall(n, a)
          case Failed(m) => Text(ConnectionError(m))
          case Plain(t) => Text(t)
  }

  /** The history after `send_message`: it only grows, by the user turn once
      a readable 200 reply arrives, and by the assistant turn as well when
      that reply is plain text. */
  function HistoryAfter(history: seq<Message>, userMessage: string, response: Response,
                        loads: string -> Parsed): (h: seq<Message>)
    ensures history <= h && |h| <= |history| + 2
    ensures |h| > |history| <==> response.Received? && response.status == 200 && response.body.Completion?
    ensures |h| > |history| ==> h[|history|] == Message(UserRole, userMessage)
    ensures |h| == |history| + 2 <==> |h| > |history| && Resolve(response.body.choice, loads).Plain?
    ensures |h| == |history| + 2 ==> h[|history| + 1] == Message(AssistantRole, Resolve(response.body.choice, loads).content)
  {
    if response.Received? && response.status == 200 && response.body.Completion? then
      match Resolve(response.body.choice, loads)
      case Plain(t) => history + [Message(UserRole, userMessage), Message(AssistantRole, t)]
      case _ => history + [Message(UserRole, userMessage)]
    else history
  }

  /** A plain-text reply is the assistant turn the history records; a tool
      call records only the user turn; an error records nothing. */
  lemma ReplyRecorded(history: seq<Message>, userMessage: string, response: Response, loads: string -> Parsed)
    ensures var h, r := HistoryAfter(history, userMessage, response, loads), ReplyOf(response, loads);
      && (|h| == |history| + 2 ==> r == Text(h[|h| - 1].content))
      && (r.FunctionCall? ==> h == history + [Message(UserRole, userMessage)])
      && (|h| == |history| ==> r.Text? && (ConnectionPrefix <= r.content || StatusPrefix <= r.content))
  {
  }

  // ---------------------------------------------------------------------
  // LMChatBot
  // ---------------------------------------------------------------------

  class LMChatBot {
    const apiUrl: string
    const tools: seq<Tool>
    var conversationHistory: seq<Message>

    constructor (apiUrl: string)
      ensures this.apiUrl == apiUrl && tools == ToolCatalog && conversationHistory == []
    {
      this.apiUrl := apiUrl;
      tools := ToolCatalog;
      conversationHistory := [];
    }

    /** The `messages` list, built by appending as the client does. */
    method BuildMessages(userMessage: string) returns (messages: seq<Message>)
      ensures messages == ContextMessages(conversationHistory, userMessage)
    {
      messages := [Message(SystemRole, SystemPrompt)];
      var recent := conversationHistory[|conversationHistory| - Min(4, |conversationHistory|)..];
      var i := 0;
      while i < |recent|
        invariant 0 <= i <= |recent|
        invariant messages == [Message(SystemRole, SystemPrompt)] + recent[..i]
      {
        messages := messages + [Message(recent[i].role, recent[i].content)];
        i := i + 1;
      }
      assert recent[..i] == recent;
      messages := messages + [Message(UserRole, userMessage)];
    }

    /** `send_message`: one request to the server, whose reply is resolved;
        the user's message enters the history once a 200 reply arrives, and
        the reply's text only when it is read as plain text. */
    method SendMessage(userMessage: string, post: Request -> Response, loads: string -> Parsed)
      returns (request: Request, reply: Reply)
      modifies this
      ensures request == CompletionRequest(apiUrl, ContextMessages(old(conversationHistory), userMessage), tools)
      ensures reply == ReplyOf(post(request), loads)
      ensures conversationHistory == HistoryAfter(old(conversationHistory), userMessage, post(request), loads)
      ensures old(conversationHistory) <= conversationHistory
      ensures |conversationHistory| <= |old(conversationHistory)| + 2
      ensures post(request).TransportError? ==>
        reply == Text(ConnectionError(post(request).reason)) && conversationHistory == old(conversationHistory)
      ensures post(request).Received? && post(request).status != 200 ==>
        reply == Text(StatusError(post(request).status)) && conversationHistory == old(conversationHistory)
      ensures post(request).Received? && post(request).status == 200 && post(request).body.Unreadable? ==>
        reply == Text(ConnectionError(post(request).body.reason)) && conversationHistory == old(conversationHistory)
      ensures post(request).Received? && post(request).status == 200 && post(request).body.Completion? ==>
        match Resolve(post(request).body.choice, loads)
        case Call(n, a) =>
          reply == FunctionCall(n, a) && conversationHistory == old(conversationHistory) + [Message(UserRole, userMessage)]
        case Plain(t) =>
          reply == Text(t) &&
          conversationHistory == old(conversationHistory) + [Message(UserRole, userMessage), Message(AssistantRole, t)]
        case Failed(m) =>
          reply == Text(ConnectionError(m)) && conversationHistory == old(conversationHistory) + [Message(UserRole, userMessage)]
    {
      var messages := BuildMessages(userMessage);
      request := CompletionRequest(apiUrl, messages, tools);
      var response := post(request);
      match response {
        case TransportError(reason) =>
          reply := Text(ConnectionError(reason));
        case Received(status, body) =>
          if status != 200 {
            reply := Text(StatusError(status));
          } else {
            match body {
              case Unreadable(reason) =>
                reply := Text(ConnectionError(reason));
              case Completion(choice) =>
                conversationHistory := conversationHistory + [Message(UserRole, userMessage)];
                match Resolve(choice, loads) {
                  case Call(n, a) =>
                    reply := FunctionCall(n, a);
                  case Failed(m) =>
                    reply := Text(ConnectionError(m));
                  case Plain(t) =>
                    conversationHistory := conversationHistory + [Message(AssistantRole, t)];
                    reply := Text(t);
                }
            }
          }
      }
    }
  }
}
