/** The chat application's logic: loading the analyzer, dispatching a tool
    call to an analyzer operation, the quick-analysis buttons, one turn of the
    chat and the reset. Page layout, rendering and the Streamlit session
    mechanism are not modelled; the session's state is a class. */
module StreamlitApp {
  import opened Basics
  import opened JsonValue
  import opened DataAnalyzer
  import opened LmChatBot

  /** What the host's libraries supply to an analysis: number formatting and
      `str.title()`, the correlation of each feature with popularity, Python's
      `float()` on text and `str()` of a decoded value. */
  datatype Host = Host(fmt: Formatter, corr: string -> Stat, parseFloat: string -> Option<real>,
                       show: Json -> string)

  /** The mapping handed to `handle_function_call`: a name and, possibly, an
      `args` entry. */
  datatype CallData = CallData(name: Json, args: Option<Json>)

  /** `{"content": ..., "image": ...}`; the image is the chart to render. */
  datatype ToolOutput = ToolOutput(content: string, image: Option<Chart>)

  /** The analyzer operations the dispatcher can run. */
  datatype Operation = SummaryOp | PopularityOp | CorrelationsOp | FeatureOp | PredictOp

  /** The tool name of each operation. */
  function ToolName(op: Operation): string {
    match op
    case SummaryOp => "get_summary"
    case PopularityOp => "analyze_popularity"
    case CorrelationsOp => "show_correlations"
    case FeatureOp => "analyze_feature"
    case PredictOp => "predict_song"
  }

  /** The operation a tool name selects, if any: the one whose tool name it is. */
  function Route(name: Json): (op: Option<Operation>)
    ensures op.Some? ==> name == Str(ToolName(op.value))
  {
    if name == Str("get_summary") then Some(SummaryOp)
    else if name == Str("analyze_popularity") then Some(PopularityOp)
    else if name == Str("show_correlations") then Some(CorrelationsOp)
    else if name == Str("analyze_feature") then Some(FeatureOp)
    else if name == Str("predict_song") then Some(PredictOp)
    else None
  }

  /** Every operation is reached by its own tool name. */
  lemma RouteRoundTrip(op: Operation)
    ensures Route(Str(ToolName(op))) == Some(op)
  {
  }

  /** The names the dispatcher recognises are exactly the names the chat
      client advertises to the model. */
  lemma RoutesMatchCatalog(n: string)
    ensures Route(Str(n)).Some? <==> n in ToolNames(ToolCatalog)
  {
    var names := ToolNames(ToolCatalog);
    assert names == ["get_summary", "analyze_popularity", "show_correlations", "analyze_feature", "predict_song"];
  }

  /** `str(v)` as an f-string shows it. */
  function Shown(v: Json, show: Json -> string): string {
    if v.Str? then v.s else show(v)
  }

  function TextOutput(r: Attempt<string>): Attempt<ToolOutput> {
    match r
    case Raises => Raises
    case Returned(s) => Returned(ToolOutput(s, None))
  }

  function AnalysisOutput(r: Attempt<Analysis>): Attempt<ToolOutput> {
    match r
    case Raises => Raises
    case Returned(a) => Returned(ToolOutput(a.text, a.chart))
  }

  /** `analyze_feature` on `args.get('feature_name', 'danceability')`: a name
      that is not text is not a column, unless it cannot be hashed (a list or
      a mapping), and `.get` on arguments that are not a mapping raises. */
  function FeatureOutput(an: SpotifyDataAnalyzer, args: Json, host: Host): (r: Attempt<ToolOutput>)
    reads an
    requires an.Valid()
    ensures !args.Object? ==> r.Raises?
    ensures args.Object? && "feature_name" !in args.fields ==>
      r == AnalysisOutput(an.AnalyzeFeature(DefaultFeature, host.fmt))
    ensures args.Object? && "feature_name" in args.fields && args.fields["feature_name"].Str? ==>
      r == AnalysisOutput(an.AnalyzeFeature(args.fields["feature_name"].s, host.fmt))
    ensures args.Object? && "feature_name" in args.fields ==>
      var v := args.fields["feature_name"];
      && ((v.Array? || v.Object?) ==> r.Raises?)
      && ((v.Null? || v.Bool? || v.Number?) ==> r == Returned(ToolOutput("Feature '" + host.show(v) + "' not found.", None)))
  {
    if !args.Object? then Raises
    else
      match Get(args.fields, "feature_name", Str(DefaultFeature))
      case Str(s) => AnalysisOutput(an.AnalyzeFeature(s, host.fmt))
      case Array(_) => Raises
      case Object(_) => Raises
      case v => Returned(ToolOutput("Feature '" + host.show(v) + "' not found.", None))
  }

  /** `handle_function_call`. `Raises` stands for an exception of the
      analyzer operation, which escapes to the page. */
  function HandleFunctionCall(an: SpotifyDataAnalyzer, call: CallData, host: Host): (r: Attempt<ToolOutput>)
    reads an
    requires an.Valid()
    ensures Route(call.name).None? ==>
      r == Returned(ToolOutput("Tool '" + Shown(call.name, host.show) + "' not recognized.", None))
    ensures Route(call.name) == Some(SummaryOp) ==> r == TextOutput(an.GetSummary(host.fmt))
    ensures Route(call.name) == Some(PopularityOp) ==> r == AnalysisOutput(an.AnalyzePopularity(host.corr, host.fmt))
    ensures Route(call.name) == Some(CorrelationsOp) ==> r == AnalysisOutput(an.ShowCorrelations())
    ensures Route(call.name) == Some(FeatureOp) ==> r == FeatureOutput(an, call.args.GetOr(EmptyObject), host)
    ensures Route(call.name) == Some(PredictOp) ==>
      r == TextOutput(an.Prediction(call.args.GetOr(EmptyObject), host.parseFloat))
    ensures (Route(call.name) == Some(SummaryOp) || Route(call.name) == Some(PredictOp)) && r.Returned? ==>
      r.value.image.None?
  {
    var args := call.args.GetOr(EmptyObject);
    match Route(call.name)
    case None => Returned(ToolOutput("Tool '" + Shown(call.name, host.show) + "' not recognized.", None))
    case Some(SummaryOp) => TextOutput(an.GetSummary(host.fmt))
    case Some(PopularityOp) => AnalysisOutput(an.AnalyzePopularity(host.corr, host.fmt))
    case Some(CorrelationsOp) => AnalysisOutput(an.ShowCorrelations())
    case Some(FeatureOp) => FeatureOutput(an, args, host)
    case Some(PredictOp) => TextOutput(an.Prediction(args, host.parseFloat))
  }

  /** A call without an `args` entry behaves as one with empty arguments. */
  lemma MissingArgsAreEmpty(an: SpotifyDataAnalyzer, name: Json, host: Host)
    requires an.Valid()
    ensures HandleFunctionCall(an, CallData(name, None), host) == HandleFunctionCall(an, CallData(name, Some(EmptyObject)), host)
  {
  }

  /** With no feature named, `analyze_feature` analyses danceability; the
      guard texts of the analyzer reach the page unchanged and without image. */
  lemma FeatureDefaultsToDanceability(an: SpotifyDataAnalyzer, args: Option<Json>, host: Host)
    requires an.Valid()
    requires args.None? || (args.value.Object? && "feature_name" !in args.value.fields)
    ensures HandleFunctionCall(an, CallData(Str("analyze_feature"), args), host) ==
      AnalysisOutput(an.AnalyzeFeature(DefaultFeature, host.fmt))
    ensures DefaultFeature !in an.df.columns ==>
      HandleFunctionCall(an, CallData(Str("analyze_feature"), args), host) ==
      Returned(ToolOutput("Feature 'danceability' not found.", None))
  {
    assert "Feature '" + DefaultFeature + "' not found." == "Feature 'danceability' not found.";
  }

  /** The arguments of a quick-analysis button: the feature name when one is
      given and non-empty, otherwise none. */
  function ManualArgs(featureName: Option<string>): (a: Json)
    ensures a.Object?
    ensures featureName.Some? && featureName.value != "" ==> a.fields == map["feature_name" := Str(featureName.value)]
    ensures !(featureName.Some? && featureName.value != "") ==> a == EmptyObject
  {
    if featureName.Some? && featureName.value != "" then Object(map["feature_name" := Str(featureName.value)])
    else EmptyObject
  }

  /** The Danceability button and a feature call without a name run the same
      analysis. */
  lemma DanceabilityButton(an: SpotifyDataAnalyzer, host: Host)
    requires an.Valid()
    ensures HandleFunctionCall(an, CallData(Str("analyze_feature"), Some(ManualArgs(Some(DefaultFeature)))), host) ==
      HandleFunctionCall(an, CallData(Str("analyze_feature"), Some(ManualArgs(None))), host)
  {
    FeatureDefaultsToDanceability(an, Some(ManualArgs(None)), host);
  }

  // ---------------------------------------------------------------------
  // The session
  // ---------------------------------------------------------------------

  datatype Kind = TextMessage | AnalysisMessage

  /** An entry of the page's message list (a text entry has no image). */
  datatype UiMessage = UiMessage(role: string, content: string, image: Option<Chart>, kind: Kind)

  const WelcomeMessage: UiMessage := UiMessage(AssistantRole, "Spotify data loaded! Ready to analyze.", None, TextMessage)

  class Session {
    var messages: seq<UiMessage>
    var analyzer: SpotifyDataAnalyzer?
    const chatbot: LMChatBot

    constructor ()
      ensures messages == [] && analyzer == null
      ensures fresh(chatbot) && chatbot.apiUrl == DefaultApiUrl && chatbot.conversationHistory == []
      ensures chatbot.tools == ToolCatalog
    {
      messages := [];
      analyzer := null;
      chatbot := new LMChatBot(DefaultApiUrl);
    }

    /** `initialize_data` followed by the welcome message: `table` is the
        data file's contents, `None` when the file is missing. */
    method LoadData(table: Option<Table>, fit: Fit) returns (loaded: bool)
      requires analyzer == null
      requires table.Some? ==> Rectangular(table.value)
      modifies this
      ensures loaded <==> table.Some? && Opens(table.value)
      ensures loaded <==> analyzer != null
      ensures loaded ==> fresh(analyzer) && analyzer.Valid() && messages == old(messages) + [WelcomeMessage]
      ensures loaded ==> analyzer.df == OpenedTable(table.value) && analyzer.features == SelectFeatures(table.value.columns)
      ensures loaded ==> (analyzer.model.Some? <==> Trainable(Clean(table.value), analyzer.features))
      ensures loaded && analyzer.model.Some? ==>
        analyzer.model.value == fit(FeatureMatrix(analyzer.df, analyzer.features), TrainingLabels(table.value))
      ensures !loaded ==> messages == old(messages)
    {
      loaded := false;
      if table.Some? {
        var a := Open(table.value, fit);
        if a != null {
          analyzer := a;
          loaded := true;
          messages := messages + [WelcomeMessage];
        }
      }
    }

    /** Run one tool call and record its output as an analysis message on
        the page and as an assistant turn in the chat client's history. */
    method RunTool(call: CallData, host: Host) returns (output: Attempt<ToolOutput>)
      requires analyzer != null && analyzer.Valid()
      modifies this, chatbot
      ensures analyzer == old(analyzer)
      ensures output == HandleFunctionCall(analyzer, call, host)
      ensures output.Raises? ==>
        messages == old(messages) && chatbot.conversationHistory == old(chatbot.conversationHistory)
      ensures output.Returned? ==>
        && messages == old(messages) + [UiMessage(AssistantRole, output.value.content, output.value.image, AnalysisMessage)]
        && chatbot.conversationHistory == old(chatbot.conversationHistory) + [Message(AssistantRole, output.value.content)]
    {
      output := HandleFunctionCall(analyzer, call, host);
      if output.Returned? {
        messages := messages + [UiMessage(AssistantRole, output.value.content, output.value.image, AnalysisMessage)];
        chatbot.conversationHistory := chatbot.conversationHistory + [Message(AssistantRole, output.value.content)];
      }
    }

    /** The page's handling of the chat client's reply: a tool call is run
        as by `RunTool`; a text reply is shown as an assistant message. */
    method ShowReply(reply: Reply, host: Host) returns (output: Attempt<ToolOutput>)
      requires analyzer != null && analyzer.Valid()
      modifies this, chatbot
      ensures analyzer == old(analyzer)
      ensures reply.Text? ==>
        && output == Returned(ToolOutput(reply.content, None))
        && messages == old(messages) + [UiMessage(AssistantRole, reply.content, None, TextMessage)]
        && chatbot.conversationHistory == old(chatbot.conversationHistory)
      ensures reply.FunctionCall? ==> output == HandleFunctionCall(analyzer, CallData(reply.name, Some(reply.args)), host)
      ensures reply.FunctionCall? && output.Raises? ==>
        messages == old(messages) && chatbot.conversationHistory == old(chatbot.conversationHistory)
      ensures reply.FunctionCall? && output.Returned? ==>
        && messages == old(messages) + [UiMessage(AssistantRole, output.value.content, output.value.image, AnalysisMessage)]
        && chatbot.conversationHistory == old(chatbot.conversationHistory) + [Message(AssistantRole, output.value.content)]
    {
      match reply {
        case FunctionCall(name, args) =>
          output := RunTool(CallData(name, Some(args)), host);
        case Text(content) =>
          output := Returned(ToolOutput(content, None));
          messages := messages + [UiMessage(AssistantRole, content, None, TextMessage)];
      }
    }

    /** `execute_manual_analysis`: run one tool and record its output both on
        the page and in the chat client's history. */
    method ExecuteManualAnalysis(funcName: string, featureName: Option<string>, host: Host)
      returns (output: Attempt<ToolOutput>)
      requires analyzer != null && analyzer.Valid()
      modifies this, chatbot
      ensures analyzer == old(analyzer)
      ensures output == HandleFunctionCall(analyzer, CallData(Str(funcName), Some(ManualArgs(featureName))), host)
      ensures output.Raises? ==>
        messages == old(messages) && chatbot.conversationHistory == old(chatbot.conversationHistory)
      ensures output.Returned? ==>
        && messages == old(messages) + [UiMessage(AssistantRole, output.value.content, output.value.image, AnalysisMessage)]
        && chatbot.conversationHistory == old(chatbot.conversationHistory) + [Message(AssistantRole, output.value.content)]
    {
      output := RunTool(CallData(Str(funcName), Some(ManualArgs(featureName))), host);
    }

    /** One chat turn: show the prompt, ask the model, then either run the
        tool it calls or show its text. */
    method HandleChatInput(prompt: string, post: Request -> Response, loads: string -> Parsed, host: Host)
      returns (request: Request, reply: Reply, output: Attempt<ToolOutput>)
      requires analyzer != null && analyzer.Valid()
      modifies this, chatbot
      ensures analyzer == old(analyzer)
      ensures request == CompletionRequest(chatbot.apiUrl, ContextMessages(old(chatbot.conversationHistory), prompt), chatbot.tools)
      ensures reply == ReplyOf(post(request), loads)
      ensures reply.Text? ==>
        && output == Returned(ToolOutput(reply.content, None))
        && messages == old(messages) + [UiMessage(UserRole, prompt, None, TextMessage)]
                                     + [UiMessage(AssistantRole, reply.content, None, TextMessage)]
        && chatbot.conversationHistory == HistoryAfter(old(chatbot.conversationHistory), prompt, post(request), loads)
      ensures reply.FunctionCall? ==>
        output == HandleFunctionCall(analyzer, CallData(reply.name, Some(reply.args)), host)
      ensures reply.FunctionCall? && output.Raises? ==>
        && messages == old(messages) + [UiMessage(UserRole, prompt, None, TextMessage)]
        && chatbot.conversationHistory == old(chatbot.conversationHistory) + [Message(UserRole, prompt)]
      ensures reply.FunctionCall? && output.Returned? ==>
        && messages == old(messages) + [UiMessage(UserRole, prompt, None, TextMessage)]
                                     + [UiMessage(AssistantRole, output.value.content, output.value.image, AnalysisMessage)]
        && chatbot.conversationHistory == old(chatbot.conversationHistory) + [Message(UserRole, prompt)]
                                          + [Message(AssistantRole, output.value.content)]
    {
      messages := messages + [UiMessage(UserRole, prompt, None, TextMessage)];
      request, reply := chatbot.SendMessage(prompt, post, loads);
      ReplyRecorded(old(chatbot.conversationHistory), prompt, post(request), loads);
      output := ShowReply(reply, host);
    }

    /** The reset button: both the page's messages and the chat client's
        history are emptied. */
    method ClearChatHistory()
      modifies this, chatbot
      ensures messages == [] && chatbot.conversationHistory == []
      ensures analyzer == old(analyzer)
    {
      messages := [];
      chatbot.conversationHistory := [];
    }
  }
}
