/** app.py: the Slack webhook endpoints and the background handlers that
    run the agent and post its answer.

    The Slack client, the background task queue and the agent are outside
    the model: every call the application makes to them is recorded, in
    order, in the ghost log of a `SlackApp`. Whether a Slack call raised is
    an input of the operation that makes it. */
module App {
  import opened Wrappers
  import opened Strings
  import opened JsonValues
  import opened SlackBlocks
  import opened SlackMemory
  import Constants

  // ---------------------------------------------------------------------
  // Data

  datatype EventSource = EventSource(name: string, id: string)

  /** The request model has no space id field: the `space_id` argument the
      event endpoint passes is dropped by the model's validation. */
  datatype PromptParameters = PromptParameters(prompt: string, source: EventSource)

  /** One entry of an event's `files` list; a missing key is None. */
  datatype SlackFile = SlackFile(urlPrivateDownload: Option<string>, name: Option<string>)

  /** The keys of `payload["event"]` the endpoint reads; a missing key is None. */
  datatype Event = Event(
    text: Option<string>,
    user: Option<string>,
    channel: Option<string>,
    clientMsgId: Option<string>,
    files: Option<seq<SlackFile>>)

  /** A received event payload: its `event` object, if any, and the other
      top-level keys, which the endpoint only echoes. */
  datatype Payload = Payload(event: Option<Event>, envelope: map<string, Json>)

  /** A background task handed to the task queue. */
  datatype Task =
    | DownloadTask(params: PromptParameters, fileUrl: string, fileName: string, fileExtension: string)
    | PromptTask(params: PromptParameters)

  /** One call from the application to the outside world. */
  datatype Action =
    | PostEphemeral(user: string, channel: string, notice: string, layout: seq<Block>)
    | PostMessage(channel: string, text: Json, blocks: Json)
    | Schedule(task: Task)
    | SaveDownload(url: string, path: string)
    | RunAgent(input: string)
    | RunFileAgent(chatHistory: string, slackChannelId: string, filePath: string, prompt: string)

  /** The HTTP answer of the event endpoint: the payload echoed back, a
      `null` body, or an error raised out of the endpoint. */
  datatype Reply = Echo(payload: Payload) | NullBody | ServerError

  /** How a Slack post ended: accepted, a SlackApiError, or any other
      exception. */
  datatype PostOutcome = Delivered | SlackApiError | OtherError

  /** How a background handler ended: normally, or with an exception. */
  datatype TaskOutcome = Finished | Crashed

  /** The actions of one operation, and the reply of the endpoint. */
  datatype Effects = Effects(actions: seq<Action>, reply: Reply)

  // ---------------------------------------------------------------------
  // os.path.splitext, as used to name a downloaded file's extension

  /** The extension part of `os.path.splitext(path)`: from the last dot of
      the last path component, provided that component has a character
      other than a dot before it; otherwise empty. */
  function Extension(path: string): (ext: string)
    ensures EndsWith(path, ext)
    ensures ext != [] ==> ext[0] == '.' && forall k :: 1 <= k < |ext| ==> ext[k] != '.' && ext[k] != '/'
    ensures ext != [] <==> exists i, j | LastIndexOf(path, '/') < i < j < |path| :: path[i] != '.' && path[j] == '.'
  {
    var dot := LastIndexOf(path, '.');
    var sep := LastIndexOf(path, '/');
    if dot > sep && exists i | sep + 1 <= i < dot :: path[i] != '.' then path[dot..] else ""
  }

  // ---------------------------------------------------------------------
  // get_example_prompts

  const ExamplesHeader: Block :=
    Section(PlainText(JStr("Here a couple of example prompts. For some extra data is need like a url or file etc."), Some(true)), None)

  const SampleTexts: seq<string> := [
    "- Normal prompts like in chatgpt:\n\t\t\t- Who is Sam Hyde?",
    "- Google:\n\t\t\t- Wie hoch ist die Regenwahrscheinlichkeit heute in Hannover?\n\t\t\t- Who is Leo DiCaprio's girlfriend? What is her current age raised to the 0.43 power?",
    "- Website:\n\t\t\t- Wo kann ich auf dieser Website meine Fragen einreichen? https://verwaltung.bund.de/portal/DE/ueber\n\t\t\t- Wann endet die Frist für die erste Phase? https://verwaltung.bund.de/leistungsverzeichnis/de/leistung/99148138017000",
    "- Documents:\n\t\t\t- Summarize this document (with attached file)\n\n"
      + "- Confluence:\n\t\t\t- Summarize the page: https://...... \n\n"
      + "- Git repos:\n\t\t\t- In which language is this project written: https://github.com/martinmimigames/little-music-player?\n\t\t\t- What does HWListener in this project https://github.com/martinmimigames/little-music-player do?\n\t\t\t- What is the difference of the m3u branch in this project: https://github.com/martinmimigames/little-music-player?"
  ]

  function SampleBlock(text: string): Block {
    Section(PlainText(JStr(text), Some(true)), None)
  }

  /** The example layout: the header, then one section per sample text. */
  function ExampleBlocks(): seq<Block> {
    [ExamplesHeader] + seq(|SampleTexts|, i requires 0 <= i < |SampleTexts| => SampleBlock(SampleTexts[i]))
  }

  /** Builds the example layout by appending one section per sample text. */
  method GetExamplePrompts() returns (blocks: seq<Block>)
    ensures |blocks| == 1 + |SampleTexts|
    ensures blocks[0] == ExamplesHeader
    ensures forall i :: 0 <= i < |SampleTexts| ==> blocks[i + 1] == SampleBlock(SampleTexts[i])
  {
    blocks := [ExamplesHeader];
    for i := 0 to |SampleTexts|
      invariant |blocks| == 1 + i
      invariant blocks[0] == ExamplesHeader
      invariant forall j :: 0 <= j < i ==> blocks[j + 1] == SampleBlock(SampleTexts[j])
    {
      blocks := blocks + [SampleBlock(SampleTexts[i])];
    }
  }

  // ---------------------------------------------------------------------
  // new_slack_event: what one event leads to

  const JoinMarker: string := "has joined the channel"

  /** The text a message must contain to be addressed to the bot. */
  function Mention(botId: string): string {
    "@" + botId
  }

  function WelcomeText(user: string): string {
    "Welcome to the channel, <@" + user + ">!"
  }

  function WelcomePost(user: string, channel: string): Action {
    PostEphemeral(user, channel, WelcomeText(user),
                  [Section(Markdown(JStr(WelcomeText(user))), None), Divider] + ExampleBlocks())
  }

  function LoadingPost(channel: string): Action {
    PostMessage(channel, JStr(Constants.LoadingIndicator), BlocksJson(LoadingBlock))
  }

  predicate WellFormedFile(f: SlackFile) {
    f.urlPrivateDownload.Some? && f.name.Some?
  }

  function DownloadFor(params: PromptParameters, f: SlackFile): Task
    requires WellFormedFile(f)
  {
    DownloadTask(params, f.urlPrivateDownload.value, f.name.value, Extension(f.name.value))
  }

  /** How many files, from the first, have both keys the loop reads. */
  function WellFormedPrefix(files: seq<SlackFile>): (w: nat)
    ensures w <= |files|
    ensures forall i :: 0 <= i < w ==> WellFormedFile(files[i])
    ensures w < |files| ==> !WellFormedFile(files[w])
  {
    if files == [] || !WellFormedFile(files[0]) then 0
    else 1 + WellFormedPrefix(files[1..])
  }

  /** The loop over attached files: one download task per file, in order,
      until a file misses a key, whose KeyError ends the loop. */
  function FileTasks(params: PromptParameters, files: seq<SlackFile>): seq<Action> {
    if files == [] || !WellFormedFile(files[0]) then []
    else [Schedule(DownloadFor(params, files[0]))] + FileTasks(params, files[1..])
  }

  /** The request parameters a handled message yields. */
  function ParamsOf(e: Event): PromptParameters
    requires e.text.Some? && e.channel.Some?
  {
    PromptParameters(e.text.value, EventSource("slack", e.channel.value))
  }

  /** The second `if` of the endpoint: a user message naming the bot. */
  function MentionEffects(p: Payload, botId: string, loadingDelivered: bool): Effects
    requires p.event.Some? && p.event.value.text.Some?
  {
    var e := p.event.value;
    if e.clientMsgId.None? then Effects([], Echo(p))
    else if !(|e.clientMsgId.value| > 0 && Contains(e.text.value, Mention(botId))) then Effects([], Echo(p))
    else if e.channel.None? then Effects([], Echo(p))
    else
      var params := ParamsOf(e);
      if !loadingDelivered then Effects([LoadingPost(e.channel.value)], ServerError)
      else match e.files
        case None => Effects([LoadingPost(e.channel.value), Schedule(PromptTask(params))], Echo(p))
        case Some(files) => Effects([LoadingPost(e.channel.value)] + FileTasks(params, files), Echo(p))
  }

  /** Everything one call of the event endpoint does, given whether the
      welcome post and the loading post were accepted by Slack. */
  function EventEffects(p: Payload, botId: string, welcomeDelivered: bool, loadingDelivered: bool): Effects {
    if p.event.None? || p.event.value.text.None? then Effects([], Echo(p))
    else
      var e := p.event.value;
      if !Contains(e.text.value, JoinMarker) then MentionEffects(p, botId, loadingDelivered)
      else if e.user.None? then Effects([], Echo(p))
      else if e.channel.None? then Effects([], NullBody)
      else if !welcomeDelivered then Effects([WelcomePost(e.user.value, e.channel.value)], NullBody)
      else
        var m := MentionEffects(p, botId, loadingDelivered);
        Effects([WelcomePost(e.user.value, e.channel.value)] + m.actions, m.reply)
  }

  // ---------------------------------------------------------------------
  // Properties of the event endpoint

  /** The event names a channel join. */
  predicate IsJoin(p: Payload) {
    p.event.Some? && p.event.value.text.Some? && Contains(p.event.value.text.value, JoinMarker)
  }

  /** The welcome branch, if taken, let the endpoint go on to the mention check. */
  predicate PassesWelcome(p: Payload, welcomeDelivered: bool) {
    p.event.Some? && p.event.value.text.Some?
    && (IsJoin(p) ==> p.event.value.user.Some? && p.event.value.channel.Some? && welcomeDelivered)
  }

  /** The message is handled: it has a truthy `client_msg_id`, its text
      mentions the bot, and it names a channel. */
  predicate Handled(p: Payload, botId: string, welcomeDelivered: bool) {
    PassesWelcome(p, welcomeDelivered)
    && p.event.value.clientMsgId.Some? && |p.event.value.clientMsgId.value| > 0
    && Contains(p.event.value.text.value, Mention(botId))
    && p.event.value.channel.Some?
  }

  /** The tasks scheduled by a list of actions, in order. */
  function Tasks(acts: seq<Action>): seq<Task> {
    if acts == [] then []
    else (if acts[0].Schedule? then [acts[0].task] else []) + Tasks(acts[1..])
  }

  lemma {:induction false} TasksAppend(a: seq<Action>, b: seq<Action>)
    ensures Tasks(a + b) == Tasks(a) + Tasks(b)
  {
    if a == [] {
      assert a + b == b;
    } else {
      assert (a + b)[0] == a[0];
      assert (a + b)[1..] == a[1..] + b;
      TasksAppend(a[1..], b);
    }
  }

  /** The file loop schedules a download for each file before the first
      one missing a key, in file order, and nothing else. */
  lemma {:induction false} FileTasksShape(params: PromptParameters, files: seq<SlackFile>)
    ensures var acts := FileTasks(params, files);
            && |acts| == WellFormedPrefix(files)
            && (forall i :: 0 <= i < |acts| ==> acts[i] == Schedule(DownloadFor(params, files[i])))
            && Tasks(acts) == seq(|acts|, i requires 0 <= i < |acts| => DownloadFor(params, files[i]))
  {
    if files != [] && WellFormedFile(files[0]) {
      FileTasksShape(params, files[1..]);
      var acts := FileTasks(params, files);
      var rest := FileTasks(params, files[1..]);
      assert acts == [Schedule(DownloadFor(params, files[0]))] + rest;
      assert acts[1..] == rest;
    }
  }

  /** The tasks of well-formed files come before those of the files after them. */
  lemma {:induction false} FileTasksAppend(params: PromptParameters, a: seq<SlackFile>, b: seq<SlackFile>)
    requires forall j :: 0 <= j < |a| ==> WellFormedFile(a[j])
    ensures FileTasks(params, a + b) == FileTasks(params, a) + FileTasks(params, b)
  {
    if a == [] {
      assert a + b == b;
    } else {
      assert (a + b)[0] == a[0];
      assert (a + b)[1..] == a[1..] + b;
      FileTasksAppend(params, a[1..], b);
    }
  }

  /** One more well-formed file adds its download task at the end. */
  lemma FileTasksExtend(params: PromptParameters, files: seq<SlackFile>, i: nat)
    requires i < |files| && forall j :: 0 <= j <= i ==> WellFormedFile(files[j])
    ensures FileTasks(params, files[..i + 1]) == FileTasks(params, files[..i]) + [Schedule(DownloadFor(params, files[i]))]
  {
    assert files[..i + 1] == files[..i] + [files[i]];
    FileTasksAppend(params, files[..i], [files[i]]);
    assert [files[i]][1..] == [];
  }

  /** A file missing a key ends the loop: later files add nothing. */
  lemma FileTasksStop(params: PromptParameters, files: seq<SlackFile>, i: nat)
    requires i < |files| && !WellFormedFile(files[i])
    requires forall j :: 0 <= j < i ==> WellFormedFile(files[j])
    ensures FileTasks(params, files) == FileTasks(params, files[..i])
  {
    assert files == files[..i] + files[i..];
    FileTasksAppend(params, files[..i], files[i..]);
    assert files[i..][0] == files[i];
  }

  /** The endpoint answers with the payload it received, except that a
      welcome that could not be posted answers `null` and a loading post
      that raised ends in a server error. */
  lemma EchoesPayload(p: Payload, botId: string, welcomeDelivered: bool, loadingDelivered: bool)
    ensures var r := EventEffects(p, botId, welcomeDelivered, loadingDelivered).reply;
            && (r == NullBody <==>
                  IsJoin(p) && p.event.value.user.Some? && (p.event.value.channel.None? || !welcomeDelivered))
            && (r == ServerError <==> Handled(p, botId, welcomeDelivered) && !loadingDelivered)
            && (r != NullBody && r != ServerError ==> r == Echo(p))
  {
  }

  /** Nothing is posted to the channel and nothing is scheduled unless the
      message is handled; a handled message always gets the loading post. */
  lemma NothingUnlessHandled(p: Payload, botId: string, welcomeDelivered: bool, loadingDelivered: bool)
    ensures var acts := EventEffects(p, botId, welcomeDelivered, loadingDelivered).actions;
            && (forall a :: a in acts && !a.PostEphemeral? ==> Handled(p, botId, welcomeDelivered))
            && (Handled(p, botId, welcomeDelivered) ==> LoadingPost(p.event.value.channel.value) in acts)
  {
  }

  /** When tasks are scheduled, the loading message is posted before every
      one of them. */
  lemma {:induction false} LoadingBeforeTasks(p: Payload, botId: string, welcomeDelivered: bool, loadingDelivered: bool)
    ensures var acts := EventEffects(p, botId, welcomeDelivered, loadingDelivered).actions;
            forall i :: 0 <= i < |acts| && acts[i].Schedule? ==>
              exists j :: 0 <= j < i && acts[j] == LoadingPost(p.event.value.channel.value)
  {
    var acts := EventEffects(p, botId, welcomeDelivered, loadingDelivered).actions;
    if Handled(p, botId, welcomeDelivered) && loadingDelivered {
      var e := p.event.value;
      var k := if IsJoin(p) then 1 else 0;
      assert acts[k] == LoadingPost(e.channel.value);
      forall i | 0 <= i < |acts| && acts[i].Schedule?
        ensures exists j :: 0 <= j < i && acts[j] == LoadingPost(e.channel.value)
      {
        assert i != k;
        if IsJoin(p) {
          assert acts[0] == WelcomePost(e.user.value, e.channel.value);
        }
      }
    }
  }

  /** A handled message without files schedules exactly one prompt task. */
  lemma OnePromptTaskWithoutFiles(p: Payload, botId: string, welcomeDelivered: bool)
    requires Handled(p, botId, welcomeDelivered) && p.event.value.files.None?
    ensures Tasks(EventEffects(p, botId, welcomeDelivered, true).actions) == [PromptTask(ParamsOf(p.event.value))]
  {
    var e := p.event.value;
    var m := MentionEffects(p, botId, true);
    var loading := LoadingPost(e.channel.value);
    var task := Schedule(PromptTask(ParamsOf(e)));
    assert m.actions == [loading] + [task];
    assert Tasks([loading]) == [] by { assert [loading][1..] == []; }
    assert Tasks([task]) == [PromptTask(ParamsOf(e))] by { assert [task][1..] == []; }
    TasksAppend([loading], [task]);
    if IsJoin(p) {
      TasksAppend([WelcomePost(e.user.value, e.channel.value)], m.actions);
    }
  }

  /** A handled message with files schedules one download task per file,
      in file order, and no prompt task; a file missing a key stops the
      loop, and the files before it keep their tasks. */
  lemma OneDownloadPerFile(p: Payload, botId: string, welcomeDelivered: bool)
    requires Handled(p, botId, welcomeDelivered) && p.event.value.files.Some?
    ensures var files := p.event.value.files.value;
            var w := WellFormedPrefix(files);
            Tasks(EventEffects(p, botId, welcomeDelivered, true).actions)
              == seq(w, i requires 0 <= i < w => DownloadFor(ParamsOf(p.event.value), files[i]))
  {
    var e := p.event.value;
    var files := e.files.value;
    var m := MentionEffects(p, botId, true);
    FileTasksShape(ParamsOf(e), files);
    TasksAppend([LoadingPost(e.channel.value)], FileTasks(ParamsOf(e), files));
    if IsJoin(p) {
      TasksAppend([WelcomePost(e.user.value, e.channel.value)], m.actions);
    }
  }

  // ---------------------------------------------------------------------
  // The chat history handed to the agent (prompt_handler, download_handler)

  /** The line a message contributes: role prefix, content, newline; the
      kinds other than user, AI and system contribute nothing. */
  function Line(m: ChatMessage): string {
    match m
    case Human(c) => "user: " + c + "\n"
    case Ai(c) => "ai: " + c + "\n"
    case System(c) => "system: " + c + "\n"
    case Other(_, _) => ""
  }

  function ChatHistory(ms: seq<ChatMessage>): string {
    if ms == [] then "" else Line(ms[0]) + ChatHistory(ms[1..])
  }

  /** Rendering is done message by message, in buffer order. */
  lemma {:induction false} ChatHistoryAppend(a: seq<ChatMessage>, b: seq<ChatMessage>)
    ensures ChatHistory(a + b) == ChatHistory(a) + ChatHistory(b)
  {
    if a == [] {
      assert a + b == b;
    } else {
      assert (a + b)[0] == a[0];
      assert (a + b)[1..] == a[1..] + b;
      ChatHistoryAppend(a[1..], b);
    }
  }

  /** The `+=` loop over the memory's messages. */
  method RenderChatHistory(ms: seq<ChatMessage>) returns (history: string)
    ensures history == ChatHistory(ms)
  {
    history := "";
    for i := 0 to |ms|
      invariant history == ChatHistory(ms[..i])
    {
      ChatHistoryStep(ms, i);
      match ms[i] {
        case Human(c) => history := history + "user: " + c + "\n";
        case Ai(c) => history := history + "ai: " + c + "\n";
        case System(c) => history := history + "system: " + c + "\n";
        case Other(_, _) =>
      }
    }
    assert ms[..|ms|] == ms;
  }

  lemma ChatHistoryStep(ms: seq<ChatMessage>, i: nat)
    requires i < |ms|
    ensures ChatHistory(ms[..i + 1]) == ChatHistory(ms[..i]) + Line(ms[i])
  {
    assert ms[..i + 1] == ms[..i] + [ms[i]];
    ChatHistoryAppend(ms[..i], [ms[i]]);
    assert [ms[i]][1..] == [];
  }

  /** Number of occurrences of a character. */
  function Occurrences(s: string, c: char): nat {
    if s == [] then 0 else Occurrences(s[..|s| - 1], c) + (if s[|s| - 1] == c then 1 else 0)
  }

  lemma {:induction false} OccurrencesAppend(s: string, t: string, c: char)
    ensures Occurrences(s + t, c) == Occurrences(s, c) + Occurrences(t, c)
    decreases |t|
  {
    if t == [] {
      assert s + t == s;
    } else {
      assert (s + t)[..|s + t| - 1] == s + t[..|t| - 1];
      OccurrencesAppend(s, t[..|t| - 1], c);
    }
  }

  /** The messages that get a line. */
  predicate Rendered(m: ChatMessage) {
    m.Human? || m.Ai? || m.System?
  }

  function CountRendered(ms: seq<ChatMessage>): nat {
    if ms == [] then 0 else (if Rendered(ms[0]) then 1 else 0) + CountRendered(ms[1..])
  }

  /** With single-line contents, the history has exactly one line per user,
      AI or system message. */
  lemma {:induction false} OneLinePerMessage(ms: seq<ChatMessage>)
    requires forall m :: m in ms ==> '\n' !in m.content
    ensures Occurrences(ChatHistory(ms), '\n') == CountRendered(ms)
  {
    if ms != [] {
      assert forall x :: x in ms[1..] ==> x in ms;
      OneLinePerMessage(ms[1..]);
      OccurrencesAppend(Line(ms[0]), ChatHistory(ms[1..]), '\n');
      LineHasOneNewline(ms[0]);
    }
  }

  /** A rendered single-line message contributes exactly one newline. */
  lemma LineHasOneNewline(m: ChatMessage)
    requires '\n' !in m.content
    ensures Occurrences(Line(m), '\n') == (if Rendered(m) then 1 else 0)
  {
    NoOccurrences(m.content, '\n');
    var prefix := match m
      case Human(_) => "user: "
      case Ai(_) => "ai: "
      case System(_) => "system: "
      case Other(_, _) => "";
    if Rendered(m) {
      assert Line(m) == prefix + m.content + "\n";
      OccurrencesAppend(prefix + m.content, "\n", '\n');
      OccurrencesAppend(prefix, m.content, '\n');
      NoOccurrences(prefix, '\n');
    }
  }

  lemma {:induction false} NoOccurrences(s: string, c: char)
    requires c !in s
    ensures Occurrences(s, c) == 0
  {
    if s != [] {
      assert forall x :: x in s[..|s| - 1] ==> x in s;
      NoOccurrences(s[..|s| - 1], c);
    }
  }

  /** The agent input of prompt_handler: the history, then the prompt. */
  function PromptText(chatHistory: string, prompt: string): string {
    "\n    " + chatHistory + "\n    Human: " + prompt + "\n    Assistant:\n    "
  }

  /** download_handler saves the file under this path. */
  function DownloadPath(fileName: string): string {
    "downloads/" + fileName
  }

  // ---------------------------------------------------------------------
  // string_handler and slack_response_handler

  /** The three blocks string_handler posts for an answer. */
  function StringHandlerBlocks(response: Json): seq<Block> {
    [AnswerBlock(response), RatingBlock, FeedbackInputBlock]
  }

  function StringHandlerActions(params: PromptParameters, response: Json): seq<Action> {
    [PostMessage(params.source.id, response, BlocksJson(StringHandlerBlocks(response)))]
  }

  /** string_handler posts one message to the prompt's channel whose text is
      the answer and whose layout reads back as exactly three blocks: the
      answer, the Good/Ok/Bad rating and the comment field. */
  lemma StringHandlerLayout(params: PromptParameters, response: Json)
    ensures var acts := StringHandlerActions(params, response);
            && |acts| == 1 && acts[0].PostMessage?
            && acts[0].channel == params.source.id && acts[0].text == response
            && BlocksOf(acts[0].blocks) == Some([AnswerBlock(response), RatingBlock, FeedbackInputBlock])
  {
    BlocksRoundTrip(StringHandlerBlocks(response));
  }

  /** slack_response_handler as written: the name `response` is rebound to
      the parsed JSON, so the fallback receives the parsed value whenever
      parsing succeeded. `parsed` is what `json.loads` made of the answer
      (None when it raised). */
  function ResponseActionsAsWritten(params: PromptParameters, response: string, parsed: Option<Json>,
                                    post: PostOutcome): (acts: seq<Action>)
    ensures var isReply := parsed.Some? && parsed.value.JObj? && "slack_response" in parsed.value.fields;
            && (parsed.None? || (isReply && post != OtherError) ==> acts == ResponseActions(params, response, parsed, post))
            && (parsed.Some? && !isReply ==> acts == StringHandlerActions(params, parsed.value))
            && (isReply && post == OtherError ==>
                  |acts| == 2
                  && acts[0] == PostMessage(params.source.id, JStr("response"), parsed.value.fields["slack_response"])
                  && acts[1..] == StringHandlerActions(params, parsed.value))
            && (forall a :: a in acts ==> a.PostMessage? && a.channel == params.source.id)
  {
    match parsed
    case None => StringHandlerActions(params, JStr(response))
    case Some(j) =>
      if j.JObj? && "slack_response" in j.fields then
        var first := PostMessage(params.source.id, JStr("response"), j.fields["slack_response"]);
        if post == OtherError then [first] + StringHandlerActions(params, j) else [first]
      else StringHandlerActions(params, j)
  }

  /** slack_response_handler with the fallback given the agent's own text. */
  function ResponseActions(params: PromptParameters, response: string, parsed: Option<Json>,
                           post: PostOutcome): seq<Action>
  {
    match parsed
    case None => StringHandlerActions(params, JStr(response))
    case Some(j) =>
      if j.JObj? && "slack_response" in j.fields then
        var first := PostMessage(params.source.id, JStr("response"), j.fields["slack_response"]);
        if post == OtherError then [first] + StringHandlerActions(params, JStr(response)) else [first]
      else StringHandlerActions(params, JStr(response))
  }

  /** As written, an answer that is valid JSON but not a reply object (the
      agent answering "4") is posted as the parsed value: the answer block
      holds the number 4, not the text "4". */
  lemma FallbackPostsParsedValue(params: PromptParameters)
    ensures ResponseActionsAsWritten(params, "4", Some(JNum(4)), Delivered)
            == [PostMessage(params.source.id, JNum(4), BlocksJson([AnswerBlock(JNum(4)), RatingBlock, FeedbackInputBlock]))]
    ensures ResponseActionsAsWritten(params, "4", Some(JNum(4)), Delivered)
            != ResponseActions(params, "4", Some(JNum(4)), Delivered)
  {
    var written := ResponseActionsAsWritten(params, "4", Some(JNum(4)), Delivered);
    var fixed := ResponseActions(params, "4", Some(JNum(4)), Delivered);
    assert written[0].text != fixed[0].text;
  }

  /** The handler posts the agent's `slack_response` blocks when the answer
      is a reply object; in every other case, and when that post raised
      something other than a SlackApiError, it posts the agent's text with
      the three-block layout. */
  lemma ResponseHandlerPosts(params: PromptParameters, response: string, parsed: Option<Json>, post: PostOutcome)
    ensures var acts := ResponseActions(params, response, parsed, post);
            var isReply := parsed.Some? && parsed.value.JObj? && "slack_response" in parsed.value.fields;
            && (isReply ==> acts[0] == PostMessage(params.source.id, JStr("response"), parsed.value.fields["slack_response"]))
            && (isReply && post != OtherError ==> |acts| == 1)
            && (!isReply ==> acts == StringHandlerActions(params, JStr(response)))
            && (isReply && post == OtherError ==> acts[1..] == StringHandlerActions(params, JStr(response)))
            && (forall a :: a in acts ==> a.PostMessage? && a.channel == params.source.id)
  {
  }

  // ---------------------------------------------------------------------
  // slack_rating

  /** What the rating endpoint extracts and answers. */
  datatype RatingRecord = RatingRecord(userId: Json, rating: Json, answer: string)

  const UserIdPath: seq<string> := ["user", "id"]

  const RatingPath: seq<string> :=
    ["state", "values", "UBJT", "radio_buttons-action", "selected_option", "text", "text"]

  /** The rating endpoint: `decoded` is the URL-decoded, JSON-parsed form
      field (None when parsing raised). It reads the user id and the label
      of the selected radio option, and answers the raw payload; a missing
      key or a value of the wrong kind raises (None). */
  function SlackRating(payload: string, decoded: Option<Json>): (r: Option<RatingRecord>)
    ensures r.Some? <==> decoded.Some? && At(decoded.value, UserIdPath).Some? && At(decoded.value, RatingPath).Some?
    ensures r.Some? ==> r.value.answer == payload
                        && r.value.userId == At(decoded.value, UserIdPath).value
                        && r.value.rating == At(decoded.value, RatingPath).value
  {
    match decoded
    case None => None
    case Some(j) =>
      match (At(j, UserIdPath), At(j, RatingPath))
      case (Some(u), Some(rating)) => Some(RatingRecord(u, rating, payload))
      case _ => None
  }

  /** The interaction payload Slack sends when `user` picks `choice` in the
      radio group of the block with id `blockId`. */
  function SelectionPayload(user: string, blockId: string, choice: RadioOption): Json {
    JObj(map[
      "user" := JObj(map["id" := JStr(user)]),
      "state" := JObj(map["values" := JObj(map[blockId := JObj(map[
        RatingActionId := JObj(map["type" := JStr("radio_buttons"), "selected_option" := OptionJson(choice)])])])])])
  }

  /** Picking one of the posted rating options under block id "UBJT" is
      read back as that option's label, and the payload is answered
      unchanged; under any other block id the endpoint raises. */
  lemma RatingRoundTrip(payload: string, user: string, blockId: string, i: nat)
    requires i < |RatingOptions|
    ensures blockId == "UBJT" ==>
              SlackRating(payload, Some(SelectionPayload(user, blockId, RatingOptions[i])))
              == Some(RatingRecord(JStr(user), JStr(["Good", "Ok", "Bad"][i]), payload))
    ensures blockId != "UBJT" ==> SlackRating(payload, Some(SelectionPayload(user, blockId, RatingOptions[i]))) == None
  {
    var j := SelectionPayload(user, blockId, RatingOptions[i]);
    var values := JObj(map[blockId := JObj(map[
        RatingActionId := JObj(map["type" := JStr("radio_buttons"), "selected_option" := OptionJson(RatingOptions[i])])])]);
    assert At(j, UserIdPath) == Some(JStr(user)) by {
      assert UserIdPath[1..] == ["id"];
      assert ["id"][1..] == [];
    }
    AtAppend(j, ["state", "values"], RatingPath[2..]);
    assert ["state", "values"] + RatingPath[2..] == RatingPath;
    assert At(j, ["state", "values"]) == Some(values) by {
      assert ["state", "values"][1..] == ["values"];
      assert ["values"][1..] == [];
    }
    if blockId == "UBJT" {
      var o := RatingOptions[i];
      var name := ["Good", "Ok", "Bad"][i];
      assert o.text == PlainText(JStr(name), None);
      var sel := JObj(map["type" := JStr("radio_buttons"), "selected_option" := OptionJson(o)]);
      var radio := JObj(map[RatingActionId := sel]);
      var rest := RatingPath[2..];
      assert rest == ["UBJT", "radio_buttons-action", "selected_option", "text", "text"];
      calc {
        At(values, rest);
        At(radio, rest[1..]);
        { assert rest[1..][0] == RatingActionId; }
        At(sel, rest[2..]);
        { assert rest[2..][0] == "selected_option"; assert rest[2..][1..] == rest[3..]; }
        At(OptionJson(o), rest[3..]);
        { assert rest[3..][0] == "text"; assert rest[3..][1..] == rest[4..]; }
        At(TextJson(o.text), rest[4..]);
        { assert rest[4..][0] == "text"; assert rest[4..][1..] == []; }
        At(JStr(name), []);
      }
    }
  }

  // ---------------------------------------------------------------------
  // The application

  class SlackApp {
    /** SLACK_BOT_ID, read from the environment at start-up. */
    const botId: string

    /** Every call made to Slack, the task queue and the agent, in order. */
    ghost var log: seq<Action>

    constructor (botId: string)
      ensures this.botId == botId && log == []
    {
      this.botId := botId;
      log := [];
    }

    /** The /slack/event/ endpoint. */
    method NewSlackEvent(payload: Payload, welcomeDelivered: bool, loadingDelivered: bool) returns (reply: Reply)
      modifies this
      ensures log == old(log) + EventEffects(payload, botId, welcomeDelivered, loadingDelivered).actions
      ensures reply == EventEffects(payload, botId, welcomeDelivered, loadingDelivered).reply
    {
      if payload.event.None? || payload.event.value.text.None? {
        return Echo(payload);
      }
      var event := payload.event.value;
      if Contains(event.text.value, JoinMarker) {
        var examples := GetExamplePrompts();
        if event.user.None? {
          return Echo(payload);
        }
        var user := event.user.value;
        if event.channel.None? {
          return NullBody;
        }
        assert examples == ExampleBlocks();
        log := log + [PostEphemeral(user, event.channel.value, WelcomeText(user),
                                    [Section(Markdown(JStr(WelcomeText(user))), None), Divider] + examples)];
        if !welcomeDelivered {
          return NullBody;
        }
      }
      reply := HandleMention(payload, loadingDelivered);
    }

    /** The rest of the endpoint: a message naming the bot gets the loading
        post, then its tasks. */
    method HandleMention(payload: Payload, loadingDelivered: bool) returns (reply: Reply)
      requires payload.event.Some? && payload.event.value.text.Some?
      modifies this
      ensures log == old(log) + MentionEffects(payload, botId, loadingDelivered).actions
      ensures reply == MentionEffects(payload, botId, loadingDelivered).reply
    {
      var event := payload.event.value;
      if event.clientMsgId.None? {
        return Echo(payload);
      }
      if |event.clientMsgId.value| > 0 && Contains(event.text.value, Mention(botId)) {
        if event.channel.None? {
          return Echo(payload);
        }
        var params := PromptParameters(event.text.value, EventSource("slack", event.channel.value));
        log := log + [PostMessage(params.source.id, JStr(Constants.LoadingIndicator), BlocksJson(LoadingBlock))];
        if !loadingDelivered {
          return ServerError;
        }
        match event.files {
          case Some(files) =>
            ScheduleDownloads(params, files);
          case None =>
            log := log + [Schedule(PromptTask(params))];
        }
      }
      return Echo(payload);
    }

    /** The loop over attached files. */
    method ScheduleDownloads(params: PromptParameters, files: seq<SlackFile>)
      modifies this
      ensures log == old(log) + FileTasks(params, files)
    {
      var i := 0;
      while i < |files|
        invariant 0 <= i <= |files|
        invariant forall j :: 0 <= j < i ==> WellFormedFile(files[j])
        invariant log == old(log) + FileTasks(params, files[..i])
      {
        var file := files[i];
        if file.urlPrivateDownload.None? || file.name.None? {
          FileTasksStop(params, files, i);
          return;
        }
        FileTasksExtend(params, files, i);
        var name := file.name.value;
        log := log + [Schedule(DownloadTask(params, file.urlPrivateDownload.value, name, Extension(name)))];
        i := i + 1;
      }
      assert files[..i] == files;
    }

    /** string_handler: post the answer with the rating layout. */
    method StringHandler(params: PromptParameters, response: Json)
      modifies this
      ensures log == old(log) + StringHandlerActions(params, response)
    {
      var blocks := [AnswerBlock(response), RatingBlock, FeedbackInputBlock];
      log := log + [PostMessage(params.source.id, response, BlocksJson(blocks))];
    }

    /** slack_response_handler, with the fallback given the agent's text. */
    method SlackResponseHandler(params: PromptParameters, response: string, parsed: Option<Json>, post: PostOutcome)
      modifies this
      ensures log == old(log) + ResponseActions(params, response, parsed, post)
    {
      if parsed.Some? && parsed.value.JObj? && "slack_response" in parsed.value.fields {
        log := log + [PostMessage(params.source.id, JStr("response"), parsed.value.fields["slack_response"])];
        if post == OtherError {
          StringHandler(params, JStr(response));
        }
      } else {
        StringHandler(params, JStr(response));
      }
    }

    /** prompt_handler: load the channel history, render it, run the agent
        on the history and the prompt, and post its answer. `agent` stands
        for the agent and `parse` for `json.loads` on its answer. */
    method PromptHandler(params: PromptParameters, history: HistoryReply,
                         agent: string -> string, parse: string -> Option<Json>, post: PostOutcome)
      returns (outcome: TaskOutcome)
      modifies this
      ensures params.source.name != "slack" || history.ApiError? ==> outcome == Crashed && log == old(log)
      ensures params.source.name == "slack" && history.History? ==>
                var input := PromptText(ChatHistory(Conversation(history.messages)), params.prompt);
                outcome == Finished
                && log == old(log) + [RunAgent(input)] + ResponseActions(params, agent(input), parse(agent(input)), post)
    {
      var memory: ChatMessageHistory? := null;
      if params.source.name == "slack" {
        memory := SlackToLlmMemory(history);
      }
      if memory == null {
        return Crashed;
      }
      var chatHistory := RenderChatHistory(memory.messages);
      var input := PromptText(chatHistory, params.prompt);
      log := log + [RunAgent(input)];
      var response := agent(input);
      SlackResponseHandler(params, response, parse(response), post);
      return Finished;
    }

    /** download_handler: on a 200 answer save the file under downloads/,
        then run the agent with the history, the channel and the file path.
        The agent's answer is not posted by this handler. */
    method DownloadHandler(params: PromptParameters, fileUrl: string, fileName: string, statusCode: int,
                           history: HistoryReply)
      returns (outcome: TaskOutcome)
      modifies this
      ensures statusCode != 200 ==> outcome == Finished && log == old(log)
      ensures statusCode == 200 && (params.source.name != "slack" || history.ApiError?) ==>
                outcome == Crashed && log == old(log) + [SaveDownload(fileUrl, DownloadPath(fileName))]
      ensures statusCode == 200 && params.source.name == "slack" && history.History? ==>
                outcome == Finished
                && log == old(log) + [SaveDownload(fileUrl, DownloadPath(fileName)),
                                      RunFileAgent(ChatHistory(Conversation(history.messages)), params.source.id,
                                                   DownloadPath(fileName), params.prompt)]
    {
      if statusCode != 200 {
        return Finished;
      }
      var filePath := "downloads/" + fileName;
      log := log + [SaveDownload(fileUrl, filePath)];
      var memory: ChatMessageHistory? := null;
      if params.source.name == "slack" {
        memory := SlackToLlmMemory(history);
      }
      if memory == null {
        return Crashed;
      }
      var chatHistory := RenderChatHistory(memory.messages);
      log := log + [RunFileAgent(chatHistory, params.source.id, filePath, params.prompt)];
      return Finished;
    }
  }
}
