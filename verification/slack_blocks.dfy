/** Slack Block Kit layouts as the application builds them, their JSON form
    (the dictionaries handed to the Slack client), and the fixed blocks that
    app.py and the git tool both append to an answer. */
module SlackBlocks {
  import opened Wrappers
  import opened JsonValues
  import Constants

  /** A text object. `emoji` is None where the source leaves the key out.
      The text itself is any JSON value, because the source puts whatever
      value it holds into the dictionary. */
  datatype TextObject =
    | PlainText(text: Json, emoji: Option<bool>)
    | Markdown(text: Json)

  datatype RadioOption = RadioOption(text: TextObject, value: string)

  datatype Accessory =
    | RadioButtons(options: seq<RadioOption>, actionId: string)
    | Button(text: TextObject, value: string, url: string, actionId: string)

  /** `Input` is an input block whose element is a `plain_text_input`. */
  datatype Block =
    | Section(text: TextObject, accessory: Option<Accessory>)
    | Divider
    | Input(elementActionId: string, fieldLabel: TextObject)

  // ---------------------------------------------------------------------
  // The fixed blocks

  /** The three rating choices, in the order they are shown. */
  const RatingOptions: seq<RadioOption> := [
    RadioOption(PlainText(JStr("Good"), None), "value-0"),
    RadioOption(PlainText(JStr("Ok"), None), "value-1"),
    RadioOption(PlainText(JStr("Bad"), None), "value-2")
  ]

  const RatingActionId: string := "radio_buttons-action"

  /** "Rate my answer" with the three radio buttons. */
  const RatingBlock: Block :=
    Section(Markdown(JStr("Rate my answer")), Some(RadioButtons(RatingOptions, RatingActionId)))

  /** The free-text field for comments on the rating. */
  const FeedbackInputBlock: Block :=
    Input("plain_text_input-action",
          PlainText(JStr("You can tell me more about your rating, if you want."), Some(true)))

  /** The section that shows an answer. */
  function AnswerBlock(answer: Json): Block {
    Section(PlainText(answer, Some(true)), None)
  }

  /** LOADING_BLOCK: one markdown section holding the loading indicator. */
  const LoadingBlock: seq<Block> := [Section(Markdown(JStr(Constants.LoadingIndicator)), None)]

  // ---------------------------------------------------------------------
  // JSON form

  function TextJson(t: TextObject): Json {
    match t
    case PlainText(s, None) => JObj(map["type" := JStr("plain_text"), "text" := s])
    case PlainText(s, Some(e)) => JObj(map["type" := JStr("plain_text"), "text" := s, "emoji" := JBool(e)])
    case Markdown(s) => JObj(map["type" := JStr("mrkdwn"), "text" := s])
  }

  function OptionJson(o: RadioOption): Json {
    JObj(map["text" := TextJson(o.text), "value" := JStr(o.value)])
  }

  function OptionsJson(os: seq<RadioOption>): (r: seq<Json>)
    ensures |r| == |os|
  {
    if os == [] then [] else [OptionJson(os[0])] + OptionsJson(os[1..])
  }

  function AccessoryJson(a: Accessory): Json {
    match a
    case RadioButtons(os, id) =>
      JObj(map["type" := JStr("radio_buttons"), "options" := JArr(OptionsJson(os)), "action_id" := JStr(id)])
    case Button(t, v, u, id) =>
      JObj(map["type" := JStr("button"), "text" := TextJson(t), "value" := JStr(v),
               "url" := JStr(u), "action_id" := JStr(id)])
  }

  function BlockJson(b: Block): Json {
    match b
    case Section(t, None) => JObj(map["type" := JStr("section"), "text" := TextJson(t)])
    case Section(t, Some(a)) =>
      JObj(map["type" := JStr("section"), "text" := TextJson(t), "accessory" := AccessoryJson(a)])
    case Divider => JObj(map["type" := JStr("divider")])
    case Input(id, fieldLabel) =>
      JObj(map["type" := JStr("input"),
               "element" := JObj(map["type" := JStr("plain_text_input"), "action_id" := JStr(id)]),
               "label" := TextJson(fieldLabel)])
  }

  function BlockListJson(bs: seq<Block>): (r: seq<Json>)
    ensures |r| == |bs|
  {
    if bs == [] then [] else [BlockJson(bs[0])] + BlockListJson(bs[1..])
  }

  /** The `blocks` argument of a Slack call: a JSON list of block objects. */
  function BlocksJson(bs: seq<Block>): Json {
    JArr(BlockListJson(bs))
  }

  // ---------------------------------------------------------------------
  // Reading the JSON form back, as Slack does when it renders a message

  function StrOf(j: Json): Option<string> {
    if j.JStr? then Some(j.s) else None
  }

  function TextOf(j: Json): Option<TextObject> {
    if !j.JObj? || "type" !in j.fields || "text" !in j.fields then None
    else if j.fields["type"] == JStr("mrkdwn") then Some(Markdown(j.fields["text"]))
    else if j.fields["type"] != JStr("plain_text") then None
    else if "emoji" !in j.fields then Some(PlainText(j.fields["text"], None))
    else if j.fields["emoji"].JBool? then Some(PlainText(j.fields["text"], Some(j.fields["emoji"].b)))
    else None
  }

  function OptionOf(j: Json): Option<RadioOption> {
    if !j.JObj? || "text" !in j.fields || "value" !in j.fields then None
    else match (TextOf(j.fields["text"]), StrOf(j.fields["value"]))
      case (Some(t), Some(v)) => Some(RadioOption(t, v))
      case _ => None
  }

  function OptionsOf(js: seq<Json>): Option<seq<RadioOption>> {
    if js == [] then Some([])
    else match (OptionOf(js[0]), OptionsOf(js[1..]))
      case (Some(o), Some(os)) => Some([o] + os)
      case _ => None
  }

  function AccessoryOf(j: Json): Option<Accessory> {
    if !j.JObj? || "type" !in j.fields || "action_id" !in j.fields || !j.fields["action_id"].JStr? then None
    else if j.fields["type"] == JStr("radio_buttons") then
      if "options" !in j.fields || !j.fields["options"].JArr? then None
      else match OptionsOf(j.fields["options"].items)
        case Some(os) => Some(RadioButtons(os, j.fields["action_id"].s))
        case None => None
    else if j.fields["type"] == JStr("button") then
      if "text" !in j.fields || "value" !in j.fields || "url" !in j.fields then None
      else match (TextOf(j.fields["text"]), StrOf(j.fields["value"]), StrOf(j.fields["url"]))
        case (Some(t), Some(v), Some(u)) => Some(Button(t, v, u, j.fields["action_id"].s))
        case _ => None
    else None
  }

  function BlockOf(j: Json): Option<Block> {
    if !j.JObj? || "type" !in j.fields then None
    else if j.fields["type"] == JStr("divider") then Some(Divider)
    else if j.fields["type"] == JStr("section") then
      if "text" !in j.fields then None
      else match TextOf(j.fields["text"])
        case None => None
        case Some(t) =>
          if "accessory" !in j.fields then Some(Section(t, None))
          else match AccessoryOf(j.fields["accessory"])
            case Some(a) => Some(Section(t, Some(a)))
            case None => None
    else if j.fields["type"] == JStr("input") then
      if "element" !in j.fields || "label" !in j.fields then None
      else
        var e := j.fields["element"];
        if !e.JObj? || "action_id" !in e.fields || !e.fields["action_id"].JStr? then None
        else match TextOf(j.fields["label"])
          case Some(l) => Some(Input(e.fields["action_id"].s, l))
          case None => None
    else None
  }

  function BlockListOf(js: seq<Json>): Option<seq<Block>> {
    if js == [] then Some([])
    else match (BlockOf(js[0]), BlockListOf(js[1..]))
      case (Some(b), Some(bs)) => Some([b] + bs)
      case _ => None
  }

  /** What a `blocks` argument shows: the layout it encodes, if any. */
  function BlocksOf(j: Json): Option<seq<Block>> {
    if j.JArr? then BlockListOf(j.items) else None
  }

  // ---------------------------------------------------------------------
  // The JSON form loses nothing

  lemma TextRoundTrip(t: TextObject)
    ensures TextOf(TextJson(t)) == Some(t)
  {
    match t
    case PlainText(s, None) =>
      assert "emoji" !in TextJson(t).fields;
    case PlainText(s, Some(e)) =>
    case Markdown(s) =>
  }

  lemma {:induction false} OptionsRoundTrip(os: seq<RadioOption>)
    ensures OptionsOf(OptionsJson(os)) == Some(os)
  {
    if os != [] {
      TextRoundTrip(os[0].text);
      OptionsRoundTrip(os[1..]);
      assert OptionsJson(os)[0] == OptionJson(os[0]);
      assert OptionsJson(os)[1..] == OptionsJson(os[1..]);
      assert [os[0]] + os[1..] == os;
    }
  }

  lemma AccessoryRoundTrip(a: Accessory)
    ensures AccessoryOf(AccessoryJson(a)) == Some(a)
  {
    match a
    case RadioButtons(os, id) =>
      OptionsRoundTrip(os);
    case Button(t, v, u, id) =>
      TextRoundTrip(t);
  }

  lemma BlockRoundTrip(b: Block)
    ensures BlockOf(BlockJson(b)) == Some(b)
  {
    match b
    case Section(t, None) =>
      TextRoundTrip(t);
      assert "accessory" !in BlockJson(b).fields;
    case Section(t, Some(a)) =>
      TextRoundTrip(t);
      AccessoryRoundTrip(a);
    case Divider =>
    case Input(id, fieldLabel) =>
      TextRoundTrip(fieldLabel);
  }

  /** Decoding the `blocks` argument built from a layout gives that layout
      back, block for block. */
  lemma {:induction false} BlocksRoundTrip(bs: seq<Block>)
    ensures BlocksOf(BlocksJson(bs)) == Some(bs)
  {
    if bs != [] {
      BlockRoundTrip(bs[0]);
      BlocksRoundTrip(bs[1..]);
      assert BlockListJson(bs)[0] == BlockJson(bs[0]);
      assert BlockListJson(bs)[1..] == BlockListJson(bs[1..]);
      assert [bs[0]] + bs[1..] == bs;
    }
  }
}
