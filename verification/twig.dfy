/** The template helpers the plugin registers: the attributes of the form element, the
    hidden inputs that carry the anti-bot fields, and the script that fills the
    interaction counters and warns the visitor before submitting. All of them are
    pure: each returns a fixed string or one chosen by the site language. */
module EasyFormTwig {
  import opened Strings
  import opened EasyFormCore

  /** The extension's name (`getName()`). */
  const ExtensionName := "EasyForm"

  // ---------------------------------------------------------------------------
  // easyFormAttributes()
  // ---------------------------------------------------------------------------

  /** The bare attribute the prevent-bot script selects the form by. */
  const FormMarker := "data-easyform"

  const PostMethod := "method=\"post\""

  /** The attributes of the contact form element: always the same string, posting the
      form and ending in the marker attribute. */
  function EasyFormAttributes(): (attrs: string)
    ensures |attrs| > |PostMethod| && attrs[..|PostMethod|] == PostMethod
    ensures |attrs| > |FormMarker| && attrs[|attrs| - |FormMarker| - 1..] == " " + FormMarker
  {
    PostMethod + " accept-charset=\"UTF-8\" enctype=\"multipart/form-data\"" + " " + FormMarker
  }

  // ---------------------------------------------------------------------------
  // easyFormHiddenInput()
  // ---------------------------------------------------------------------------

  /** An `<input>` element with a type, a name and, unless `cssClass` is "", a class. */
  datatype InputTag = InputTag(kind: string, name: string, cssClass: string)

  function NameAttr(name: string): string
  {
    "name=\"" + name + "\""
  }

  function RenderTag(t: InputTag): string
  {
    "<input type=\"" + t.kind + "\" " + NameAttr(t.name)
      + (if t.cssClass == "" then "" else " class=\"" + t.cssClass + "\"") + ">"
  }

  function RenderTags(ts: seq<InputTag>): string
  {
    if ts == [] then "" else RenderTag(ts[0]) + RenderTags(ts[1..])
  }

  /** The three inputs, in order: the two hidden counters and the honeypot, an email
      input hidden from view by its class. Their names are the body parameters the
      service's bot filter reads. */
  const HiddenInputTags: seq<InputTag> := [
    InputTag("hidden", FocusParam, ""),
    InputTag("hidden", KeyupParam, ""),
    InputTag("email", HoneypotParam, "d-none")
  ]

  function EasyFormHiddenInput(): string
  {
    "<input type=\"hidden\" name=\"focus\">"
      + "<input type=\"hidden\" name=\"keyup\">"
      + "<input type=\"email\" name=\"email\" class=\"d-none\">"
  }

  /** The helper's markup is exactly the rendering of the three inputs: `focus` and
      `keyup` of type hidden, then the honeypot `email` of type email with class
      `d-none`. */
  lemma HiddenInputMarkup()
    ensures EasyFormHiddenInput() == RenderTags(HiddenInputTags)
    ensures |HiddenInputTags| == 3
    ensures HiddenInputTags[0].name == FocusParam && HiddenInputTags[0].kind == "hidden"
    ensures HiddenInputTags[1].name == KeyupParam && HiddenInputTags[1].kind == "hidden"
    ensures HiddenInputTags[2].name == HoneypotParam && HiddenInputTags[2].kind == "email"
    ensures HiddenInputTags[2].cssClass == "d-none"
  {
    var ts := HiddenInputTags;
    FocusTagMarkup();
    KeyupTagMarkup();
    HoneypotTagMarkup();
    assert RenderTags(ts[2..]) == RenderTag(ts[2]) + RenderTags([]);
    assert RenderTags(ts[1..]) == RenderTag(ts[1]) + RenderTags(ts[2..]);
    assert RenderTags(ts) == RenderTag(ts[0]) + RenderTags(ts[1..]);
  }

  lemma FocusTagMarkup()
    ensures RenderTag(HiddenInputTags[0]) == "<input type=\"hidden\" name=\"focus\">"
  {
  }

  lemma KeyupTagMarkup()
    ensures RenderTag(HiddenInputTags[1]) == "<input type=\"hidden\" name=\"keyup\">"
  {
  }

  lemma HoneypotTagMarkup()
    ensures RenderTag(HiddenInputTags[2]) == "<input type=\"email\" name=\"email\" class=\"d-none\">"
  {
  }

  /** Every input rendered by RenderTags carries its `name` attribute. */
  lemma {:induction false} RenderedTagsCarryNames(ts: seq<InputTag>, i: nat)
    requires i < |ts|
    ensures Contains(RenderTags(ts), NameAttr(ts[i].name))
    decreases |ts|
  {
    if i == 0 {
      var t := ts[0];
      var cls := if t.cssClass == "" then "" else " class=\"" + t.cssClass + "\"";
      var head := "<input type=\"" + t.kind + "\" ";
      assert RenderTag(t) == head + NameAttr(t.name) + cls + ">";
      ContainsAtEnd(head, NameAttr(t.name));
      ContainsInLeft(head + NameAttr(t.name), cls, NameAttr(t.name));
      ContainsInLeft(head + NameAttr(t.name) + cls, ">", NameAttr(t.name));
      ContainsInLeft(RenderTag(t), RenderTags(ts[1..]), NameAttr(t.name));
    } else {
      RenderedTagsCarryNames(ts[1..], i - 1);
      ContainsInRight(RenderTag(ts[0]), RenderTags(ts[1..]), NameAttr(ts[i].name));
    }
  }

  /** The hidden-input markup names each field the bot filter reads. */
  lemma HiddenInputNamesBotFilterFields()
    ensures Contains(EasyFormHiddenInput(), NameAttr(FocusParam))
    ensures Contains(EasyFormHiddenInput(), NameAttr(KeyupParam))
    ensures Contains(EasyFormHiddenInput(), NameAttr(HoneypotParam))
  {
    HiddenInputMarkup();
    RenderedTagsCarryNames(HiddenInputTags, 0);
    RenderedTagsCarryNames(HiddenInputTags, 1);
    RenderedTagsCarryNames(HiddenInputTags, 2);
  }

  // ---------------------------------------------------------------------------
  // easyFormPreventBotScript()
  // ---------------------------------------------------------------------------

  const EnglishAlert := "You might have typed only a few characters. Please type more, otherwise, you may be judged as a bot."
  const JapaneseAlert := "数文字しか入力していないようです。ボットと判定される可能性がありますので、さらに文字を入力してください。"

  /** The warning shown to a visitor who typed too little: Japanese for a site language
      beginning with "ja" (such as "ja-JP"), English for every other language. */
  function AlertMessage(language: string): (msg: string)
    ensures msg == JapaneseAlert <==> |language| >= 2 && language[0] == 'j' && language[1] == 'a'
    ensures msg == EnglishAlert <==> !(|language| >= 2 && language[0] == 'j' && language[1] == 'a')
  {
    var message := EnglishAlert;
    if "ja" <= language then JapaneseAlert else message
  }

  /** The statement that copies a counter into the input of the same name. */
  function CounterAssignment(field: string, counter: string): string
  {
    "document.querySelector('[name=\"" + field + "\"]').value = " + counter + ";"
  }

  function AlertCall(msg: string): string
  {
    "alert('" + msg + "')"
  }

  const ScriptOpen := @"            <script>
            let focusCount = 0;
            let keyupCount = 0;
            const form = document.querySelector('"

  const ScriptListeners := @"');
            form.addEventListener('focus', handleFocus, true);
            form.addEventListener('keyup', handleKeyup, true);
            form.addEventListener('submit', handleSubmit);
            function handleFocus(event) {
                focusCount++;
            }
            function handleKeyup(event) {
                keyupCount++;
            }
            function handleSubmit(event) {
                "

  const ScriptBetweenAssignments := @"
                "

  const ScriptCheck := @"
                if (focusCount <= 1 || keyupCount < 5) {
                    "

  const ScriptClose := @";
                    event.preventDefault();
                    return false;
                }
                return true;
            }
            </script>"

  /** The CSS selector for elements carrying attribute `attr`. */
  function AttributeSelector(attr: string): string
  {
    "[" + attr + "]"
  }

  /** The script in pieces: it counts focus and keyup events on the marked form and, on
      submit, writes both counts into the hidden inputs and warns with the alert
      message. */
  function ScriptPieces(language: string): seq<string>
  {
    [ ScriptOpen, AttributeSelector(FormMarker), ScriptListeners,
      CounterAssignment(FocusParam, "focusCount"), ScriptBetweenAssignments,
      CounterAssignment(KeyupParam, "keyupCount"), ScriptCheck,
      AlertCall(AlertMessage(language)), ScriptClose ]
  }

  function EasyFormPreventBotScript(language: string): string
  {
    Concat(ScriptPieces(language))
  }

  /** The script selects the form carrying the marker attribute, writes the focus and
      keyup counters into the inputs the bot filter reads, and alerts with the message
      chosen for the site language. */
  lemma ScriptWiring(language: string)
    ensures Contains(EasyFormPreventBotScript(language), AttributeSelector(FormMarker))
    ensures Contains(EasyFormPreventBotScript(language), CounterAssignment(FocusParam, "focusCount"))
    ensures Contains(EasyFormPreventBotScript(language), CounterAssignment(KeyupParam, "keyupCount"))
    ensures Contains(EasyFormPreventBotScript(language), AlertCall(AlertMessage(language)))
  {
    var pieces := ScriptPieces(language);
    ConcatContainsPiece(pieces, 1);
    ConcatContainsPiece(pieces, 3);
    ConcatContainsPiece(pieces, 5);
    ConcatContainsPiece(pieces, 7);
  }

  /** The form attributes and the script agree on the marker. */
  lemma AttributesCarryScriptMarker()
    ensures Contains(EasyFormAttributes(), FormMarker)
  {
    var attrs := EasyFormAttributes();
    assert OccursAt(attrs, FormMarker, |attrs| - |FormMarker|);
  }
}
