/** From a notification's text to the -EncodedCommand argument and back: internal/notify/toast.go:52-110. */
module Toast {
  import opened Options
  import opened Bytes
  import opened XmlText
  import opened Utf16
  import Base64

  /** ASCII without angle brackets or apostrophes: what the fixed parts of both templates are made of. */
  predicate InnerChar(c: char) { c as int < 128 && c != '<' && c != '>' && c != '\'' }

  ghost predicate Inner(s: string) { forall k :: 0 <= k < |s| ==> InnerChar(s[k]) }

  lemma {:induction false} InnerConcat(a: string, b: string)
    requires Inner(a) && Inner(b)
    ensures Inner(a + b)
  {
  }

  /** A tag and the character data that follows it. */
  datatype Element = Element(tag: string, text: string)

  function Rendered(e: Element): string { "<" + e.tag + ">" + e.text }

  function Render(es: seq<Element>): string {
    if es == [] then "" else Rendered(es[0]) + Render(es[1..])
  }

  // The fixed text is put together from short words: each is checked character by character.
  const TOAST_TAG := "toast activationType=" + "\"protocol\" duration=\""
  const BINDING_TAG := "binding template=" + "\"ToastGeneric\""
  const AUDIO_TAG := "audio src=\"ms-" + "winsoundevent:" + "Notification." + "Default\" loop=" + "\"false\"/"

  function OpeningElements(duration: string): seq<Element> {
    [Element(TOAST_TAG + duration + "\"", "\n    "),
     Element("visual", "\n        "),
     Element(BINDING_TAG, "\n            ")]
  }

  function TextElement(tag: string, text: string, gap: string): seq<Element> {
    [Element(tag, text), Element("/text", gap)]
  }

  const CLOSING_ELEMENTS: seq<Element> :=
    [Element("/binding", "\n    "), Element("/visual", "\n    "), Element(AUDIO_TAG, "\n"), Element("/toast", "")]

  const TITLE_TAG := "text id=\"1\""
  const CONTENT_TAG := "text id=\"2\""

  function ToastElements(title: string, content: string, duration: string): seq<Element> {
    OpeningElements(duration)
    + (TextElement(TITLE_TAG, title, "\n            ") + (TextElement(CONTENT_TAG, content, "\n        ") + CLOSING_ELEMENTS))
  }

  /** toastXML: the template with the escaped title and content. */
  function ToastXml(title: string, content: string, duration: string): string {
    Render(ToastElements(Escaped(title), Escaped(content), duration))
  }

  const UI := "Windows." + "UI.Notifications"
  const DOM := "Windows." + "Data.Xml.Dom"

  function Load(name: string, from: string): string {
    "[" + name + ", " + from + ", ContentType =" + " WindowsRuntime]" + " | Out-Null\n"
  }

  const MANAGER := NOTIFICATION + "Manager"
  const NOTIFICATION := UI + ".Toast" + "Notification"
  const DOCUMENT := DOM + ".XmlDocument"

  const SCRIPT_HEAD := "\n" + Load(MANAGER, UI) + Load(NOTIFICATION, UI) + Load(DOCUMENT, DOCUMENT) + "\n$template = "
  const SHOW_LINES := "\n\n$xml = " + "New-Object " + DOCUMENT + "\n$xml.LoadXml(" + "$template)\n"
    + "$toast = " + "New-Object " + NOTIFICATION + " $xml\n[" + MANAGER + "]::" + "CreateToastNotifier("
  const APP_ID := "SerialGateway." + "Notifier"

  const OPENING := "@'\n"
  const CLOSING := "\n'@"

  /** powershellScript: the XML sits in a verbatim here-string. */
  function PowershellScript(xml: string): string {
    SCRIPT_HEAD + OPENING + xml + CLOSING + (SHOW_LINES + "'" + APP_ID + "'" + ").Show($toast)\n")
  }

  function Argument(title: string, content: string, duration: string): string {
    Base64.Encode(LittleEndian(Truncated(PowershellScript(ToastXml(title, content, duration)))))
  }

  /** The whole of showImpl up to running the command. */
  method EncodedCommand(title: string, content: string, duration: string) returns (encoded: string)
    requires duration == "short" || duration == "long"
    ensures encoded == Argument(title, content, duration)
    ensures ReceivedTexts(encoded) == Some((title, content)) && ReceivedDuration(encoded) == Some(duration)
  {
    var t := XmlEscapeText(title);
    var c := XmlEscapeText(content);
    var xml := Render(ToastElements(t, c, duration));
    var script := PowershellScript(xml);
    encoded := EncodeUtf16LeBase64(script);
    TextsArrive(title, content, duration);
    DurationArrives(title, content, duration);
  }

  /** The first position of `pat`, or -1. */
  function FindSub(s: string, pat: string): (i: int)
    ensures i == -1 || 0 <= i <= |s| - |pat|
  {
    if |s| < |pat| then -1
    else if s[..|pat|] == pat then 0
    else if s == "" then -1
    else
      var j := FindSub(s[1..], pat);
      if j < 0 then -1 else j + 1
  }

  /** The body of the first verbatim here-string of a script. */
  function HereString(script: string): Option<string> {
    var i := FindSub(script, OPENING);
    if i < 0 then None
    else
      var body := script[i + 3..];
      var j := FindSub(body, CLOSING);
      if j < 0 then None else Some(body[..j])
  }

  /** Tags and the character data between them. */
  function Parse(doc: string): Option<seq<Element>>
    decreases |doc|
  {
    if doc == "" then Some([])
    else if doc[0] != '<' then None
    else
      var i := IndexByte(doc, '>');
      if i < 0 then None
      else
        var after := doc[i + 1..];
        var j := IndexByte(after, '<');
        var n := if j < 0 then |after| else j;
        match Parse(after[n..])
        case Some(rest) => Some([Element(doc[1..i], after[..n])] + rest)
        case None => None
  }

  function TextOf(es: seq<Element>, tag: string): Option<string> {
    if es == [] then None else if es[0].tag == tag then Some(es[0].text) else TextOf(es[1..], tag)
  }

  /** The two texts of the toast, each read from its element by `read`. */
  function TwoTexts(es: seq<Element>, read: string -> Option<string>): Option<(string, string)> {
    match (TextOf(es, TITLE_TAG), TextOf(es, CONTENT_TAG))
    case (Some(t), Some(c)) =>
      (match (read(t), read(c)) case (Some(title), Some(content)) => Some((title, content)) case _ => None)
    case _ => None
  }

  function ScriptElements(script: string): Option<seq<Element>> {
    match HereString(script)
    case None => None
    case Some(xml) => Parse(xml)
  }

  /** The XML elements that PowerShell gets out of the argument. */
  function ReceivedElements(encoded: string): Option<seq<Element>> {
    match Received(encoded)
    case None => None
    case Some(script) => ScriptElements(script)
  }

  /** The texts with their entities decoded. */
  function ReceivedTexts(encoded: string): Option<(string, string)> {
    match ReceivedElements(encoded)
    case None => None
    case Some(es) => TwoTexts(es, Decoded)
  }

  /** The texts as a conforming XML parser reports them. */
  function ShownTexts(encoded: string): Option<(string, string)> {
    match ReceivedElements(encoded)
    case None => None
    case Some(es) => TwoTexts(es, ParsedText)
  }

  /** The duration attribute of the toast element, which comes first. */
  function DurationOf(es: seq<Element>): Option<string> {
    var before := "toast activationType=\"protocol\" duration=\"";
    if es == [] then None
    else
      var tag := es[0].tag;
      if |before| < |tag| && before <= tag && tag[|tag| - 1] == '"' then Some(tag[|before|..|tag| - 1]) else None
  }

  function ReceivedDuration(encoded: string): Option<string> {
    match ReceivedElements(encoded)
    case None => None
    case Some(es) => DurationOf(es)
  }

  ghost predicate InnerElements(es: seq<Element>) {
    forall k :: 0 <= k < |es| ==> Inner(es[k].tag) && Inner(es[k].text)
  }

  lemma {:induction false} ParseOne(tag: string, text: string, rest: string)
    requires '>' !in tag && '<' !in text && (rest == "" || rest[0] == '<')
    requires Parse(rest).Some?
    ensures Parse("<" + tag + ">" + text + rest) == Some([Element(tag, text)] + Parse(rest).value)
  {
    var doc := "<" + tag + ">" + text + rest;
    assert doc == ("<" + tag) + ['>'] + (text + rest);
    IndexByteOf("<" + tag, '>', text + rest);
    assert doc[1..|tag| + 1] == tag && doc[|tag| + 2..] == text + rest;
    if rest == "" {
      assert text + rest == text;
      IndexByteFinds(text, '<');
      assert text[|text|..] == "" && text[..|text|] == text;
    } else {
      assert text + rest == text + ['<'] + rest[1..];
      IndexByteOf(text, '<', rest[1..]);
      assert (text + rest)[|text|..] == rest && (text + rest)[..|text|] == text;
    }
  }

  lemma {:induction false} ParseFirst(e: Element, rest: string)
    requires '>' !in e.tag && '<' !in e.text && (rest == "" || rest[0] == '<')
    requires Parse(rest).Some?
    ensures Parse(Rendered(e) + rest) == Some([e] + Parse(rest).value)
  {
    ParseOne(e.tag, e.text, rest);
    assert Rendered(e) + rest == "<" + e.tag + ">" + e.text + rest;
  }

  /** Elements that a reader can tell apart. */
  ghost predicate Separable(es: seq<Element>) {
    es == [] || ('>' !in es[0].tag && '<' !in es[0].text && Separable(es[1..]))
  }

  lemma {:induction false} InnerSeparable(es: seq<Element>)
    requires InnerElements(es)
    ensures Separable(es)
  {
    if es != [] {
      assert InnerElements(es[1..]);
      InnerSeparable(es[1..]);
    }
  }

  lemma {:induction false} ParseRender(es: seq<Element>)
    requires Separable(es)
    ensures Parse(Render(es)) == Some(es)
  {
    if es != [] {
      ParseRender(es[1..]);
      ParseFirst(es[0], Render(es[1..]));
      assert es == [es[0]] + es[1..];
    }
  }

  ghost predicate NoQuote(s: string) { forall k :: 0 <= k < |s| ==> s[k] as int < 128 && s[k] != '\'' }

  lemma {:induction false} NoQuoteConcat(a: string, b: string)
    requires NoQuote(a) && NoQuote(b)
    ensures NoQuote(a + b)
  {
  }

  /** The XML is ASCII and cannot end the here-string early: it holds no apostrophe at all. */
  lemma {:induction false} RenderNoQuote(es: seq<Element>)
    requires InnerElements(es)
    ensures NoQuote(Render(es))
  {
    if es != [] {
      assert InnerElements(es[1..]);
      RenderNoQuote(es[1..]);
      assert forall k :: 0 <= k < |es[0].tag| ==> InnerChar(es[0].tag[k]);
      assert forall k :: 0 <= k < |es[0].text| ==> InnerChar(es[0].text[k]);
      assert NoQuote(Rendered(es[0]));
      NoQuoteConcat(Rendered(es[0]), Render(es[1..]));
    }
  }

  /** A three-character delimiter around an apostrophe is first found right after text without apostrophes. */
  lemma {:induction false} FindAfter(x: string, pat: string, rest: string)
    requires NoQuote(x) && |pat| == 3 && pat[1] == '\'' && pat[0] != '\''
    ensures FindSub(x + pat + rest, pat) == |x|
  {
    var s := x + pat + rest;
    if x == "" {
      assert s[..3] == pat;
    } else {
      assert s[..3][1] == s[1];
      assert s[1] == if |x| == 1 then pat[0] else x[1];
      assert s[1..] == x[1..] + pat + rest;
      FindAfter(x[1..], pat, rest);
    }
  }

  lemma {:induction false} HereStringOf(head: string, xml: string, tail: string)
    requires NoQuote(head) && NoQuote(xml)
    ensures HereString(head + OPENING + xml + CLOSING + tail) == Some(xml)
  {
    var s := head + OPENING + xml + CLOSING + tail;
    var body := xml + CLOSING + tail;
    assert s == head + OPENING + body;
    FindAfter(head, OPENING, body);
    assert s[|head| + 3..] == body;
    FindAfter(xml, CLOSING, tail);
    assert body[..|xml|] == xml;
  }

  lemma {:induction false} ToastTagInner()
    ensures Inner(TOAST_TAG)
  {
    InnerConcat("toast activationType=", "\"protocol\" duration=\"");
  }

  lemma {:induction false} BindingTagInner()
    ensures Inner(BINDING_TAG)
  {
    InnerConcat("binding template=", "\"ToastGeneric\"");
  }

  lemma {:induction false} AudioTagInner()
    ensures Inner(AUDIO_TAG)
  {
    InnerConcat("audio src=\"ms-", "winsoundevent:");
    InnerConcat("audio src=\"ms-" + "winsoundevent:", "Notification.");
    InnerConcat("audio src=\"ms-" + "winsoundevent:" + "Notification.", "Default\" loop=");
    InnerConcat("audio src=\"ms-" + "winsoundevent:" + "Notification." + "Default\" loop=", "\"false\"/");
  }

  lemma {:induction false} InnerElementsConcat(a: seq<Element>, b: seq<Element>)
    requires InnerElements(a) && InnerElements(b)
    ensures InnerElements(a + b)
  {
  }

  lemma {:induction false} OpeningElementsInner(duration: string)
    requires duration == "short" || duration == "long"
    ensures InnerElements(OpeningElements(duration))
  {
    ToastTagInner();
    BindingTagInner();
    InnerConcat(TOAST_TAG, duration);
    InnerConcat(TOAST_TAG + duration, "\"");
    assert Inner("visual") && Inner("\n            ");
  }

  lemma {:induction false} ClosingElementsInner()
    ensures InnerElements(CLOSING_ELEMENTS)
  {
    AudioTagInner();
    assert Inner("/binding") && Inner("/visual") && Inner("/toast");
  }

  lemma {:induction false} ElementsInner(title: string, content: string, duration: string)
    requires Inner(title) && Inner(content) && (duration == "short" || duration == "long")
    ensures InnerElements(ToastElements(title, content, duration))
  {
    OpeningElementsInner(duration);
    ClosingElementsInner();
    var t, c := TextElement(TITLE_TAG, title, "\n            "), TextElement(CONTENT_TAG, content, "\n        ");
    InnerElementsConcat(c, CLOSING_ELEMENTS);
    InnerElementsConcat(t, c + CLOSING_ELEMENTS);
    InnerElementsConcat(OpeningElements(duration), t + (c + CLOSING_ELEMENTS));
  }

  lemma {:induction false} TextOfSkip(e: Element, es: seq<Element>, tag: string)
    ensures TextOf([e] + es, tag) == if e.tag == tag then Some(e.text) else TextOf(es, tag)
  {
    assert ([e] + es)[1..] == es;
  }

  /** The reader finds each text under its own tag. */
  lemma {:induction false} TextsFound(title: string, content: string, duration: string)
    ensures TextOf(ToastElements(title, content, duration), TITLE_TAG) == Some(title)
    ensures TextOf(ToastElements(title, content, duration), CONTENT_TAG) == Some(content)
  {
    var t, c := TextElement(TITLE_TAG, title, "\n            "), TextElement(CONTENT_TAG, content, "\n        ");
    assert c + CLOSING_ELEMENTS == [c[0]] + ([c[1]] + CLOSING_ELEMENTS);
    TextOfSkip(c[0], [c[1]] + CLOSING_ELEMENTS, CONTENT_TAG);
    var es := t + (c + CLOSING_ELEMENTS);
    assert es == [t[0]] + ([t[1]] + (c + CLOSING_ELEMENTS));
    TextOfSkip(t[0], [t[1]] + (c + CLOSING_ELEMENTS), TITLE_TAG);
    TextOfSkip(t[0], [t[1]] + (c + CLOSING_ELEMENTS), CONTENT_TAG);
    TextOfSkip(t[1], c + CLOSING_ELEMENTS, CONTENT_TAG);
    SkipOpening(duration, es, TITLE_TAG);
    SkipOpening(duration, es, CONTENT_TAG);
  }

  lemma {:induction false} SkipOpening(duration: string, es: seq<Element>, tag: string)
    requires tag == TITLE_TAG || tag == CONTENT_TAG
    ensures TextOf(OpeningElements(duration) + es, tag) == TextOf(es, tag)
  {
    var o := OpeningElements(duration);
    assert o + es == [o[0]] + ([o[1]] + ([o[2]] + es));
    TextOfSkip(o[0], [o[1]] + ([o[2]] + es), tag);
    TextOfSkip(o[1], [o[2]] + es, tag);
    TextOfSkip(o[2], es, tag);
    assert "visual"[0] == 'v';
  }

  ghost predicate Ascii(s: string) { forall k :: 0 <= k < |s| ==> s[k] as int < 128 }

  lemma {:induction false} AsciiConcat(a: string, b: string)
    requires Ascii(a) && Ascii(b)
    ensures Ascii(a + b)
  {
  }

  lemma {:induction false} LoadNoQuote(name: string, from: string)
    requires NoQuote(name) && NoQuote(from)
    ensures NoQuote(Load(name, from))
  {
    NoQuoteConcat("[" + name + ", " + from, ", ContentType =");
    NoQuoteConcat("[" + name + ", " + from + ", ContentType =", " WindowsRuntime]");
    NoQuoteConcat("[" + name + ", " + from + ", ContentType =" + " WindowsRuntime]", " | Out-Null\n");
  }

  lemma {:induction false} NamesNoQuote()
    ensures NoQuote(UI) && NoQuote(DOM) && NoQuote(MANAGER) && NoQuote(NOTIFICATION) && NoQuote(DOCUMENT)
  {
    NoQuoteConcat("Windows.", "UI.Notifications");
    NoQuoteConcat("Windows.", "Data.Xml.Dom");
    NoQuoteConcat(UI, ".Toast");
    NoQuoteConcat(UI + ".Toast", "Notification");
    NoQuoteConcat(NOTIFICATION, "Manager");
    NoQuoteConcat(DOM, ".XmlDocument");
  }

  lemma {:induction false} HeadNoQuote()
    ensures NoQuote(SCRIPT_HEAD)
  {
    NamesNoQuote();
    LoadNoQuote(MANAGER, UI);
    LoadNoQuote(NOTIFICATION, UI);
    LoadNoQuote(DOCUMENT, DOCUMENT);
    NoQuoteConcat("\n", Load(MANAGER, UI));
    NoQuoteConcat("\n" + Load(MANAGER, UI), Load(NOTIFICATION, UI));
    NoQuoteConcat("\n" + Load(MANAGER, UI) + Load(NOTIFICATION, UI), Load(DOCUMENT, DOCUMENT));
    NoQuoteConcat("\n" + Load(MANAGER, UI) + Load(NOTIFICATION, UI) + Load(DOCUMENT, DOCUMENT), "\n$template = ");
  }

  lemma {:induction false} ShowLinesNoQuote()
    ensures NoQuote(SHOW_LINES)
  {
    NamesNoQuote();
    var a := "\n\n$xml = " + "New-Object " + DOCUMENT;
    NoQuoteConcat("\n\n$xml = ", "New-Object ");
    NoQuoteConcat("\n\n$xml = " + "New-Object ", DOCUMENT);
    NoQuoteConcat(a, "\n$xml.LoadXml(");
    NoQuoteConcat(a + "\n$xml.LoadXml(", "$template)\n");
    var b := a + "\n$xml.LoadXml(" + "$template)\n";
    NoQuoteConcat(b, "$toast = ");
    NoQuoteConcat(b + "$toast = ", "New-Object ");
    NoQuoteConcat(b + "$toast = " + "New-Object ", NOTIFICATION);
    var c := b + "$toast = " + "New-Object " + NOTIFICATION;
    NoQuoteConcat(c, " $xml\n[");
    NoQuoteConcat(c + " $xml\n[", MANAGER);
    NoQuoteConcat(c + " $xml\n[" + MANAGER, "]::");
    NoQuoteConcat(c + " $xml\n[" + MANAGER + "]::", "CreateToastNotifier(");
  }

  lemma {:induction false} TailAscii()
    ensures Ascii(SHOW_LINES + "'" + APP_ID + "'" + ").Show($toast)\n")
  {
    ShowLinesNoQuote();
    AsciiConcat(SHOW_LINES, "'");
    AsciiConcat("SerialGateway.", "Notifier");
    AsciiConcat(SHOW_LINES + "'", APP_ID);
    AsciiConcat(SHOW_LINES + "'" + APP_ID, "'");
    AsciiConcat(SHOW_LINES + "'" + APP_ID + "'", ").Show($toast)\n");
  }

  /** The whole script is ASCII as soon as the XML is, so the uint16 truncation loses nothing. */
  lemma {:induction false} ScriptAscii(xml: string)
    requires Ascii(xml)
    ensures Ascii(PowershellScript(xml))
  {
    HeadNoQuote();
    TailAscii();
    AsciiConcat(SCRIPT_HEAD, OPENING);
    AsciiConcat(SCRIPT_HEAD + OPENING, xml);
    AsciiConcat(SCRIPT_HEAD + OPENING + xml, CLOSING);
    AsciiConcat(SCRIPT_HEAD + OPENING + xml + CLOSING, SHOW_LINES + "'" + APP_ID + "'" + ").Show($toast)\n");
  }

  lemma {:induction false} AsciiNarrow(s: string)
    requires Ascii(s)
    ensures Wide(s) == 0
  {
    if s != "" { AsciiNarrow(s[1..]); }
  }

  /** The XML a here-string carries: ASCII, free of apostrophes, and read back element by element. */
  lemma {:induction false} ToastXmlReads(title: string, content: string, duration: string)
    requires duration == "short" || duration == "long"
    ensures var xml := ToastXml(title, content, duration);
            NoQuote(xml) && Parse(xml) == Some(ToastElements(Escaped(title), Escaped(content), duration))
  {
    EscapedIsSafe(title);
    EscapedIsSafe(content);
    ElementsInner(Escaped(title), Escaped(content), duration);
    var es := ToastElements(Escaped(title), Escaped(content), duration);
    RenderNoQuote(es);
    InnerSeparable(es);
    ParseRender(es);
  }

  /** The receiver of the argument gets the script exactly. */
  lemma {:induction false} ScriptArrives(title: string, content: string, duration: string)
    requires duration == "short" || duration == "long"
    ensures var script := PowershellScript(ToastXml(title, content, duration));
            Ascii(script) && Received(Argument(title, content, duration)) == Some(script)
  {
    ToastXmlReads(title, content, duration);
    var script := PowershellScript(ToastXml(title, content, duration));
    ScriptAscii(ToastXml(title, content, duration));
    AsciiNarrow(script);
    ReceivedIff(script, Argument(title, content, duration));
  }

  /** The here-string ends where the template ends, whatever the texts are. */
  lemma {:induction false} XmlArrives(xml: string)
    requires NoQuote(xml)
    ensures HereString(PowershellScript(xml)) == Some(xml)
  {
    HeadNoQuote();
    HereStringOf(SCRIPT_HEAD, xml, SHOW_LINES + "'" + APP_ID + "'" + ").Show($toast)\n");
  }

  /** Base64, UTF-16, here-string and tags undone, the receiver has the elements of the template with the two escaped
      texts in them. */
  lemma {:induction false} ElementsArrive(title: string, content: string, duration: string)
    requires duration == "short" || duration == "long"
    ensures ReceivedElements(Argument(title, content, duration))
            == Some(ToastElements(Escaped(title), Escaped(content), duration))
  {
    ToastXmlReads(title, content, duration);
    XmlArrives(ToastXml(title, content, duration));
    ScriptArrives(title, content, duration);
  }

  /** The two escaped texts stand under their tags. */
  ghost predicate Carries(es: seq<Element>, title: string, content: string) {
    TextOf(es, TITLE_TAG) == Some(Escaped(title)) && TextOf(es, CONTENT_TAG) == Some(Escaped(content))
  }

  lemma {:induction false} ArgumentCarries(title: string, content: string, duration: string) returns (es: seq<Element>)
    requires duration == "short" || duration == "long"
    ensures ReceivedElements(Argument(title, content, duration)) == Some(es) && Carries(es, title, content)
  {
    es := ToastElements(Escaped(title), Escaped(content), duration);
    ElementsArrive(title, content, duration);
    TextsFound(Escaped(title), Escaped(content), duration);
  }

  lemma {:induction false} CarriedTexts(es: seq<Element>, title: string, content: string)
    requires Carries(es, title, content)
    ensures TwoTexts(es, Decoded) == Some((title, content))
  {
    DecodedEscaped(title);
    DecodedEscaped(content);
  }

  lemma {:induction false} CarriedShownIff(es: seq<Element>, title: string, content: string)
    requires Carries(es, title, content)
    ensures TwoTexts(es, ParsedText) == Some((title, content))
            <==> AllXmlChars(title) && AllXmlChars(content) && CR !in title && CR !in content
  {
    ParsedIff(title);
    ParsedIff(content);
  }

  /** End to end, for every title and content over all Unicode scalar values: with the entities decoded, the two texts
      come out as they went in. */
  lemma {:induction false} TextsArrive(title: string, content: string, duration: string)
    requires duration == "short" || duration == "long"
    ensures ReceivedTexts(Argument(title, content, duration)) == Some((title, content))
  {
    var es := ArgumentCarries(title, content, duration);
    CarriedTexts(es, title, content);
  }

  lemma {:induction false} DurationFound(title: string, content: string, duration: string)
    ensures DurationOf(ToastElements(title, content, duration)) == Some(duration)
  {
    var before := "toast activationType=\"protocol\" duration=\"";
    assert TOAST_TAG == before;
    var tag := before + duration + "\"";
    assert ToastElements(title, content, duration)[0] == Element(tag, "\n    ");
    assert tag[|before|..|tag| - 1] == duration;
  }

  /** The toast is shown for as long as was asked. */
  lemma {:induction false} DurationArrives(title: string, content: string, duration: string)
    requires duration == "short" || duration == "long"
    ensures ReceivedDuration(Argument(title, content, duration)) == Some(duration)
  {
    ElementsArrive(title, content, duration);
    DurationFound(Escaped(title), Escaped(content), duration);
  }

  /** A conforming XML parser also rewrites line ends and rejects characters XML does not allow, so what is shown is what
      was given exactly when both texts consist of XML characters other than the carriage return. */
  lemma {:induction false} TextsShownIff(title: string, content: string, duration: string)
    requires duration == "short" || duration == "long"
    ensures ShownTexts(Argument(title, content, duration)) == Some((title, content))
            <==> AllXmlChars(title) && AllXmlChars(content) && CR !in title && CR !in content
  {
    var es := ArgumentCarries(title, content, duration);
    CarriedShownIff(es, title, content);
  }
}
