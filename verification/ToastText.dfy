/** The text of the two templates, as it is sent: internal/notify/toast.go:53-82. */
module ToastText {
  import opened Options
  import opened Bytes
  import opened XmlText
  import opened Toast

  function TagsOf(es: seq<Element>): (tags: seq<string>)
    ensures |tags| == |es|
  {
    if es == [] then [] else [es[0].tag] + TagsOf(es[1..])
  }

  lemma {:induction false} TagsConcat(a: seq<Element>, b: seq<Element>)
    ensures TagsOf(a + b) == TagsOf(a) + TagsOf(b)
  {
    if a == [] {
      assert a + b == b;
    } else {
      assert (a + b)[1..] == a[1..] + b;
      TagsConcat(a[1..], b);
    }
  }

  lemma {:induction false} TagsTwo(a: Element, b: Element)
    ensures TagsOf([a, b]) == [a.tag, b.tag]
  {
    assert [a, b][1..] == [b] && [b][1..] == [];
  }

  lemma {:induction false} AudioSource()
    ensures "audio src=\"ms-" + "winsoundevent:" + "Notification." == "audio src=\"ms-winsoundevent:Notification."
  {
    assert "audio src=\"ms-" + "winsoundevent:" == "audio src=\"ms-winsoundevent:";
  }

  lemma {:induction false} AudioTagIs()
    ensures AUDIO_TAG == "audio src=\"ms-winsoundevent:Notification." + "Default\" loop=\"false\"/"
  {
    AudioSource();
    assert "Default\" loop=" + "\"false\"/" == "Default\" loop=\"false\"/";
    Assoc("audio src=\"ms-winsoundevent:Notification.", "Default\" loop=", "\"false\"/");
  }

  function OpeningTags(duration: string): seq<string> {
    ["toast activationType=\"protocol\" duration=\"" + duration + "\"", "visual", "binding template=\"ToastGeneric\""]
  }

  const TEXT_TAGS := ["text id=\"1\"", "/text", "text id=\"2\"", "/text"]
  const CLOSING_TAGS :=
    ["/binding", "/visual", "audio src=\"ms-winsoundevent:Notification." + "Default\" loop=\"false\"/", "/toast"]

  lemma {:induction false} ToastTagIs()
    ensures TOAST_TAG == "toast activationType=\"protocol\" duration=\""
  {
  }

  lemma {:induction false} BindingTagIs()
    ensures BINDING_TAG == "binding template=\"ToastGeneric\""
  {
  }

  lemma {:induction false} OpeningTagsAre(duration: string)
    ensures TagsOf(OpeningElements(duration)) == OpeningTags(duration)
  {
    var o := OpeningElements(duration);
    ToastTagIs();
    BindingTagIs();
    assert o[1..] == [o[1], o[2]];
    TagsTwo(o[1], o[2]);
  }

  lemma {:induction false} ClosingTagsAre()
    ensures TagsOf(CLOSING_ELEMENTS) == CLOSING_TAGS
  {
    var c := CLOSING_ELEMENTS;
    AudioTagIs();
    assert c == [c[0], c[1]] + [c[2], c[3]];
    TagsConcat([c[0], c[1]], [c[2], c[3]]);
    TagsTwo(c[0], c[1]);
    TagsTwo(c[2], c[3]);
  }

  lemma {:induction false} TextTagsAre(title: string, content: string, a: string, b: string)
    ensures TagsOf(TextElement(TITLE_TAG, title, a) + TextElement(CONTENT_TAG, content, b)) == TEXT_TAGS
  {
    var t, c := TextElement(TITLE_TAG, title, a), TextElement(CONTENT_TAG, content, b);
    TagsConcat(t, c);
    TagsTwo(t[0], t[1]);
    TagsTwo(c[0], c[1]);
  }

  lemma {:induction false} ToastTagsAre(title: string, content: string, duration: string)
    ensures TagsOf(ToastElements(title, content, duration)) == OpeningTags(duration) + (TEXT_TAGS + CLOSING_TAGS)
  {
    var o := OpeningElements(duration);
    var t, c := TextElement(TITLE_TAG, title, "\n            "), TextElement(CONTENT_TAG, content, "\n        ");
    OpeningTagsAre(duration);
    TextTagsAre(title, content, "\n            ", "\n        ");
    ClosingTagsAre();
    TagsConcat(t + c, CLOSING_ELEMENTS);
    Assoc(t, c, CLOSING_ELEMENTS);
    TagsConcat(o, t + (c + CLOSING_ELEMENTS));
  }

  ghost predicate White(s: string) { forall k :: 0 <= k < |s| ==> s[k] == ' ' || s[k] == '\n' }

  /** Outside the two text elements there is only white space between the tags. */
  ghost predicate WhiteGaps(es: seq<Element>) {
    forall k :: 0 <= k < |es| ==> es[k].tag == TITLE_TAG || es[k].tag == CONTENT_TAG || White(es[k].text)
  }

  lemma {:induction false} WhiteGapsConcat(a: seq<Element>, b: seq<Element>)
    requires WhiteGaps(a) && WhiteGaps(b)
    ensures WhiteGaps(a + b)
  {
  }

  lemma {:induction false} TextGap(tag: string, text: string, gap: string)
    requires White(gap) && (tag == TITLE_TAG || tag == CONTENT_TAG)
    ensures WhiteGaps(TextElement(tag, text, gap))
  {
  }

  /** Elements with nothing but white space after their tags. */
  ghost predicate AllWhite(es: seq<Element>) { forall k :: 0 <= k < |es| ==> White(es[k].text) }

  lemma {:induction false} AllWhiteGaps(es: seq<Element>)
    requires AllWhite(es)
    ensures WhiteGaps(es)
  {
  }

  lemma {:induction false} OpeningGaps(duration: string)
    ensures AllWhite(OpeningElements(duration))
  {
  }

  lemma {:induction false} ClosingGaps()
    ensures AllWhite(CLOSING_ELEMENTS)
  {
  }

  lemma {:induction false} GapsAreWhite(title: string, content: string, duration: string)
    ensures WhiteGaps(ToastElements(title, content, duration))
  {
    OpeningGaps(duration);
    ClosingGaps();
    AllWhiteGaps(OpeningElements(duration));
    AllWhiteGaps(CLOSING_ELEMENTS);
    TextGap(TITLE_TAG, title, "\n            ");
    TextGap(CONTENT_TAG, content, "\n        ");
    var t, c := TextElement(TITLE_TAG, title, "\n            "), TextElement(CONTENT_TAG, content, "\n        ");
    WhiteGapsConcat(c, CLOSING_ELEMENTS);
    WhiteGapsConcat(t, c + CLOSING_ELEMENTS);
    WhiteGapsConcat(OpeningElements(duration), t + (c + CLOSING_ELEMENTS));
  }

  /** Whatever the texts, the XML that arrives has the tags of the template, in order: the duration asked for, the two
      texts under their ids, the silent audio. */
  lemma {:induction false} TagsArrive(title: string, content: string, duration: string)
    requires duration == "short" || duration == "long"
    ensures ReceivedElements(Argument(title, content, duration)).Some?
    ensures TagsOf(ReceivedElements(Argument(title, content, duration)).value)
            == OpeningTags(duration) + (TEXT_TAGS + CLOSING_TAGS)
    ensures WhiteGaps(ReceivedElements(Argument(title, content, duration)).value)
  {
    GapsAreWhite(Escaped(title), Escaped(content), duration);
    ElementsArrive(title, content, duration);
    ToastTagsAre(Escaped(title), Escaped(content), duration);
  }

  lemma {:induction false} NotifierNames()
    ensures NOTIFICATION == "Windows.UI.Notifications.ToastNotification"
    ensures APP_ID == "SerialGateway.Notifier" && DOCUMENT == "Windows.Data.Xml.Dom.XmlDocument"
  {
    assert UI == "Windows.UI.Notifications" && DOM == "Windows.Data.Xml.Dom";
  }

  lemma {:induction false} ManagerName()
    ensures UI == "Windows.UI.Notifications"
    ensures MANAGER == "Windows.UI.Notifications.ToastNotificationManager"
  {
    NotifierNames();
  }

  /** A line that loads a type. */
  function LoadLine(name: string, from: string): string {
    "[" + name + ", " + from + ", ContentType = WindowsRuntime] | Out-Null\n"
  }

  lemma {:induction false} LoadIs(name: string, from: string)
    ensures Load(name, from) == LoadLine(name, from)
  {
    assert ", ContentType =" + " WindowsRuntime]" == ", ContentType = WindowsRuntime]";
    assert ", ContentType = WindowsRuntime]" + " | Out-Null\n" == ", ContentType = WindowsRuntime] | Out-Null\n";
    var before := "[" + name + ", " + from;
    Assoc(before, ", ContentType =", " WindowsRuntime]");
    Assoc(before, ", ContentType = WindowsRuntime]", " | Out-Null\n");
  }

  /** The lines after the here-string: parse the template, make a toast of it, show it. */
  function ShowText(document: string, notification: string, manager: string): string {
    "\n\n$xml = New-Object " + document + "\n$xml.LoadXml($template)\n$toast = New-Object "
    + notification + " $xml\n[" + manager + "]::CreateToastNotifier("
  }

  lemma {:induction false} ShowWords()
    ensures "\n\n$xml = " + "New-Object " == "\n\n$xml = New-Object "
    ensures "]::" + "CreateToastNotifier(" == "]::CreateToastNotifier("
    ensures "\n$xml.LoadXml(" + "$template)\n" == "\n$xml.LoadXml($template)\n"
  {
  }

  lemma {:induction false} ToastWords()
    ensures "\n$xml.LoadXml($template)\n" + "$toast = " + "New-Object " == "\n$xml.LoadXml($template)\n$toast = New-Object "
  {
    assert "$toast = " + "New-Object " == "$toast = New-Object ";
    Assoc("\n$xml.LoadXml($template)\n", "$toast = ", "New-Object ");
  }

  lemma {:induction false} ShowIs()
    ensures SHOW_LINES == ShowText(DOCUMENT, NOTIFICATION, MANAGER)
  {
    ShowWords();
    ToastWords();
    var a := "\n\n$xml = New-Object " + DOCUMENT;
    var b := a + "\n$xml.LoadXml($template)\n$toast = New-Object " + NOTIFICATION + " $xml\n[" + MANAGER;
    Assoc(a, "\n$xml.LoadXml(", "$template)\n");
    Assoc(a, "\n$xml.LoadXml($template)\n", "$toast = ");
    Assoc(a, "\n$xml.LoadXml($template)\n" + "$toast = ", "New-Object ");
    Assoc(b, "]::", "CreateToastNotifier(");
  }

  /** The script, for every XML text: load the three types, keep the XML in a here-string, show it under the
      application's name. */
  lemma {:induction false} ScriptIs(xml: string)
    ensures var ui, toast, document := "Windows.UI.Notifications", NOTIFICATION, "Windows.Data.Xml.Dom.XmlDocument";
            var manager := "Windows.UI.Notifications.ToastNotificationManager";
            && toast == "Windows.UI.Notifications.ToastNotification"
            && PowershellScript(xml)
               == "\n" + LoadLine(manager, ui) + LoadLine(toast, ui) + LoadLine(document, document) + "\n$template = "
                  + "@'\n" + xml + "\n'@"
                  + (ShowText(document, toast, manager) + "'" + "SerialGateway.Notifier" + "'" + ").Show($toast)\n")
  {
    NotifierNames();
    ManagerName();
    LoadIs(MANAGER, UI);
    LoadIs(NOTIFICATION, UI);
    LoadIs(DOCUMENT, DOCUMENT);
    ShowIs();
  }
}
