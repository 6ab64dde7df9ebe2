/** The handler registry: the single table of supported languages, and the
    case-insensitive lookup that resolves a language name or rejects it with
    a message naming the supported set. */
module Registry {
  import opened Types
  import opened Text
  import opened Languages

  /** The registered languages, in the table's (insertion) order. */
  const Handlers: seq<(string, Handler)> := [("cpp", CppHandler), ("python", PythonHandler)]

  /** The handler stored under `key`, if any. */
  function Lookup(entries: seq<(string, Handler)>, key: string): (r: Option<Handler>)
    ensures r.Some? ==> exists i :: 0 <= i < |entries| && entries[i] == (key, r.value)
    ensures r.None? <==> forall i :: 0 <= i < |entries| ==> entries[i].0 != key
  {
    if |entries| == 0 then None
    else if entries[0].0 == key then Some(entries[0].1)
    else
      var r := Lookup(entries[1..], key);
      assert forall i :: 1 <= i < |entries| ==> entries[i] == entries[1..][i - 1];
      r
  }

  function Quote(s: string): string
  {
    "'" + s + "'"
  }

  /** The registered names, each quoted, joined by ", ". */
  function SupportedList(): string
  {
    Join(", ", seq(|Handlers|, i requires 0 <= i < |Handlers| => Quote(Handlers[i].0)))
  }

  function UnsupportedMessage(language: string): string
  {
    "Language '" + language + "' is not supported. Supported languages: " + SupportedList()
  }

  /** The message names the rejected language and every registered one. */
  lemma UnsupportedMessageNames(language: string)
    ensures Contains(UnsupportedMessage(language), language)
    ensures forall i :: 0 <= i < |Handlers| ==> Contains(UnsupportedMessage(language), Quote(Handlers[i].0))
  {
    var head := "Language '";
    var tail := "' is not supported. Supported languages: ";
    assert UnsupportedMessage(language) == head + language + tail + SupportedList();
    ContainsSelf(language);
    ContainsRight(head, language, language);
    ContainsLeft(head + language, tail, language);
    ContainsLeft(head + language + tail, SupportedList(), language);
    var quoted := seq(|Handlers|, i requires 0 <= i < |Handlers| => Quote(Handlers[i].0));
    forall i | 0 <= i < |Handlers|
      ensures Contains(UnsupportedMessage(language), Quote(Handlers[i].0))
    {
      JoinContainsEach(", ", quoted, i);
      ContainsRight(head + language + tail, SupportedList(), quoted[i]);
    }
  }

  /** `get_language_handler(language)`: the name is lower-cased, then looked
      up. A registered name yields its handler, whose identifier is that
      lower-cased name; any other name is rejected with the message naming
      the lower-cased name and every registered name, quoted. */
  function GetLanguageHandler(language: string): (r: Result<Handler, string>)
    ensures r.Ok? <==> Lower(language) == "cpp" || Lower(language) == "python"
    ensures r.Ok? ==> r.value.LanguageId() == Lower(language)
    ensures r.Err? ==> r.error == UnsupportedMessage(Lower(language))
    ensures r.Err? ==> Contains(r.error, Lower(language))
    ensures r.Err? ==> forall i :: 0 <= i < |Handlers| ==> Contains(r.error, Quote(Handlers[i].0))
  {
    var key := Lower(language);
    match Lookup(Handlers, key)
    case Some(h) => Ok(h)
    case None => UnsupportedMessageNames(key); Err(UnsupportedMessage(key))
  }

  /** Each handler is stored under its own identifier, and no name is
      registered twice. */
  lemma RegistryKeysAreIdentifiers()
    ensures forall i :: 0 <= i < |Handlers| ==> Handlers[i].1.LanguageId() == Handlers[i].0
    ensures forall i, j :: 0 <= i < j < |Handlers| ==> Handlers[i].0 != Handlers[j].0
  {
  }

  /** Resolution ignores ASCII case: a name and its lower-cased form resolve
      to the same handler or to the same rejection. */
  lemma CaseInsensitive(language: string)
    ensures GetLanguageHandler(language) == GetLanguageHandler(Lower(language))
  {
    LowerIdempotent(language);
  }

  /** The supported set, as the rejection message lists it. */
  lemma SupportedListText()
    ensures SupportedList() == "'cpp', 'python'"
  {
    var quoted := seq(|Handlers|, i requires 0 <= i < |Handlers| => Quote(Handlers[i].0));
    assert Quote("cpp") == "'cpp'";
    assert Quote("python") == "'python'";
    assert quoted == ["'cpp'", "'python'"];
    assert Join(", ", quoted[1..]) == "'python'";
    assert "'cpp'" + ", " + "'python'" == "'cpp', 'python'";
  }

  /** The registered names resolve in lower, upper and mixed case. */
  lemma ResolvesAnyCase()
    ensures GetLanguageHandler("cpp") == Ok(CppHandler)
    ensures GetLanguageHandler("CPP") == Ok(CppHandler)
    ensures GetLanguageHandler("python") == Ok(PythonHandler)
    ensures GetLanguageHandler("Python") == Ok(PythonHandler)
  {
    assert Lower("cpp") == "cpp";
    assert Lower("CPP") == "cpp";
    assert Lower("python") == "python";
    assert Lower("Python") == "python";
  }

  /** An unregistered name is rejected, the message naming it in lower case
      and listing the supported set in table order. */
  lemma RejectsRuby()
    ensures GetLanguageHandler("Ruby") == Err(UnsupportedMessage("ruby"))
    ensures GetLanguageHandler("Ruby") ==
              Err("Language '" + "ruby" + "' is not supported. Supported languages: " + "'cpp', 'python'")
  {
    assert Lower("Ruby") == "ruby";
    assert Lookup(Handlers, "ruby") == None;
    SupportedListText();
  }
}
