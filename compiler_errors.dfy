/** `compilerErrorToString` of compiler.ts: the message `compile` throws
    in place of a failure of the running compiler. */
module CompilerErrors {
  import opened Bags
  import opened JsValues
  import opened Text

  /** The opening of the generic message, the text the tests look for at its start. */
  const GenericOpening := "Exception thrown when " + "attempting to run Elm compiler"
  const GenericPrefix := GenericOpening + " "

  /** `JSON.stringify(pathToElm)`: a string path is quoted, and a path
      that needs no escaping appears as it is between the quotes. The path
      is a string by its declared type; any other value is shown as `String`
      shows it. */
  function StringifyPath(pathToElm: JsValue): (r: string)
    ensures pathToElm.Str? ==> |r| >= 2 && r[0] == '"' && r[|r| - 1] == '"'
    ensures pathToElm.Str? && Plain(pathToElm.s) ==> r == "\"" + pathToElm.s + "\""
  {
    if pathToElm.Str? then
      if Plain(pathToElm.s) then QuotePlain(pathToElm.s); Quote(pathToElm.s)
      else Quote(pathToElm.s)
    else JsToString(pathToElm)
  }

  function GenericMessage(pathToElm: JsValue): (r: string)
    ensures StartsWith(r, GenericPrefix)
  {
    GenericPrefix + StringifyPath(pathToElm)
  }

  /** `compilerErrorToString(err, pathToElm)`: the message for each class of
      thrown value. A null `err` passes the `typeof err === "object"` test
      and then throws reading `err.code`. */
  function CompilerErrorToString(err: JsValue, pathToElm: JsValue): (r: Completion<string>)
    ensures r.Throws? <==> err.Null?
    ensures !err.Null? && Classify(err) == BinaryNotFound ==>
              r == Normal(NotFoundOpening + JsToString(pathToElm) + NotFoundClosing)
    ensures !err.Null? && Classify(err) == PermissionDenied ==>
              r == Normal(DeniedOpening + JsToString(pathToElm) + DeniedClosing)
    ensures !err.Null? && Classify(err) == OtherCode ==>
              r == Normal(OtherOpening + JsToString(pathToElm) + OtherClosing + JsToString(err))
    ensures !err.Null? && Classify(err) == Described ==>
              r == Normal(Quote(Property(err, "message").value.s))
    ensures !err.Null? && Classify(err) == Unexplained ==> r == Normal(GenericMessage(pathToElm))
  {
    if TypeOf(err) == "object" then
      match Property(err, "code")
      case Throws(e) => Throws(e)
      case Normal(code) =>
        if code.Str? then
          var p := JsToString(pathToElm);
          if code.s == "ENOENT" then
            Normal(NotFoundOpening + p + NotFoundClosing)
          else if code.s == "EACCES" then
            Normal(DeniedOpening + p + DeniedClosing)
          else
            Normal(OtherOpening + p + OtherClosing + JsToString(err))
        else
          var message := Property(err, "message").value;
          if message.Str? then Normal(Quote(message.s)) else Normal(GenericMessage(pathToElm))
    else
      Normal(GenericMessage(pathToElm))
  }

  /** The failure classes the wrapper tells apart. */
  datatype ErrorClass = BinaryNotFound | PermissionDenied | OtherCode | Described | Unexplained

  /** The class of a thrown value that is not null: a string `code` decides
      first, then a string `message`; anything else is unexplained. */
  function Classify(err: JsValue): ErrorClass
    requires !err.Null?
  {
    var code := if TypeOf(err) == "object" then Property(err, "code").value else Undefined;
    var message := if TypeOf(err) == "object" then Property(err, "message").value else Undefined;
    if code == Str("ENOENT") then BinaryNotFound
    else if code == Str("EACCES") then PermissionDenied
    else if code.Str? then OtherCode
    else if message.Str? then Described
    else Unexplained
  }

  const NotFoundOpening := "Could not find Elm compiler \""
  const NotFoundClosing := "\". Is it installed?"
  const DeniedOpening := "Elm compiler "
  const DeniedClosing := "\" did not have permission to run. Do you need to give it executable permissions?"
  const OtherOpening := "Error attempting to run Elm compiler \""
  const OtherClosing := "\":\n"

  /** The class a message announces, read from its opening words. */
  function ClassOfMessage(msg: string): ErrorClass {
    if StartsWith(msg, NotFoundOpening) then BinaryNotFound
    else if StartsWith(msg, DeniedOpening) then PermissionDenied
    else if StartsWith(msg, OtherOpening) then OtherCode
    else if StartsWith(msg, "\"") then Described
    else Unexplained
  }

  lemma PrefixChar(s: string, p: string, k: nat)
    requires StartsWith(s, p) && k < |p|
    ensures s[k] == p[k]
  {
    assert s[..|p|][k] == s[k];
  }

  lemma NotPrefix(s: string, p: string, k: nat)
    requires k < |p| && k < |s| && s[k] != p[k]
    ensures !StartsWith(s, p)
  {
    if |p| <= |s| { assert s[..|p|][k] == s[k]; }
  }

  /** The first characters that tell the openings apart. */
  lemma NotFoundChars()
    ensures |NotFoundOpening| > 1 && NotFoundOpening[0] == 'C'
  {
  }

  lemma DeniedChars()
    ensures |DeniedOpening| > 1 && DeniedOpening[0] == 'E' && DeniedOpening[1] == 'l'
  {
  }

  lemma OtherChars()
    ensures |OtherOpening| > 1 && OtherOpening[0] == 'E' && OtherOpening[1] == 'r'
  {
  }

  lemma GenericChars()
    ensures |GenericPrefix| > 1 && GenericPrefix[0] == 'E' && GenericPrefix[1] == 'x'
  {
    assert GenericPrefix == "Exception thrown when " + ("attempting to run Elm compiler" + " ");
  }

  lemma NotFoundClass(p: string)
    ensures ClassOfMessage(NotFoundOpening + p + NotFoundClosing) == BinaryNotFound
  {
    assert NotFoundOpening + p + NotFoundClosing == NotFoundOpening + (p + NotFoundClosing);
    PrefixOfConcat(NotFoundOpening, p + NotFoundClosing, NotFoundOpening);
  }

  lemma DeniedClass(p: string)
    ensures ClassOfMessage(DeniedOpening + p + DeniedClosing) == PermissionDenied
  {
    var msg := DeniedOpening + p + DeniedClosing;
    assert msg == DeniedOpening + (p + DeniedClosing);
    PrefixOfConcat(DeniedOpening, p + DeniedClosing, DeniedOpening);
    DeniedChars();
    NotFoundChars();
    PrefixChar(msg, DeniedOpening, 0);
    NotPrefix(msg, NotFoundOpening, 0);
  }

  lemma OtherClass(p: string, detail: string)
    ensures ClassOfMessage(OtherOpening + p + OtherClosing + detail) == OtherCode
  {
    var msg := OtherOpening + p + OtherClosing + detail;
    assert msg == OtherOpening + (p + OtherClosing + detail);
    PrefixOfConcat(OtherOpening, p + OtherClosing + detail, OtherOpening);
    OtherChars();
    NotFoundChars();
    DeniedChars();
    PrefixChar(msg, OtherOpening, 0);
    PrefixChar(msg, OtherOpening, 1);
    NotPrefix(msg, NotFoundOpening, 0);
    NotPrefix(msg, DeniedOpening, 1);
  }

  lemma DescribedClass(message: string)
    ensures ClassOfMessage(Quote(message)) == Described
  {
    var msg := Quote(message);
    NotFoundChars();
    DeniedChars();
    OtherChars();
    NotPrefix(msg, NotFoundOpening, 0);
    NotPrefix(msg, DeniedOpening, 0);
    NotPrefix(msg, OtherOpening, 0);
  }

  lemma GenericClass(pathToElm: JsValue)
    ensures ClassOfMessage(GenericMessage(pathToElm)) == Unexplained
  {
    var msg := GenericMessage(pathToElm);
    GenericChars();
    NotFoundChars();
    DeniedChars();
    OtherChars();
    PrefixChar(msg, GenericPrefix, 0);
    PrefixChar(msg, GenericPrefix, 1);
    NotPrefix(msg, NotFoundOpening, 0);
    NotPrefix(msg, DeniedOpening, 1);
    NotPrefix(msg, OtherOpening, 1);
    NotPrefix(msg, "\"", 0);
  }

  /** Each message announces its own class: the four message shapes (and
      the quoted description) cannot be mistaken for one another. */
  lemma MessageDeterminesClass(err: JsValue, pathToElm: JsValue)
    requires !err.Null?
    ensures ClassOfMessage(CompilerErrorToString(err, pathToElm).value) == Classify(err)
  {
    var p := JsToString(pathToElm);
    match Classify(err)
    case BinaryNotFound => NotFoundClass(p);
    case PermissionDenied => DeniedClass(p);
    case OtherCode => OtherClass(p, JsToString(err));
    case Described => DescribedClass(Property(err, "message").value.s);
    case Unexplained => GenericClass(pathToElm);
  }

  /** The messages that report a string `code` name the configured binary. */
  lemma CodedMessagesNamePath(err: JsValue, pathToElm: JsValue)
    requires !err.Null?
    requires Classify(err) in {BinaryNotFound, PermissionDenied, OtherCode}
    ensures Contains(CompilerErrorToString(err, pathToElm).value, JsToString(pathToElm))
  {
    var p := JsToString(pathToElm);
    match Classify(err)
    case BinaryNotFound => NamesPart(NotFoundOpening, p, NotFoundClosing);
    case PermissionDenied => NamesPart(DeniedOpening, p, DeniedClosing);
    case OtherCode => NamesPartBefore(OtherOpening, p, OtherClosing, JsToString(err));
  }

  lemma NamesPart(a: string, p: string, b: string)
    ensures Contains(a + p + b, p)
  {
    OccursBetween(a, p, b);
  }

  lemma NamesPartBefore(a: string, p: string, b: string, d: string)
    ensures Contains(a + p + b + d, p)
  {
    NamesPart(a, p, b + d);
    assert a + p + (b + d) == a + p + b + d;
  }

  /** `compile` throws `{ code }` with a numeric code on a nonzero exit: that
      always gives the generic message, which starts as the tests expect. */
  lemma ExitCodeGivesGenericMessage(code: int, pathToElm: JsValue)
    ensures CompilerErrorToString(Obj([("code", Num(code))]), pathToElm) == Normal(GenericMessage(pathToElm))
    ensures StartsWith(GenericMessage(pathToElm), GenericOpening)
  {
    var err := Obj([("code", Num(code))]);
    assert Property(err, "code") == Normal(Num(code));
    assert Property(err, "message") == Normal(Undefined);
    GenericMessageOpening(pathToElm);
  }

  lemma GenericMessageOpening(pathToElm: JsValue)
    ensures StartsWith(GenericMessage(pathToElm), GenericOpening)
  {
    OpeningOfConcat(GenericOpening, " ", StringifyPath(pathToElm));
  }

  /** With the default binary name the generic message ends in the quoted name. */
  lemma DefaultGenericMessage()
    ensures GenericMessage(Str("elm")) == GenericOpening + " \"elm\""
  {
    assert StringifyPath(Str("elm")) == "\"elm\"" by { QuotePlain("elm"); }
  }
}
