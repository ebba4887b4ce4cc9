/** The error taxonomy of hipcall_sdk/exceptions.py: HipcallAPIException and
    its four subclasses, the two fields every one of them stores, and the
    message each renders from `__str__`. */
module Exceptions {
  import opened Wrappers
  import opened Json
  import Decimal

  /** HipcallAPIException is `Generic`; the others are its subclasses. */
  datatype ErrorKind = Generic | BadRequest | Unauthorized | NotFound | Unprocessable

  /** The base class of each class: the four specific classes derive from
      HipcallAPIException, which derives from no API class. */
  function Parent(kind: ErrorKind): (p: Option<ErrorKind>)
    ensures p.Some? ==> Depth(p.value) < Depth(kind)
  {
    if kind == Generic then None else Some(Generic)
  }

  /** How many API classes lie above a class. */
  function Depth(kind: ErrorKind): nat {
    if kind == Generic then 0 else 1
  }

  /** `isinstance(error, cls)`: `cls` is the error's class or one of its
      ancestors along `Parent`. */
  predicate IsInstance(kind: ErrorKind, cls: ErrorKind)
    decreases Depth(kind)
  {
    kind == cls || (Parent(kind).Some? && IsInstance(Parent(kind).value, cls))
  }

  /** Every error is a HipcallAPIException, a specific class catches only
      itself, and no two classes are instances of each other. */
  lemma CatchGenericCatchesAll(kind: ErrorKind, cls: ErrorKind)
    ensures IsInstance(kind, Generic)
    ensures cls != Generic && IsInstance(kind, cls) ==> kind == cls
    ensures IsInstance(kind, cls) && IsInstance(cls, kind) ==> kind == cls
  {
    if kind != Generic {
      assert IsInstance(Generic, Generic);
    }
  }

  /** A raised API error: its class and the two fields `__init__` stores. */
  datatype ApiError = ApiError(kind: ErrorKind, status: int, content: Json)

  /** What `str(error)` can raise instead of returning a message. */
  datatype RenderFailure =
    | MissingKey     // KeyError or TypeError from subscripting the content
    | NotIterable    // TypeError: the value cannot be iterated or unpacked
    | BadUnpack      // ValueError: an item does not unpack into exactly two values
    | NotText        // TypeError from str.join: an item is not a str
    | NotMapping     // AttributeError: `.items()` on something that is not a dict

  const GenericPrefix := "Unexpected error. Status: "
  const GenericInfix := ", Content: #"
  const BadRequestPrefix := "Bad request: "
  const UnauthorizedText := "Invalid API key or unauthorized access"
  const NotFoundText := "The requested resource was not found"
  const UnprocessablePrefix := "The request was unprocessable: Errors: "

  /** `sep.join(parts)`. */
  function Join(sep: string, parts: seq<string>): string
  {
    if |parts| == 0 then ""
    else if |parts| == 1 then parts[0]
    else parts[0] + sep + Join(sep, parts[1..])
  }

  lemma {:induction false} JoinAppend(sep: string, parts: seq<string>, last: string)
    requires |parts| > 0
    ensures Join(sep, parts + [last]) == Join(sep, parts) + sep + last
  {
    if |parts| > 1 {
      assert (parts + [last])[1..] == parts[1..] + [last];
      JoinAppend(sep, parts[1..], last);
    } else {
      assert (parts + [last])[1..] == [last];
    }
  }

  /** One field's part of the unprocessable-entity message:
      `f"{k}: {', '.join(v)} "`, with its trailing space. */
  function EntryText(entry: (string, seq<string>)): string
  {
    entry.0 + ": " + Join(", ", entry.1) + " "
  }

  function EntryTexts(entries: seq<(string, seq<string>)>): (ts: seq<string>)
    ensures |ts| == |entries|
    ensures forall i :: 0 <= i < |entries| ==> ts[i] == EntryText(entries[i])
  {
    seq(|entries|, i requires 0 <= i < |entries| => EntryText(entries[i]))
  }

  /** The unprocessable-entity message for the field errors `entries`. */
  function UnprocessableText(entries: seq<(string, seq<string>)>): string
  {
    UnprocessablePrefix + Join(" | ", EntryTexts(entries))
  }

  /** The field errors appear in entry order: one more entry appends
      " | " and its text, and no entries leave the bare prefix. */
  lemma UnprocessableTextAppend(entries: seq<(string, seq<string>)>, entry: (string, seq<string>))
    ensures UnprocessableText([]) == UnprocessablePrefix
    ensures UnprocessableText([entry]) == UnprocessablePrefix + EntryText(entry)
    ensures |entries| > 0 ==>
      UnprocessableText(entries + [entry]) == UnprocessableText(entries) + " | " + EntryText(entry)
  {
    if |entries| > 0 {
      assert EntryTexts(entries + [entry]) == EntryTexts(entries) + [EntryText(entry)];
      JoinAppend(" | ", EntryTexts(entries), EntryText(entry));
    }
  }

  /** The field errors of a dict `errors` read through `.items()`: each key
      with its messages, which must all be strings. */
  function ItemsEntries(errors: Json): (r: Result<seq<(string, seq<string>)>, RenderFailure>)
    ensures !errors.JObj? ==> r == Failure(NotMapping)
    ensures r.Success? ==> Keys(errors.entries) == seq(|r.value|, i requires 0 <= i < |r.value| => r.value[i].0)
    decreases if errors.JObj? then |errors.entries| else 0
  {
    if !errors.JObj? then Failure(NotMapping)
    else if errors.entries == [] then Success([])
    else
      var (k, v) := errors.entries[0];
      match Iterate(v)
      case None => Failure(NotIterable)
      case Some(items) =>
        match Texts(items)
        case None => Failure(NotText)
        case Some(msgs) =>
          match ItemsEntries(JObj(errors.entries[1..]))
          case Failure(f) => Failure(f)
          case Success(rest) =>
            assert Keys(errors.entries) == [k] + Keys(errors.entries[1..]);
            Success([(k, msgs)] + rest)
  }

  /** The field errors of `errors` read AS WRITTEN in exceptions.py:28,
      `for k, v in errors`, which iterates `errors` itself and unpacks every
      item it yields into two values. */
  function IterEntries(errors: Json, repr: Json -> string): (r: Result<seq<(string, seq<string>)>, RenderFailure>)
  {
    match Iterate(errors)
    case None => Failure(NotIterable)
    case Some(items) => UnpackEach(items, repr)
  }

  function UnpackEach(items: seq<Json>, repr: Json -> string): (r: Result<seq<(string, seq<string>)>, RenderFailure>)
    ensures r.Success? ==> |r.value| == |items|
  {
    if items == [] then Success([])
    else
      match Iterate(items[0])
      case None => Failure(NotIterable)
      case Some(pair) =>
        if |pair| != 2 then Failure(BadUnpack)
        else
          match Iterate(pair[1])
          case None => Failure(NotIterable)
          case Some(vs) =>
            match Texts(vs)
            case None => Failure(NotText)
            case Some(msgs) =>
              match UnpackEach(items[1..], repr)
              case Failure(f) => Failure(f)
              case Success(rest) => Success([(Str(pair[0], repr), msgs)] + rest)
  }

  /** The field errors as the API sends them: a dict from field to messages. */
  function ErrorsDict(entries: seq<(string, seq<string>)>): (j: Json)
    ensures j.JObj? && |j.entries| == |entries|
  {
    JObj(seq(|entries|, i requires 0 <= i < |entries| => (entries[i].0, StrList(entries[i].1))))
  }

  /** The same field errors as a list of [field, messages] pairs. */
  function ErrorsPairList(entries: seq<(string, seq<string>)>): (j: Json)
    ensures j.JArr? && |j.items| == |entries|
  {
    JArr(seq(|entries|, i requires 0 <= i < |entries| => JArr([JStr(entries[i].0), StrList(entries[i].1)])))
  }

  /** `.items()` reads back exactly the fields and messages of a dict, in order. */
  lemma {:induction false} ItemsEntriesOfDict(entries: seq<(string, seq<string>)>)
    ensures ItemsEntries(ErrorsDict(entries)) == Success(entries)
  {
    if entries != [] {
      assert ErrorsDict(entries).entries[1..] == ErrorsDict(entries[1..]).entries;
      ItemsEntriesOfDict(entries[1..]);
      assert [entries[0]] + entries[1..] == entries;
    }
  }

  /** The code as written reads a list of pairs correctly, whatever `repr` is. */
  lemma {:induction false} IterEntriesOfPairList(entries: seq<(string, seq<string>)>, repr: Json -> string)
    ensures IterEntries(ErrorsPairList(entries), repr) == Success(entries)
  {
    UnpackEachOfPairs(entries, repr);
  }

  lemma {:induction false} UnpackEachOfPairs(entries: seq<(string, seq<string>)>, repr: Json -> string)
    ensures UnpackEach(ErrorsPairList(entries).items, repr) == Success(entries)
  {
    if entries != [] {
      assert ErrorsPairList(entries).items[1..] == ErrorsPairList(entries[1..]).items;
      UnpackEachOfPairs(entries[1..], repr);
      assert [entries[0]] + entries[1..] == entries;
    }
  }

  /** `str(error)` for the corrected classes: HipcallAPIException and its
      subclasses, with UnprocessableEntityException iterating `.items()`. */
  function Message(e: ApiError, repr: Json -> string): (r: Result<string, RenderFailure>)
    ensures e.kind == Unauthorized ==> r == Success(UnauthorizedText)
    ensures e.kind == NotFound ==> r == Success(NotFoundText)
    ensures e.kind == Generic ==> r.Success?
    ensures e.kind == BadRequest ==>
      (r.Success? <==> Subscript(e.content, "errors").Some?
                       && Subscript(Subscript(e.content, "errors").value, "detail").Some?)
  {
    match e.kind
    case Generic => Success(GenericPrefix + Decimal.IntToString(e.status) + GenericInfix + Str(e.content, repr))
    case BadRequest =>
      (match Subscript(e.content, "errors")
       case None => Failure(MissingKey)
       case Some(errors) =>
         match Subscript(errors, "detail")
         case None => Failure(MissingKey)
         case Some(detail) => Success(BadRequestPrefix + Str(detail, repr)))
    case Unauthorized => Success(UnauthorizedText)
    case NotFound => Success(NotFoundText)
    case Unprocessable =>
      match Subscript(e.content, "errors")
      case None => Failure(MissingKey)
      case Some(errors) =>
        match ItemsEntries(errors)
        case Failure(f) => Failure(f)
        case Success(entries) => Success(UnprocessableText(entries))
  }

  /** The message of UnprocessableEntityException AS WRITTEN. */
  function UnprocessableMessageAsWritten(content: Json, repr: Json -> string): (r: Result<string, RenderFailure>)
    ensures Subscript(content, "errors").None? ==> r == Failure(MissingKey)
  {
    match Subscript(content, "errors")
    case None => Failure(MissingKey)
    case Some(errors) =>
      match IterEntries(errors, repr)
      case Failure(f) => Failure(f)
      case Success(entries) => Success(UnprocessableText(entries))
  }

  /** As written, field errors sent as a list of [field, messages] pairs
      render every field and its messages, in order. */
  lemma UnprocessableMessageOfPairList(content: Json, entries: seq<(string, seq<string>)>, repr: Json -> string)
    requires Subscript(content, "errors") == Some(ErrorsPairList(entries))
    ensures UnprocessableMessageAsWritten(content, repr) == Success(UnprocessableText(entries))
  {
    IterEntriesOfPairList(entries, repr);
  }

  /** The generic message starts with the status code in decimal, which can be
      read back from it, followed by ", Content: #" and the rendered content. */
  lemma GenericMessageCarriesStatus(e: ApiError, repr: Json -> string)
    requires e.kind == Generic
    ensures var m := Message(e, repr).value;
            var digits := Decimal.IntToString(e.status);
            && m[..|GenericPrefix|] == GenericPrefix
            && Decimal.ParseInt(m[|GenericPrefix|..|GenericPrefix| + |digits|]) == Some(e.status)
            && m[|GenericPrefix| + |digits|..] == GenericInfix + Str(e.content, repr)
  {
    var digits := Decimal.IntToString(e.status);
    var m := Message(e, repr).value;
    assert m == GenericPrefix + digits + (GenericInfix + Str(e.content, repr));
    assert m[|GenericPrefix|..|GenericPrefix| + |digits|] == digits;
    Decimal.IntRoundTrip(e.status);
  }

  /** Unauthorized and not-found messages ignore the status and the content. */
  lemma FixedMessagesIgnoreFields(e1: ApiError, e2: ApiError, repr1: Json -> string, repr2: Json -> string)
    requires e1.kind == e2.kind && (e1.kind == Unauthorized || e1.kind == NotFound)
    ensures Message(e1, repr1) == Message(e2, repr2)
  {
  }

  /** A bad-request message shows the nested `errors.detail` text verbatim. */
  lemma BadRequestShowsDetail(status: int, content: Json, detail: string, repr: Json -> string)
    requires Subscript(content, "errors").Some?
    requires Subscript(Subscript(content, "errors").value, "detail") == Some(JStr(detail))
    ensures Message(ApiError(BadRequest, status, content), repr) == Success(BadRequestPrefix + detail)
  {
  }

  /** With the field errors as the API sends them (a dict), the message lists
      every field and its messages, in order. */
  lemma UnprocessableMessageOfDict(status: int, content: Json, entries: seq<(string, seq<string>)>, repr: Json -> string)
    requires Subscript(content, "errors") == Some(ErrorsDict(entries))
    ensures Message(ApiError(Unprocessable, status, content), repr) == Success(UnprocessableText(entries))
  {
    ItemsEntriesOfDict(entries);
  }

  /** The code as written fails on a dict of field errors: iterating it
      yields the key "name", which does not unpack into two values. */
  lemma DictErrorsBreakAsWritten(repr: Json -> string)
    ensures UnprocessableMessageAsWritten(
              JObj([("errors", JObj([("name", JArr([JStr("can't be blank")]))]))]), repr)
         == Failure(BadUnpack)
  {
    assert |Iterate(JStr("name")).value| == 4;
  }

  /** The corrected message renders the same dict as the field and its message. */
  lemma DictErrorsRenderCorrected(repr: Json -> string)
    ensures Message(ApiError(Unprocessable, 422,
              JObj([("errors", JObj([("name", JArr([JStr("can't be blank")]))]))])), repr)
         == Success(UnprocessablePrefix + "name: can't be blank ")
  {
    var entries := [("name", ["can't be blank"])];
    var msgs := StrList(entries[0].1);
    assert |msgs.items| == 1 && msgs.items[0] == JStr("can't be blank");
    assert msgs == JArr([JStr("can't be blank")]);
    assert ErrorsDict(entries).entries == [("name", msgs)];
    UnprocessableMessageOfDict(422, JObj([("errors", ErrorsDict(entries))]), entries, repr);
    UnprocessableTextAppend([], entries[0]);
    assert EntryText(entries[0]) == "name: can't be blank ";
  }

  /** As written, a two-letter key unpacks into its two letters, and the
      message shows those instead of the field's messages. */
  lemma TwoLetterKeyAsWritten(repr: Json -> string)
    ensures UnprocessableMessageAsWritten(
              JObj([("errors", JObj([("id", JArr([JStr("is invalid")]))]))]), repr)
         == Success(UnprocessablePrefix + "i: d ")
  {
    var id := JStr("id");
    var pair := Iterate(id).value;
    assert pair == [JStr("i"), JStr("d")];
    assert Iterate(pair[1]).value == [JStr("d")];
    var errors := JObj([("id", JArr([JStr("is invalid")]))]);
    assert Iterate(errors).value == [id];
    assert [JStr("d")][0].JStr?;
    var t := Texts([JStr("d")]).value;
    assert |t| == 1 && JStr(t[0]) == JStr("d");
    assert t == ["d"];
    assert Str(pair[0], repr) == "i";
    var items := [id];
    assert items[0] == id && items[1..] == [];
    assert UnpackEach(items[1..], repr) == Success([]);
    assert Iterate(items[0]) == Some(pair) && |pair| == 2;
    assert Texts(Iterate(pair[1]).value) == Some(["d"]);
    assert [("i", ["d"])] + [] == [("i", ["d"])];
    assert UnpackEach(items, repr) == Success([("i", ["d"])]);
    assert IterEntries(errors, repr) == Success([("i", ["d"])]);
    UnprocessableTextAppend([], ("i", ["d"]));
    assert EntryText(("i", ["d"])) == "i: d ";
  }
}
