/** The Python values the bot handles once a response body has been decoded
    as JSON, the exceptions raised while it handles them, and what Python's
    str() makes of both (the text that ends up in a chat message). */
module PyModel {

  datatype Option<+T> = None | Some(value: T)

  datatype Result<+T, +E> = Ok(value: T) | Err(error: E)

  /** A decoded JSON document as a Python value: None, bool, int, str, list
      or dict. A dict keeps its keys in insertion order, as Python's does. */
  datatype Json =
    | JNull
    | JBool(b: bool)
    | JInt(i: int)
    | JStr(s: string)
    | JArr(items: seq<Json>)
    | JObj(fields: seq<(string, Json)>)

  /** The exceptions that can reach the bot's outer handler. */
  datatype PyError =
      /** `raise Exception(text)` in the bot's own code */
    | Raised(text: string)
      /** an exception of a library the model does not see, whose str() is text */
    | Foreign(text: string)
      /** KeyError from `d[key]` */
    | KeyMissing(key: string)
      /** AttributeError from `x.attr` on a value of the named type */
    | NoAttribute(typeName: string, attr: string)
      /** TypeError from `for _ in x` */
    | NotIterable(typeName: string)
      /** TypeError from `x['key']` on a value that is not a dict */
    | BadSubscript(typeName: string)
      /** TypeError from using a list or dict as a dict key */
    | Unhashable(typeName: string)

  /** type(v).__name__ */
  function TypeName(v: Json): string
  {
    match v
    case JNull => "NoneType"
    case JBool(_) => "bool"
    case JInt(_) => "int"
    case JStr(_) => "str"
    case JArr(_) => "list"
    case JObj(_) => "dict"
  }

  /** bool(v) */
  predicate Truthy(v: Json)
  {
    match v
    case JNull => false
    case JBool(b) => b
    case JInt(i) => i != 0
    case JStr(s) => s != ""
    case JArr(items) => items != []
    case JObj(fields) => fields != []
  }

  predicate Hashable(v: Json)
  {
    !v.JArr? && !v.JObj?
  }

  /** The value a dict holds under key. */
  function Lookup(fields: seq<(string, Json)>, key: string): Option<Json>
  {
    if |fields| == 0 then None
    else if fields[0].0 == key then Some(fields[0].1)
    else Lookup(fields[1..], key)
  }

  /** `v.get(key)`: what a dict holds under key, or None; any other value has no `get`. */
  function Get(v: Json, key: string): (r: Result<Json, PyError>)
    ensures !v.JObj? ==> r == Err(NoAttribute(TypeName(v), "get"))
    ensures v.JObj? ==> r.Ok?
    ensures v.JObj? && Lookup(v.fields, key).Some? ==> r.value == Lookup(v.fields, key).value
    ensures v.JObj? && Lookup(v.fields, key).None? ==> r.value == JNull
  {
    match v
    case JObj(fields) =>
      (match Lookup(fields, key)
       case Some(x) => Ok(x)
       case None => Ok(JNull))
    case _ => Err(NoAttribute(TypeName(v), "get"))
  }

  /** `v[key]`: what a dict holds under key; KeyError when it holds nothing. */
  function Index(v: Json, key: string): (r: Result<Json, PyError>)
    ensures !v.JObj? ==> r == Err(BadSubscript(TypeName(v)))
    ensures v.JObj? ==> (r.Ok? <==> Lookup(v.fields, key).Some?)
    ensures v.JObj? && r.Ok? ==> r.value == Lookup(v.fields, key).value
    ensures v.JObj? && r.Err? ==> r.error == KeyMissing(key)
  {
    match v
    case JObj(fields) =>
      (match Lookup(fields, key)
       case Some(x) => Ok(x)
       case None => Err(KeyMissing(key)))
    case _ => Err(BadSubscript(TypeName(v)))
  }

  /** What `for x in v` visits: a list's items, a str's one-character strs,
      a dict's keys; None, bool and int cannot be iterated. */
  function Iterate(v: Json): (r: Result<seq<Json>, PyError>)
    ensures r.Err? <==> v.JNull? || v.JBool? || v.JInt?
    ensures r.Err? ==> r.error == NotIterable(TypeName(v))
    ensures r.Ok? ==> (r.value == [] <==> !Truthy(v))
    ensures v.JArr? ==> r == Ok(v.items)
    ensures v.JStr? ==> r.Ok? && |r.value| == |v.s|
    ensures v.JStr? ==> forall k :: 0 <= k < |v.s| ==> r.value[k] == JStr([v.s[k]])
    ensures v.JObj? ==> r.Ok? && |r.value| == |v.fields|
    ensures v.JObj? ==> forall k :: 0 <= k < |v.fields| ==> r.value[k] == JStr(v.fields[k].0)
  {
    match v
    case JArr(items) => Ok(items)
    case JStr(s) => Ok(seq(|s|, k requires 0 <= k < |s| => JStr([s[k]])))
    case JObj(fields) => Ok(seq(|fields|, k requires 0 <= k < |fields| => JStr(fields[k].0)))
    case _ => Err(NotIterable(TypeName(v)))
  }

  // ---------------------------------------------------------------------
  // str() and repr()

  function DigitChar(d: nat): char
    requires d < 16
  {
    "0123456789abcdef"[d]
  }

  function Digits(n: nat): string
  {
    if n < 10 then [DigitChar(n)] else Digits(n / 10) + [DigitChar(n % 10)]
  }

  /** str(i) for an int */
  function Decimal(i: int): string
  {
    if i < 0 then "-" + Digits(-i) else Digits(i)
  }

  /** The quote repr() puts around a str: a single quote, unless the text
      holds a single quote and no double quote. */
  function QuoteFor(s: string): char
  {
    if '\'' in s && '"' !in s then '"' else '\''
  }

  /** One character of a str as repr() shows it between quotes q. */
  function EscapeChar(c: char, q: char): string
  {
    if c == q || c == '\\' then ['\\', c]
    else if c == '\t' then "\\t"
    else if c == '\n' then "\\n"
    else if c == '\r' then "\\r"
    else if c as int < 32 || c as int == 127 then
      "\\x" + [DigitChar(c as int / 16), DigitChar(c as int % 16)]
    else [c]
  }

  function Escape(s: string, q: char): string
  {
    if s == [] then [] else EscapeChar(s[0], q) + Escape(s[1..], q)
  }

  /** repr(s) for a str */
  function ReprStr(s: string): string
  {
    var q := QuoteFor(s);
    [q] + Escape(s, q) + [q]
  }

  /** repr(v) */
  function Repr(v: Json): string
    decreases v, 1, 0
  {
    match v
    case JNull => "None"
    case JBool(b) => if b then "True" else "False"
    case JInt(i) => Decimal(i)
    case JStr(s) => ReprStr(s)
    case JArr(items) => "[" + ReprItems(v, 0) + "]"
    case JObj(fields) => "{" + ReprFields(v, 0) + "}"
  }

  /** ", ".join(repr(x) for x in v.items[i:]) */
  function ReprItems(v: Json, i: nat): string
    requires v.JArr? && i <= |v.items|
    decreases v, 0, |v.items| - i
  {
    if i == |v.items| then ""
    else
      var head := Repr(v.items[i]);
      if i + 1 == |v.items| then head else head + ", " + ReprItems(v, i + 1)
  }

  /** ", ".join(repr(k) + ": " + repr(x) for k, x in v.fields[i:]) */
  function ReprFields(v: Json, i: nat): string
    requires v.JObj? && i <= |v.fields|
    decreases v, 0, |v.fields| - i
  {
    if i == |v.fields| then ""
    else
      var entry := ReprStr(v.fields[i].0) + ": " + Repr(v.fields[i].1);
      if i + 1 == |v.fields| then entry else entry + ", " + ReprFields(v, i + 1)
  }

  /** str(v), which is how an f-string shows v: a str as it is, anything else as repr() */
  function PyStr(v: Json): (r: string)
    ensures v.JStr? ==> r == v.s
    ensures v.JNull? ==> r == "None"
    ensures !v.JStr? ==> r == Repr(v)
  {
    if v.JStr? then v.s else Repr(v)
  }

  /** str(e) of an exception (CPython 3.11 wording for the interpreter's own errors) */
  function Str(e: PyError): string
  {
    match e
    case Raised(text) => text
    case Foreign(text) => text
    case KeyMissing(key) => ReprStr(key)
    case NoAttribute(t, attr) => "'" + t + "' object has no attribute '" + attr + "'"
    case NotIterable(t) => "'" + t + "' object is not iterable"
    case BadSubscript(t) =>
      if t == "list" then "list indices must be integers or slices, not str"
      else if t == "str" then "string indices must be integers, not 'str'"
      else "'" + t + "' object is not subscriptable"
    case Unhashable(t) => "unhashable type: '" + t + "'"
  }
}
