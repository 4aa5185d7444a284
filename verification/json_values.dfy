/** Parsed JSON as Python sees it after `json.loads`: `None`, `bool`, `int`,
    `str`, `list` and `dict` with string keys, together with the pieces of
    Python's object model the client relies on: truthiness, the type names
    that appear in exception messages, `dict.get` and `int(...)`. */
module JsonValues {
  import opened Wrappers
  import Numerals

  datatype Value =
    | JNull
    | JBool(b: bool)
    | JInt(i: int)
    | JStr(s: string)
    | JList(items: seq<Value>)
    | JObj(fields: map<string, Value>)

  /** Python's `bool(v)`: `None`, `False`, `0` and empty containers are false. */
  predicate Truthy(v: Value) {
    match v
    case JNull => false
    case JBool(b) => b
    case JInt(i) => i != 0
    case JStr(s) => s != []
    case JList(items) => items != []
    case JObj(fields) => fields != map[]
  }

  /** `type(v).__name__`. */
  function TypeName(v: Value): string {
    match v
    case JNull => "NoneType"
    case JBool(_) => "bool"
    case JInt(_) => "int"
    case JStr(_) => "str"
    case JList(_) => "list"
    case JObj(_) => "dict"
  }

  /** `d.get(key, default)` on a dict. */
  function GetOr(fields: map<string, Value>, key: string, default: Value): (v: Value)
    ensures key in fields ==> v == fields[key]
    ensures key !in fields ==> v == default
  {
    if key in fields then fields[key] else default
  }

  /** `d.get(key)` where a missing key and an explicit `null` both read as `None`. */
  function GetOpt(fields: map<string, Value>, key: string): (v: Option<Value>)
    ensures v.Some? <==> key in fields && fields[key] != JNull
    ensures v.Some? ==> v.value == fields[key]
  {
    if key in fields && fields[key] != JNull then Some(fields[key]) else None
  }

  /** Why Python's `int(v)` refuses a value. */
  datatype IntError =
    | IntArgType(typeName: string)  // TypeError: the value is not a str, bytes or number
    | InvalidLiteral(text: string)  // ValueError: the text is not a base-10 integer

  /** Python's `int(v)` on a parsed JSON value. `bool` is a subclass of
      `int`, so `int(True) == 1`. */
  function ToInt(v: Value): (r: Result<int, IntError>)
    ensures v.JInt? ==> r == Success(v.i)
    ensures v.JBool? ==> r == Success(if v.b then 1 else 0)
    ensures v.JStr? ==> (r.Success? <==> Numerals.ParseInt(v.s).Some?)
    ensures v.JStr? && r.Success? ==> r.value == Numerals.ParseInt(v.s).value
    ensures v.JStr? && r.Failure? ==> r.error == InvalidLiteral(v.s)
    ensures (v.JNull? || v.JList? || v.JObj?) ==> r == Failure(IntArgType(TypeName(v)))
  {
    match v
    case JInt(i) => Success(i)
    case JBool(b) => Success(if b then 1 else 0)
    case JStr(s) =>
      (match Numerals.ParseInt(s)
       case Some(n) => Success(n)
       case None => Failure(InvalidLiteral(s)))
    case _ => Failure(IntArgType(TypeName(v)))
  }

  /** `int` gives the same integer for a number and for its decimal text,
      `int(str(n)) == int(n)`. */
  lemma {:induction false} ToIntDecimalText(n: int)
    ensures ToInt(JStr(Numerals.IntToDecimal(n))) == ToInt(JInt(n)) == Success(n)
  {
    Numerals.ParseFormatRoundTrip(n);
  }
}
