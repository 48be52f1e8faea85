/** A decoded JSON value, as `json.loads` hands it to the notifier, together with the
    handful of Python operators the notifier applies to such values: subscription by a
    string key, the `in` operator, truthiness, membership in a string-keyed dict, and
    `str()` as used by an f-string.
 */
module PyJson {
  import opened Results

  /** Floating-point numbers are not modelled. An object is a `dict` with string keys. */
  datatype Json =
    | JNull
    | JBool(b: bool)
    | JInt(i: int)
    | JStr(s: string)
    | JList(items: seq<Json>)
    | JObject(fields: map<string, Json>)

  /** `container[key]` for a string key: only a dict can be subscripted by a string;
      a list or a str raises TypeError (their indices must be integers), and so do
      None, bools and ints, which are not subscriptable at all. */
  function GetItem(container: Json, key: string): (r: Result<Json>)
    ensures r.Ok? <==> container.JObject? && key in container.fields
    ensures r.Ok? ==> r.value == container.fields[key]
    ensures container.JObject? && key !in container.fields ==> r == Err(KeyErr)
    ensures !container.JObject? ==> r == Err(TypeErr)
  {
    match container
    case JObject(fields) => if key in fields then Ok(fields[key]) else Err(KeyErr)
    case _ => Err(TypeErr)
  }

  /** True when `needle` occurs as a contiguous piece of `hay`. */
  predicate IsSubstring(needle: string, hay: string)
    decreases |hay|
  {
    |needle| <= |hay| && (hay[..|needle|] == needle || IsSubstring(needle, hay[1..]))
  }

  /** `key in container` for a string key: key membership for a dict, element
      membership for a list, substring search for a str; None, bools and ints are not
      iterable and raise TypeError. */
  function In(key: string, container: Json): (r: Result<bool>)
    ensures container.JObject? ==> r == Ok(key in container.fields)
    ensures container.JList? ==> r == Ok(JStr(key) in container.items)
    ensures container.JStr? ==> r == Ok(IsSubstring(key, container.s))
    ensures r.Err? <==> container.JNull? || container.JBool? || container.JInt?
    ensures r.Err? ==> r.error == TypeErr
  {
    match container
    case JObject(fields) => Ok(key in fields)
    case JList(items) => Ok(JStr(key) in items)
    case JStr(s) => Ok(IsSubstring(key, s))
    case _ => Err(TypeErr)
  }

  /** `key in m` for a dict `m` with string keys and an arbitrary JSON key: lists and
      dicts are unhashable and raise TypeError; a non-string scalar is never a key. */
  function KeyIn<T>(key: Json, m: map<string, T>): (r: Result<bool>)
    ensures r == Ok(true) <==> key.JStr? && key.s in m
    ensures r.Err? <==> key.JList? || key.JObject?
    ensures r.Err? ==> r.error == TypeErr
  {
    match key
    case JList(_) => Err(TypeErr)
    case JObject(_) => Err(TypeErr)
    case JStr(s) => Ok(s in m)
    case _ => Ok(false)
  }

  /** Python truthiness, as decided by `if value:`: the false values are None, False,
      zero and the empty containers. */
  function Truthy(j: Json): (b: bool)
    ensures !b <==> j in {JNull, JBool(false), JInt(0), JStr(""), JList([]), JObject(map[])}
  {
    match j
    case JNull => false
    case JBool(b) => b
    case JInt(i) => i != 0
    case JStr(s) => |s| > 0
    case JList(items) => |items| > 0
    case JObject(fields) => |fields| > 0
  }

  predicate AllDigits(s: string) {
    forall k :: 0 <= k < |s| ==> '0' <= s[k] <= '9'
  }

  /** The number a string of decimal digits denotes. */
  function DecimalValue(s: string): nat
    requires AllDigits(s)
  {
    if |s| == 0 then 0
    else DecimalValue(s[..|s| - 1]) * 10 + ((s[|s| - 1] as int) - ('0' as int))
  }

  /** Decimal digits of a natural number, most significant first, with no leading zero. */
  function NatToDecimal(n: nat): (r: string)
    ensures |r| > 0 && AllDigits(r)
    ensures DecimalValue(r) == n
    ensures r[0] == '0' ==> n == 0
    ensures |r| > 1 ==> r[0] != '0'
  {
    var digit := (('0' as int) + n % 10) as char;
    if n < 10 then [digit]
    else
      var prefix := NatToDecimal(n / 10);
      assert (prefix + [digit])[..|prefix|] == prefix;
      prefix + [digit]
  }

  /** `str(i)` for an int: an optional minus sign, then the digits of the magnitude. */
  function IntToDecimal(i: int): (r: string)
    ensures |r| > 0
    ensures i > 0 ==> r[0] != '0'
    ensures i >= 0 && |r| > 1 ==> r[0] != '0'
    ensures i < 0 ==> |r| > 1 && r[1] != '0'
    ensures i >= 0 ==> AllDigits(r) && DecimalValue(r) == i
    ensures i < 0 ==> |r| > 1 && r[0] == '-' && AllDigits(r[1..]) && DecimalValue(r[1..]) == -i
  {
    if i < 0 then
      var digits := NatToDecimal(-i);
      assert ("-" + digits)[1..] == digits;
      "-" + digits
    else NatToDecimal(i)
  }

  /** Join `parts` with `sep` between neighbours. */
  function Join(parts: seq<string>, sep: string): string {
    if |parts| == 0 then ""
    else if |parts| == 1 then parts[0]
    else parts[0] + sep + Join(parts[1..], sep)
  }

  /** `repr(j)`. Strings are quoted with single quotes but not escaped, and a dict is
      shown as `{...}`: a `map` keeps no insertion order to print its entries in. */
  function Repr(j: Json): string {
    match j
    case JNull => "None"
    case JBool(b) => if b then "True" else "False"
    case JInt(i) => IntToDecimal(i)
    case JStr(s) => "'" + s + "'"
    case JList(items) =>
      "[" + Join(seq(|items|, k requires 0 <= k < |items| => Repr(items[k])), ", ") + "]"
    case JObject(_) => "{...}"
  }

  /** `str(j)`, which an f-string applies to each replacement field: a str is
      inserted as it is, every other value as its repr. */
  function Str(j: Json): (r: string)
    ensures j.JStr? ==> r == j.s
    ensures j.JNull? ==> r == "None"
    ensures j.JBool? ==> r == (if j.b then "True" else "False")
    ensures j.JInt? ==> r == IntToDecimal(j.i)
  {
    match j
    case JStr(s) => s
    case _ => Repr(j)
  }
}
