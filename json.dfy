/**
 * JSON values as the core sees them after `.json()` decoding, with the Python semantics the core applies to them:
 * subscripting, `.get`, `in`, iteration, truthiness, equality, `str()`, and `json.dumps` for outgoing payloads.
 */
module Json {
  import opened Common
  import opened Text

  /** A decoded JSON value. An object keeps its members in order; a repeated key is looked up by its last binding. */
  datatype Json =
    | Null
    | Bool(b: bool)
    | Num(n: int)
    | Str(s: string)
    | Arr(items: seq<Json>)
    | Obj(fields: seq<Field>)

  datatype Field = Field(key: string, value: Json)

  /** The value bound to `key`, taking the last binding as `json.loads` does. */
  function Lookup(fields: seq<Field>, key: string): (r: Option<Json>)
    ensures r.None? <==> forall i :: 0 <= i < |fields| ==> fields[i].key != key
    ensures r.Some? ==> exists i :: 0 <= i < |fields| && fields[i] == Field(key, r.value)
  {
    if fields == [] then None
    else if fields[|fields| - 1].key == key then Some(fields[|fields| - 1].value)
    else Lookup(fields[..|fields| - 1], key)
  }

  /** A key that occurs once is found at its only position. */
  lemma LookupUnique(fields: seq<Field>, i: nat)
    requires i < |fields| && forall j :: 0 <= j < |fields| && j != i ==> fields[j].key != fields[i].key
    ensures Lookup(fields, fields[i].key) == Some(fields[i].value)
  {
  }

  /** When a key occurs several times, the lookup finds the value of its last occurrence. */
  lemma {:induction false} LookupLast(fields: seq<Field>, key: string, v: Json)
    ensures Lookup(fields, key) == Some(v) <==>
      exists i :: 0 <= i < |fields| && fields[i] == Field(key, v) && forall j :: i < j < |fields| ==> fields[j].key != key
    decreases |fields|
  {
    if fields != [] {
      var n := |fields| - 1;
      var init := fields[..n];
      if fields[n].key == key {
        if Lookup(fields, key) == Some(v) {
          assert fields[n] == Field(key, v);
        } else {
          forall i | 0 <= i < |fields| && fields[i] == Field(key, v)
            ensures exists j :: i < j < |fields| && fields[j].key == key
          {
            assert i < n && fields[n].key == key;
          }
        }
      } else {
        LookupLast(init, key, v);
        if Lookup(fields, key) == Some(v) {
          var i :| 0 <= i < |init| && init[i] == Field(key, v) && forall j :: i < j < |init| ==> init[j].key != key;
          assert fields[i] == Field(key, v);
          forall j | i < j < |fields|
            ensures fields[j].key != key
          {
            if j < n {
              assert fields[j] == init[j];
            }
          }
        } else {
          forall i | 0 <= i < |fields| && fields[i] == Field(key, v)
            ensures exists j :: i < j < |fields| && fields[j].key == key
          {
            assert i < n && init[i] == fields[i];
            var j :| i < j < |init| && init[j].key == key;
            assert fields[j] == init[j];
          }
        }
      }
    }
  }

  /** The Python type name that appears in the interpreter's error texts. */
  function TypeName(j: Json): string {
    match j
    case Null => "NoneType"
    case Bool(_) => "bool"
    case Num(_) => "int"
    case Str(_) => "str"
    case Arr(_) => "list"
    case Obj(_) => "dict"
  }

  /** `j[key]` with a string key. */
  function Index(j: Json, key: string): (r: Result<Json>)
    ensures r.Ok? <==> j.Obj? && Lookup(j.fields, key).Some?
    ensures r.Ok? ==> Some(r.value) == Lookup(j.fields, key)
    ensures j.Obj? && r.Err? ==> r.exc == KeyErr(key)
    ensures !j.Obj? ==> r.exc.kind == TypeError
  {
    match j
    case Obj(fields) =>
      (match Lookup(fields, key)
       case Some(v) => Ok(v)
       case None => Err(KeyErr(key)))
    case Arr(_) => Err(Exc(TypeError, "list indices must be integers or slices, not str"))
    case Str(_) => Err(Exc(TypeError, "string indices must be integers, not 'str'"))
    case _ => Err(Exc(TypeError, "'" + TypeName(j) + "' object is not subscriptable"))
  }

  /** `j.get(key, default)`: only a dict has `.get`. */
  function GetOr(j: Json, key: string, default: Json): (r: Result<Json>)
    ensures r.Ok? <==> j.Obj?
    ensures j.Obj? ==> r.value == (if Lookup(j.fields, key).Some? then Lookup(j.fields, key).value else default)
  {
    match j
    case Obj(fields) =>
      (match Lookup(fields, key)
       case Some(v) => Ok(v)
       case None => Ok(default))
    case _ => Err(Exc(AttributeError, "'" + TypeName(j) + "' object has no attribute 'get'"))
  }

  /** Python truthiness. */
  predicate Truthy(j: Json) {
    match j
    case Null => false
    case Bool(b) => b
    case Num(n) => n != 0
    case Str(s) => s != ""
    case Arr(items) => items != []
    case Obj(fields) => fields != []
  }

  /** `needle in j` for a string `needle`. */
  function In(needle: string, j: Json): (r: Result<bool>)
    ensures j.Str? ==> r == Ok(Contains(j.s, needle))
    ensures j.Obj? ==> r == Ok(Lookup(j.fields, needle).Some?)
  {
    match j
    case Str(s) => Ok(Contains(s, needle))
    case Obj(fields) => Ok(Lookup(fields, needle).Some?)
    case Arr(items) => Ok(Str(needle) in items)
    case _ => Err(Exc(TypeError, "argument of type '" + TypeName(j) + "' is not iterable"))
  }

  /** The values `for x in j` visits: list items, dict keys, or the characters of a string. */
  function Iterate(j: Json): (r: Result<seq<Json>>)
    ensures j.Arr? ==> r == Ok(j.items)
  {
    match j
    case Arr(items) => Ok(items)
    case Obj(fields) => Ok(seq(|fields|, i requires 0 <= i < |fields| => Str(fields[i].key)))
    case Str(s) => Ok(seq(|s|, i requires 0 <= i < |s| => Str([s[i]])))
    case _ => Err(Exc(TypeError, "'" + TypeName(j) + "' object is not iterable"))
  }

  /** The integer a value compares as: `bool` is a subclass of `int` in Python. */
  function Numeric(j: Json): Option<int> {
    match j
    case Num(n) => Some(n)
    case Bool(b) => Some(if b then 1 else 0)
    case _ => None
  }

  /** Python `a == b` (containers are compared member by member, in order). */
  predicate PyEq(a: Json, b: Json) {
    if Numeric(a).Some? && Numeric(b).Some? then Numeric(a) == Numeric(b) else a == b
  }

  /** Python's `int(x)` on a JSON value: integers and booleans convert, strings are parsed, the rest raise TypeError. */
  function PyInt(j: Json): (r: Result<int>)
    ensures j.Num? ==> r == Ok(j.n)
    ensures j.Bool? ==> r == Ok(if j.b then 1 else 0)
    ensures j.Str? ==> r == ParseInt(j.s)
    ensures j.Null? || j.Arr? || j.Obj? ==> r.Err? && r.exc.kind == TypeError
  {
    match j
    case Num(n) => Ok(n)
    case Bool(b) => Ok(if b then 1 else 0)
    case Str(s) => ParseInt(s)
    case _ => Err(Exc(TypeError, "int() argument must be a string, a bytes-like object or a real number, not '" + TypeName(j) + "'"))
  }

  /** `d[key] = v` on a dict: an existing key keeps its place and takes the new value; a new key goes last. */
  function SetItem(fields: seq<Field>, key: string, v: Json): (r: seq<Field>)
    ensures Lookup(r, key) == Some(v)
    ensures forall k :: k != key ==> Lookup(r, k) == Lookup(fields, k)
    ensures Lookup(fields, key).None? ==> r == fields + [Field(key, v)]
  {
    if Lookup(fields, key).None? then fields + [Field(key, v)]
    else ReplaceValue(fields, key, v)
  }

  function ReplaceValue(fields: seq<Field>, key: string, v: Json): (r: seq<Field>)
    ensures |r| == |fields|
    ensures forall i :: 0 <= i < |fields| ==> r[i].key == fields[i].key
    ensures Lookup(fields, key).Some? ==> Lookup(r, key) == Some(v)
    ensures forall k :: k != key ==> Lookup(r, k) == Lookup(fields, k)
  {
    if fields == [] then []
    else
      var last := fields[|fields| - 1];
      ReplaceValue(fields[..|fields| - 1], key, v) + [if last.key == key then Field(key, v) else last]
  }

  /** `str(j)`; strings inside containers are quoted without escaping. */
  function PyStr(j: Json): string
    decreases j, 1
  {
    match j
    case Str(s) => s
    case _ => Repr(j)
  }

  function Repr(j: Json): string
    decreases j, 0
  {
    match j
    case Null => "None"
    case Bool(b) => if b then "True" else "False"
    case Num(n) => IntToDecimal(n)
    case Str(s) => "'" + s + "'"
    case Arr(items) => "[" + ReprItems(items) + "]"
    case Obj(fields) => "{" + ReprFields(fields) + "}"
  }

  function ReprItems(items: seq<Json>): string
    decreases items
  {
    if items == [] then ""
    else Repr(items[0]) + (if |items| == 1 then "" else ", " + ReprItems(items[1..]))
  }

  function ReprFields(fields: seq<Field>): string
    decreases fields
  {
    if fields == [] then ""
    else
      "'" + fields[0].key + "': " + Repr(fields[0].value)
      + (if |fields| == 1 then "" else ", " + ReprFields(fields[1..]))
  }

  // ---------------------------------------------------------------------------------------------
  // json.dumps with its defaults: separators ", " and ": ", ensure_ascii=True, keys in dict order.
  // ---------------------------------------------------------------------------------------------

  lemma AsciiConcat(a: string, b: string)
    requires IsAscii(a) && IsAscii(b)
    ensures IsAscii(a + b)
  {
  }

  function Hex4(n: nat): (r: string)
    requires n < 0x10000
    ensures |r| == 4 && IsAscii(r)
  {
    [HexDigit(n / 4096), HexDigit(n / 256 % 16), HexDigit(n / 16 % 16), HexDigit(n % 16)]
  }

  /** The escape `json.dumps` writes for one character when `ensure_ascii` is on. */
  function EscapeChar(c: char): (r: string)
    ensures IsAscii(r) && |r| > 0
  {
    if c == '"' then "\\\""
    else if c == '\\' then "\\\\"
    else if c == '\n' then "\\n"
    else if c == '\r' then "\\r"
    else if c == '\t' then "\\t"
    else if c as int == 8 then "\\b"
    else if c as int == 12 then "\\f"
    else if ' ' <= c <= '~' then [c]
    else if c as int < 0x10000 then "\\u" + Hex4(c as int)
    else
      var v := c as int - 0x10000;
      "\\u" + Hex4(0xD800 + v / 1024) + "\\u" + Hex4(0xDC00 + v % 1024)
  }

  function Escape(s: string): (r: string)
    ensures IsAscii(r)
  {
    if s == [] then "" else EscapeChar(s[0]) + Escape(s[1..])
  }

  function Quote(s: string): (r: string)
    ensures IsAscii(r)
  {
    "\"" + Escape(s) + "\""
  }

  /** `json.dumps(j)`; its output is plain ASCII whatever characters the values hold. */
  function Dumps(j: Json): (r: string)
    ensures IsAscii(r)
    decreases j, 1
  {
    match j
    case Null => "null"
    case Bool(b) => if b then "true" else "false"
    case Num(n) => IntToDecimal(n)
    case Str(s) => Quote(s)
    case Arr(items) => "[" + DumpsItems(items) + "]"
    case Obj(fields) => "{" + DumpsFields(fields) + "}"
  }

  function DumpsItems(items: seq<Json>): (r: string)
    ensures IsAscii(r)
    decreases items
  {
    if items == [] then ""
    else Dumps(items[0]) + (if |items| == 1 then "" else ", " + DumpsItems(items[1..]))
  }

  function DumpsFields(fields: seq<Field>): (r: string)
    ensures IsAscii(r)
    decreases fields
  {
    if fields == [] then ""
    else
      var key, value := Quote(fields[0].key), Dumps(fields[0].value);
      var rest := if |fields| == 1 then "" else ", " + DumpsFields(fields[1..]);
      AsciiConcat(key, ": ");
      AsciiConcat(key + ": ", value);
      AsciiConcat(key + ": " + value, rest);
      key + ": " + value + rest
  }
}
