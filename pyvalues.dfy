/** Python-level values the dashboard handles: what `json.loads` returns, the
    truthiness tests `if x:` / `not x`, the built-in `len`, and `str.strip()`. */
module PyValues {

  datatype Option<+T> = None | Some(value: T)

  datatype Result<+T, +E> = Ok(value: T) | Err(error: E)

  /** A value produced by `json.loads`: JSON objects become dicts (a later
      duplicate key wins, so a map is enough), arrays become lists. */
  datatype Json =
    | JNull
    | JBool(b: bool)
    | JInt(i: int)
    | JFloat(f: real)
    | JStr(s: string)
    | JArr(items: seq<Json>)
    | JObj(fields: map<string, Json>)

  /** Python truthiness of a parsed value: None, False, zero and empty
      containers are falsy, everything else is truthy. */
  predicate Truthy(v: Json) {
    match v
    case JNull => false
    case JBool(b) => b
    case JInt(i) => i != 0
    case JFloat(f) => f != 0.0
    case JStr(s) => s != []
    case JArr(items) => items != []
    case JObj(fields) => fields != map[]
  }

  /** The falsy values, listed as Python's documentation lists them: None,
      False, the zeros, and the empty string, list and dict. */
  const FalsyValues: set<Json> := {JNull, JBool(false), JInt(0), JFloat(0.0), JStr([]), JArr([]), JObj(map[])}

  /** A parsed value is falsy exactly when it is one of the listed ones, so
      for example an empty dict or an empty list counts as no result. */
  lemma FalsyExactlyTheListedValues(v: Json)
    ensures !Truthy(v) <==> v in FalsyValues
  {
  }

  /** Truthiness of a value that may be Python's `None`. */
  predicate TruthyOpt(v: Option<Json>) {
    v.Some? && Truthy(v.value)
  }

  /** The built-in `len`: defined on strings (code points), lists and dicts;
      any other value raises `TypeError`, modelled as None. */
  function Len(v: Json): (n: Option<nat>)
    ensures n.Some? <==> (v.JStr? || v.JArr? || v.JObj?)
    ensures n.Some? ==> (n.value > 0 <==> Truthy(v))
  {
    match v
    case JStr(s) => Some(|s|)
    case JArr(items) => Some(|items|)
    case JObj(fields) => Some(|fields|)
    case _ => None
  }

  /** `dict.get(key, default)`: the stored value when the key is present,
      the default otherwise. */
  function Get(fields: map<string, Json>, key: string, default: Json): (v: Json)
    ensures key in fields ==> v == fields[key]
    ensures key !in fields ==> v == default
  {
    if key in fields then fields[key] else default
  }

  /** The characters Python's `str.isspace()` accepts, which are the ones
      `str.strip()` without arguments removes. */
  predicate IsSpace(c: char) {
    ('\U{9}' <= c <= '\U{D}') || ('\U{1C}' <= c <= '\U{20}') ||
    c == '\U{85}' || c == '\U{A0}' || c == '\U{1680}' ||
    ('\U{2000}' <= c <= '\U{200A}') || c == '\U{2028}' || c == '\U{2029}' ||
    c == '\U{202F}' || c == '\U{205F}' || c == '\U{3000}'
  }

  /** Every character `str.isspace()` accepts, one by one, in code point order. */
  const PythonWhitespace: string :=
    "\U{9}\U{A}\U{B}\U{C}\U{D}\U{1C}\U{1D}\U{1E}\U{1F}\U{20}\U{85}\U{A0}\U{1680}"
    + "\U{2000}\U{2001}\U{2002}\U{2003}\U{2004}\U{2005}\U{2006}\U{2007}\U{2008}\U{2009}\U{200A}"
    + "\U{2028}\U{2029}\U{202F}\U{205F}\U{3000}"

  /** The range test `IsSpace` accepts exactly the 29 listed characters. */
  lemma IsSpaceExactlyPythonWhitespace(c: char)
    ensures IsSpace(c) <==> c in PythonWhitespace
  {
  }

  /** Every character of `s` is in the class `ws`. */
  predicate AllIn(ws: char -> bool, s: string) {
    forall i :: 0 <= i < |s| ==> ws(s[i])
  }

  /** Every character is whitespace (the empty string included). */
  predicate IsBlank(s: string) {
    AllIn(IsSpace, s)
  }

  /** Drops the leading characters of class `ws` and nothing else. */
  function TrimStart(ws: char -> bool, s: string): (r: string)
    ensures |r| <= |s| && r == s[|s| - |r|..]
    ensures AllIn(ws, s[..|s| - |r|])
    ensures r == [] || !ws(r[0])
  {
    if |s| > 0 && ws(s[0]) then TrimStart(ws, s[1..]) else s
  }

  /** Drops the trailing characters of class `ws` and nothing else. */
  function TrimEnd(ws: char -> bool, s: string): (r: string)
    ensures |r| <= |s| && r == s[..|r|]
    ensures AllIn(ws, s[|r|..])
    ensures r == [] || !ws(r[|r| - 1])
  {
    if |s| > 0 && ws(s[|s| - 1]) then TrimEnd(ws, s[..|s| - 1]) else s
  }

  /** Whatever `TrimStart` leaves starts outside the class, so if nothing
      is left after trimming both ends, every character was in the class. */
  lemma TrimBothEmptyIffAllIn(ws: char -> bool, s: string)
    ensures TrimEnd(ws, TrimStart(ws, s)) == [] <==> AllIn(ws, s)
  {
    var t := TrimStart(ws, s);
    var k := |s| - |t|;
    if TrimEnd(ws, t) == [] {
      assert t[0..] == t;
      forall i | 0 <= i < |s| ensures ws(s[i]) {
        if i < k { assert s[..k][i] == s[i]; } else { assert t[i - k] == s[i]; }
      }
    } else {
      assert TrimEnd(ws, t)[0] == t[0] == s[k];
      assert !ws(s[k]);
    }
  }

  /** `s.strip(chars)` for the class `ws`: empty exactly when every character
      is in the class, and otherwise starting and ending outside it. */
  function StripChars(ws: char -> bool, s: string): (r: string)
    ensures r == [] <==> AllIn(ws, s)
    ensures r == [] || (!ws(r[0]) && !ws(r[|r| - 1]))
  {
    TrimBothEmptyIffAllIn(ws, s);
    var t := TrimStart(ws, s);
    var r := TrimEnd(ws, t);
    assert r != [] ==> r[0] == t[0];
    r
  }

  /** `s.strip()`: empty exactly when `s` is blank, and otherwise starts
      and ends with a character that is not whitespace. */
  function Strip(s: string): (r: string)
    ensures r == [] <==> IsBlank(s)
    ensures r == [] || (!IsSpace(r[0]) && !IsSpace(r[|r| - 1]))
  {
    StripChars(IsSpace, s)
  }
}
