/** The small part of Python's runtime that the modelled code leans on:
    JSON-like values and their truthiness, exceptions, environment lookups
    (`os.getenv`), string helpers (`startswith`, `strip`, `rstrip`, `join`)
    and the "missing required variables" comprehension used by several
    entry points. */
module PyRuntime {

  datatype Option<+T> = None | Some(value: T) {
    function GetOr(default: T): T {
      match this
      case Some(v) => v
      case None => default
    }
  }

  /** The exception classes the modelled code raises or catches. */
  datatype ExnKind = Exception | ValueError | RuntimeError | AttributeError | KeyError

  datatype Exn = Exn(kind: ExnKind, message: string)

  /** The message of the `AttributeError` raised by `.get` on a JSON value that
      is not an object. */
  const NoGetMessage := "object has no attribute 'get'"

  /** The result of a Python call: a returned value or a raised exception. */
  datatype Outcome<+T> = Returned(value: T) | Raised(exn: Exn)

  /** A JSON-serialisable Python value (`None`, bool, int, str, list, dict). */
  datatype Json =
    | JNull
    | JBool(b: bool)
    | JInt(i: int)
    | JStr(s: string)
    | JArr(items: seq<Json>)
    | JObj(fields: map<string, Json>)

  type Dict = map<string, Json>

  /** Python truthiness of a value: `None`, `False`, `0`, `""`, `[]` and `{}` are false. */
  predicate Truthy(v: Json) {
    match v
    case JNull => false
    case JBool(b) => b
    case JInt(i) => i != 0
    case JStr(s) => s != ""
    case JArr(a) => a != []
    case JObj(m) => m != map[]
  }

  /** `d.get(key)`: the value, or `None` when the key is absent. */
  function DictGet(d: Dict, key: string): (r: Json)
    ensures key !in d ==> r == JNull
    ensures key in d ==> r == d[key]
  {
    if key in d then d[key] else JNull
  }

  /** `None` when the optional string is absent, otherwise the string. */
  function OptStr(s: Option<string>): (r: Json)
    ensures s.None? <==> r == JNull
    ensures s.Some? ==> r == JStr(s.value)
  {
    match s
    case None => JNull
    case Some(v) => JStr(v)
  }

  // ---------------------------------------------------------------------
  // Environment

  /** A Python list of strings as a JSON value's elements, in order. */
  function JsonStrings(xs: seq<string>): (r: seq<Json>)
    ensures |r| == |xs| && forall i :: 0 <= i < |xs| ==> r[i] == JStr(xs[i])
  {
    if xs == [] then [] else [JStr(xs[0])] + JsonStrings(xs[1..])
  }

  /** The process environment: a variable is either unset or set to a string. */
  type Env = map<string, string>

  /** `os.getenv(name)`. */
  function GetEnv(env: Env, name: string): (r: Option<string>)
    ensures r.Some? <==> name in env
    ensures r.Some? ==> r.value == env[name]
  {
    if name in env then Some(env[name]) else None
  }

  /** `os.getenv(name, default)`: the default applies only when the variable is unset. */
  function GetEnvOr(env: Env, name: string, default: string): (r: string)
    ensures name in env ==> r == env[name]
    ensures name !in env ==> r == default
  {
    GetEnv(env, name).GetOr(default)
  }

  /** `bool(os.getenv(name))`: set and non-empty. */
  predicate IsSet(env: Env, name: string) {
    name in env && env[name] != ""
  }

  /** `[var for var in names if not os.getenv(var)]`. */
  function MissingVars(env: Env, names: seq<string>): (r: seq<string>)
    ensures forall x :: x in r <==> x in names && !IsSet(env, x)
    ensures |r| <= |names|
    ensures IsSubsequence(r, names)
  {
    if names == [] then []
    else
      var rest := MissingVars(env, names[1..]);
      assert forall x :: x in names <==> x == names[0] || x in names[1..];
      if IsSet(env, names[0]) then rest else [names[0]] + rest
  }

  /** `xs` can be obtained from `ys` by deleting elements: the order is kept. */
  predicate IsSubsequence<T(==)>(xs: seq<T>, ys: seq<T>)
    decreases |ys|
  {
    if xs == [] then true
    else if ys == [] then false
    else if xs[0] == ys[0] then IsSubsequence(xs[1..], ys[1..])
    else IsSubsequence(xs, ys[1..])
  }

  lemma {:induction false} MissingVarsEmpty(env: Env, names: seq<string>)
    ensures MissingVars(env, names) == [] <==> forall n :: n in names ==> IsSet(env, n)
  {
    if MissingVars(env, names) != [] {
      var x := MissingVars(env, names)[0];
      assert x in MissingVars(env, names);
    }
  }

  // ---------------------------------------------------------------------
  // Strings

  /** `sep.join(parts)`. */
  function Join(parts: seq<string>, sep: string): string {
    if parts == [] then ""
    else if |parts| == 1 then parts[0]
    else parts[0] + sep + Join(parts[1..], sep)
  }

  /** `s.startswith(p)`. */
  predicate StartsWith(s: string, p: string) {
    |p| <= |s| && s[..|p|] == p
  }

  /** The characters `str.strip()` removes (the ASCII whitespace characters). */
  predicate IsSpace(c: char) {
    c == ' ' || c == '\t' || c == '\n' || c == '\r' || c == '\U{0B}' || c == '\U{0C}'
  }

  /** `s.rstrip(c)`: drop every trailing occurrence of `c`. */
  function RStrip(s: string, c: char): (r: string)
    ensures |r| <= |s| && r == s[..|r|]
    ensures r == [] || r[|r| - 1] != c
    ensures forall i :: |r| <= i < |s| ==> s[i] == c
  {
    if s != [] && s[|s| - 1] == c then RStrip(s[..|s| - 1], c) else s
  }

  function RStripSpace(s: string): (r: string)
    ensures |r| <= |s| && r == s[..|r|]
    ensures r == [] || !IsSpace(r[|r| - 1])
    ensures forall i :: |r| <= i < |s| ==> IsSpace(s[i])
  {
    if s != [] && IsSpace(s[|s| - 1]) then RStripSpace(s[..|s| - 1]) else s
  }

  function LStripSpace(s: string): (r: string)
    ensures |r| <= |s| && r == s[|s| - |r|..]
    ensures r == [] || !IsSpace(r[0])
    ensures forall i :: 0 <= i < |s| - |r| ==> IsSpace(s[i])
  {
    if s != [] && IsSpace(s[0]) then LStripSpace(s[1..]) else s
  }

  /** `s.strip()`: a contiguous slice of `s` with no whitespace at either end,
      everything cut off being whitespace. */
  function Strip(s: string): (r: string)
    ensures r == [] || (!IsSpace(r[0]) && !IsSpace(r[|r| - 1]))
    ensures exists i :: TrimmedAt(s, r, i)
  {
    var l := LStripSpace(s);
    var r := RStripSpace(l);
    StripFacts(s, l, r);
    r
  }

  /** `r` is the slice of `s` starting at `i`, and only whitespace lies outside it. */
  predicate TrimmedAt(s: string, r: string, i: int) {
    0 <= i <= |s| - |r| && r == s[i..i + |r|]
    && (forall k :: 0 <= k < i ==> IsSpace(s[k]))
    && (forall k :: i + |r| <= k < |s| ==> IsSpace(s[k]))
  }

  lemma {:induction false} StripFacts(s: string, l: string, r: string)
    requires l == LStripSpace(s) && r == RStripSpace(l)
    ensures TrimmedAt(s, r, |s| - |l|)
  {
    var i := |s| - |l|;
    assert l == s[i..];
    assert r == l[..|r|];
    assert r == s[i..i + |r|];
    forall k | 0 <= k < i
      ensures IsSpace(s[k])
    {
    }
    forall k | i + |r| <= k < |s|
      ensures IsSpace(s[k])
    {
      assert s[k] == l[k - i];
      assert |r| <= k - i < |l|;
    }
  }

  /** `s.strip()` is empty exactly when `s` is all whitespace. */
  lemma {:induction false} StripEmpty(s: string)
    ensures Strip(s) == "" <==> forall k :: 0 <= k < |s| ==> IsSpace(s[k])
  {
    var r := Strip(s);
    if r == "" {
      var i :| TrimmedAt(s, r, i);
    } else {
      var i :| TrimmedAt(s, r, i);
      assert s[i] == r[0];
    }
  }
}
