/** The Python runtime as far as the bots touch it: the JSON values the
    remote service returns, the exceptions the purchase loops raise or
    catch, the builtin operations they apply to replies (`len`, `x[k]`,
    `x.get(k)`, `x[0]`, `in`, `==`, truth testing, `str()`), and the
    `configparser` lookups. */
module Py {
  import opened Strings

  datatype Option<T> = None | Some(value: T)

  /** A decoded JSON value. Numbers that are not integers are not modelled. */
  datatype Value =
    | VNone
    | VBool(b: bool)
    | VInt(i: int)
    | VStr(s: string)
    | VList(items: seq<Value>)
    | VDict(fields: map<string, Value>)

  /** Which `TypeError` the interpreter raises. */
  datatype TypeErrorKind =
    | NotSubscriptable            // `None['k']`, `3[0]`
    | StringIndicesMustBeIntegers // `'abc'['k']`
    | ListIndicesMustBeIntegers   // `[1]['k']`
    | HasNoLen                    // `len(None)`
    | NotIterable                 // `'create' in None`
    | InStringNeedsString         // `3 in 'abc'`
    | Unhashable                  // `[1] in {}`
    | NotAllArgumentsConverted    // `'- %s' % ('a', 'b')`

  datatype Exc =
    | ApiError(message: string)         // ovh.exceptions.APIError
    | KeyError(key: Value)
    | TypeError(kind: TypeErrorKind)
    | AttributeError(name: string)
    | IndexError
    | NameError(name: string)
    | UnboundLocalError(name: string)
    | SystemExit(code: int)             // sys.exit(code), exit(code)
    | FileNotFoundError(path: string)

  /** How a Python expression or call ends: with a value or an exception. */
  datatype Flow<T> = Normal(value: T) | Raise(exc: Exc)

  /** How a run of the program ends: normally, through `sys.exit`, or with
      an uncaught exception. */
  datatype Outcome = Completed | Exit(code: int) | Crash(exc: Exc)

  /** What the interpreter does with an exception nobody catches. */
  function Uncaught(e: Exc): (o: Outcome)
    ensures o.Exit? <==> e.SystemExit?
    ensures o.Exit? ==> o.code == e.code
    ensures o.Crash? ==> o.exc == e
  {
    if e.SystemExit? then Exit(e.code) else Crash(e)
  }

  /** Python truth testing (`if x`, `not x`). */
  predicate Truthy(v: Value)
  {
    match v
    case VNone => false
    case VBool(b) => b
    case VInt(i) => i != 0
    case VStr(s) => |s| > 0
    case VList(items) => |items| > 0
    case VDict(fields) => |fields| > 0
  }

  /** `len(v)`; for sized values it agrees with truth testing. */
  function Len(v: Value): (r: Flow<nat>)
    ensures r.Normal? <==> v.VStr? || v.VList? || v.VDict?
    ensures r.Normal? ==> (r.value > 0 <==> Truthy(v))
    ensures r.Raise? ==> r.exc == TypeError(HasNoLen)
  {
    match v
    case VStr(s) => Normal(|s|)
    case VList(items) => Normal(|items|)
    case VDict(fields) => Normal(|fields|)
    case _ => Raise(TypeError(HasNoLen))
  }

  /** `v[key]` with a string key. */
  function Item(v: Value, key: string): (r: Flow<Value>)
    ensures r.Normal? <==> v.VDict? && key in v.fields
    ensures r.Normal? ==> r.value == v.fields[key]
    ensures v.VDict? && key !in v.fields ==> r == Raise(KeyError(VStr(key)))
  {
    match v
    case VDict(fields) => if key in fields then Normal(fields[key]) else Raise(KeyError(VStr(key)))
    case VList(_) => Raise(TypeError(ListIndicesMustBeIntegers))
    case VStr(_) => Raise(TypeError(StringIndicesMustBeIntegers))
    case _ => Raise(TypeError(NotSubscriptable))
  }

  /** `v.get(key)`: None for a missing key; only dicts have `get`. */
  function DictGet(v: Value, key: string): (r: Flow<Value>)
    ensures r.Normal? <==> v.VDict?
    ensures r.Normal? ==> r.value == if key in v.fields then v.fields[key] else VNone
  {
    match v
    case VDict(fields) => Normal(if key in fields then fields[key] else VNone)
    case _ => Raise(AttributeError("get"))
  }

  /** `v[0]`. Dict keys are strings, so a dict never has the key 0. */
  function Index0(v: Value): (r: Flow<Value>)
    ensures v.VList? && |v.items| > 0 ==> r == Normal(v.items[0])
    ensures v.VList? && |v.items| == 0 ==> r == Raise(IndexError)
  {
    match v
    case VList(items) => if |items| > 0 then Normal(items[0]) else Raise(IndexError)
    case VStr(s) => if |s| > 0 then Normal(VStr([s[0]])) else Raise(IndexError)
    case VDict(_) => Raise(KeyError(VInt(0)))
    case _ => Raise(TypeError(NotSubscriptable))
  }

  /** Python `==` on JSON values: structural, except that `True == 1` and
      `False == 0`. */
  predicate PyEq(a: Value, b: Value)
    decreases a
  {
    match (a, b)
    case (VBool(x), VInt(i)) => i == (if x then 1 else 0)
    case (VInt(i), VBool(x)) => i == (if x then 1 else 0)
    case (VList(xs), VList(ys)) =>
      |xs| == |ys| && forall k :: 0 <= k < |xs| ==> PyEq(xs[k], ys[k])
    case (VDict(m), VDict(n)) =>
      m.Keys == n.Keys && forall k :: k in m ==> PyEq(m[k], n[k])
    case _ => a == b
  }

  /** A string equals only the same string. */
  lemma StrEqOnlyStr(s: string, v: Value)
    ensures PyEq(VStr(s), v) <==> v == VStr(s)
  {
  }

  /** Comparing with a string is string equality. */
  lemma EqStrIsStrEq(v: Value, s: string)
    ensures PyEq(v, VStr(s)) <==> v == VStr(s)
  {
  }

  /** `needle in hay`. */
  function In(needle: Value, hay: Value): (r: Flow<bool>)
    ensures hay.VList? ==> r == Normal(exists k | 0 <= k < |hay.items| :: PyEq(needle, hay.items[k]))
    ensures hay.VStr? && needle.VStr? ==> r == Normal(Contains(hay.s, needle.s))
    ensures hay.VNone? || hay.VBool? || hay.VInt? ==> r == Raise(TypeError(NotIterable))
  {
    match hay
    case VList(items) => Normal(exists k | 0 <= k < |items| :: PyEq(needle, items[k]))
    case VStr(h) =>
      if needle.VStr? then Normal(Contains(h, needle.s)) else Raise(TypeError(InStringNeedsString))
    case VDict(fields) =>
      if needle.VList? || needle.VDict? then Raise(TypeError(Unhashable))
      else Normal(needle.VStr? && needle.s in fields)
    case _ => Raise(TypeError(NotIterable))
  }

  /** A string is never found in a list of dicts: Python compares the string
      with each dict, and a string never equals a dict. */
  lemma {:induction false} StrNotInRecords(s: string, items: seq<Value>)
    requires forall k | 0 <= k < |items| :: items[k].VDict?
    ensures In(VStr(s), VList(items)) == Normal(false)
  {
    forall k | 0 <= k < |items|
      ensures !PyEq(VStr(s), items[k])
    {
      StrEqOnlyStr(s, items[k]);
    }
  }

  /** `str(v)` for the values that end up in request paths and messages.
      Lists and dicts are rendered as a fixed marker instead of their repr. */
  function Str(v: Value): string
  {
    match v
    case VNone => "None"
    case VBool(b) => if b then "True" else "False"
    case VInt(i) => IntToString(i)
    case VStr(s) => s
    case VList(_) => "[...]"
    case VDict(_) => "{...}"
  }

  /** A parsed configuration file: section name to options. Option names
      are kept as the code spells them in its lookups. */
  type Config = map<string, map<string, string>>

  /** `conf[name]` on a configuration or `section[key]` on a section: a
      missing name raises KeyError. */
  function Lookup<V>(m: map<string, V>, key: string): (r: Flow<V>)
    ensures r.Normal? <==> key in m
    ensures r.Normal? ==> r.value == m[key]
    ensures r.Raise? ==> r.exc == KeyError(VStr(key))
  {
    if key in m then Normal(m[key]) else Raise(KeyError(VStr(key)))
  }
}
