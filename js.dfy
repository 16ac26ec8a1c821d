/** JavaScript values and the few string operations of the JavaScript runtime that the
    webhook code relies on: truthiness, `x || fallback`, `String.prototype.trim`,
    `split('/').pop()`, `replace` with a string pattern and number-to-string conversion.
    Strings are sequences of `char`; lengths count characters, not UTF-16 code units. */
module Js {

  datatype Option<+T> = None | Some(value: T) {
    function GetOr(default: T): T {
      match this
      case Some(v) => v
      case None => default
    }
  }

  /** A value the code expects to be an object of shape T: either a primitive
      (null, undefined, a number, a string, a boolean), of which only the truthiness
      matters, or an object whose properties are read as T. Reading a property of a
      truthy primitive gives undefined. */
  datatype JsInput<+T> = Primitive(truthy: bool) | Object(fields: T)

  /** `if (v)` for a value that is a primitive or an object: objects are always truthy. */
  predicate Truthy<T>(v: JsInput<T>) {
    match v
    case Primitive(t) => t
    case Object(_) => true
  }

  /** `if (s)` for a property holding a string: absent (undefined, null) and '' are falsy. */
  predicate TruthyStr(s: Option<string>) {
    s.Some? && s.value != ""
  }

  /** `s || fallback` for a property holding a string. */
  function OrElse(s: Option<string>, fallback: string): string {
    if TruthyStr(s) then s.value else fallback
  }

  /** `${s}` for a property that may be absent: undefined renders as 'undefined'. */
  function Render(s: Option<string>): string {
    match s
    case Some(v) => v
    case None => "undefined"
  }

  /** The value `send` of src/notifier.mjs receives under the name `log`: nothing, a
      string, or a logger object (whose `info`/`error` methods are the console). */
  datatype LogArg = Undefined | Text(text: string) | LoggerObject

  /** The `log` argument of the module-style publisher, consumer and webhook processor:
      a logger instance, or nothing. Their `if (log) log.info(...)` guards only ever
      see one of these. */
  datatype Logger = NoLogger | LoggerInstance

  /** Truthiness of a `log` argument. */
  predicate TruthyLog(a: LogArg) {
    match a
    case Undefined => false
    case Text(s) => s != ""
    case LoggerObject => true
  }

  /** `${a}` for a `log` argument used in a string; a plain object renders as
      '[object Object]'. Undefined is mapped to '' (it only ever reaches a truthiness test). */
  function LogAsString(a: LogArg): (r: string)
    ensures r != "" <==> TruthyLog(a)
  {
    match a
    case Undefined => ""
    case Text(s) => s
    case LoggerObject => "[object Object]"
  }

  // ---------------------------------------------------------------------------
  // String operations

  /** `s.startsWith(p)`. */
  predicate StartsWith(s: string, p: string) {
    p <= s
  }

  /** `s.endsWith(p)`. */
  predicate EndsWith(s: string, p: string) {
    |p| <= |s| && s[|s| - |p|..] == p
  }

  lemma EndsWithConcat(a: string, b: string)
    ensures EndsWith(a + b, b)
  {
    assert (a + b)[|a + b| - |b|..] == b;
  }

  /** WhiteSpace and LineTerminator code points of ECMAScript: what `trim` removes. */
  predicate IsJsSpace(c: char) {
    || c == '\t' || c == '\n' || c == '\U{B}' || c == '\U{C}' || c == '\r' || c == ' '
    || c == '\U{A0}' || c == '\U{1680}' || ('\U{2000}' <= c <= '\U{200A}')
    || c == '\U{2028}' || c == '\U{2029}' || c == '\U{202F}' || c == '\U{205F}'
    || c == '\U{3000}' || c == '\U{FEFF}'
  }

  /** `s.trimStart()`. */
  function TrimStart(s: string): string {
    if s != [] && IsJsSpace(s[0]) then TrimStart(s[1..]) else s
  }

  /** `s.trimEnd()`. */
  function TrimEnd(s: string): string {
    if s != [] && IsJsSpace(s[|s| - 1]) then TrimEnd(s[..|s| - 1]) else s
  }

  /** `s.trim()`. */
  function Trim(s: string): string {
    TrimEnd(TrimStart(s))
  }

  /** Leading whitespace removed: the longest suffix that does not start with whitespace. */
  lemma {:induction false} TrimStartSpec(s: string)
    ensures var r := TrimStart(s);
            && |r| <= |s| && r == s[|s| - |r|..]
            && (r == [] || !IsJsSpace(r[0]))
            && forall k :: 0 <= k < |s| - |r| ==> IsJsSpace(s[k])
  {
    if s != [] && IsJsSpace(s[0]) {
      var t := s[1..];
      TrimStartSpec(t);
      var r := TrimStart(t);
      assert TrimStart(s) == r;
      assert t[|t| - |r|..] == s[|s| - |r|..];
      forall k | 0 <= k < |s| - |r|
        ensures IsJsSpace(s[k])
      {
        if k > 0 {
          assert s[k] == t[k - 1];
        }
      }
    }
  }

  /** Trailing whitespace removed: the longest prefix that does not end with whitespace. */
  lemma {:induction false} TrimEndSpec(s: string)
    ensures var r := TrimEnd(s);
            && |r| <= |s| && r == s[..|r|]
            && (r == [] || !IsJsSpace(r[|r| - 1]))
            && forall k :: |r| <= k < |s| ==> IsJsSpace(s[k])
  {
    if s != [] && IsJsSpace(s[|s| - 1]) {
      var t := s[..|s| - 1];
      TrimEndSpec(t);
      var r := TrimEnd(t);
      assert TrimEnd(s) == r;
      assert t[..|r|] == s[..|r|];
      forall k | |r| <= k < |s|
        ensures IsJsSpace(s[k])
      {
        if k < |t| {
          assert s[k] == t[k];
        }
      }
    }
  }

  /** `trim` leaves neither leading nor trailing whitespace and never lengthens. */
  lemma TrimSpec(s: string)
    ensures var r := Trim(s);
            |r| <= |s| && (r == [] || (!IsJsSpace(r[0]) && !IsJsSpace(r[|r| - 1])))
  {
    TrimStartSpec(s);
    var t := TrimStart(s);
    TrimEndSpec(t);
    var r := TrimEnd(t);
    assert r != [] ==> r[0] == t[0];
  }

  /** `trim` changes nothing when the string neither starts nor ends with whitespace. */
  lemma TrimUnpadded(s: string)
    requires s == [] || (!IsJsSpace(s[0]) && !IsJsSpace(s[|s| - 1]))
    ensures Trim(s) == s
  {
  }

  /** `s.substring(0, n)` and `s.substr(0, n)`: the first n characters, or all of s. */
  function Take(s: string, n: nat): (r: string)
    ensures |r| == if |s| < n then |s| else n
    ensures r <= s
  {
    if |s| <= n then s else s[..n]
  }

  /** `s.split('/').pop()`: the text after the last '/', or all of s when it has none. */
  function LastSegment(s: string): (r: string)
    ensures '/' !in r
    ensures |r| <= |s| && r == s[|s| - |r|..]
    ensures |r| < |s| ==> s[|s| - |r| - 1] == '/'
  {
    if s == [] then []
    else if s[|s| - 1] == '/' then []
    else LastSegment(s[..|s| - 1]) + [s[|s| - 1]]
  }

  /** `s.replace(pat, rep)` with a string pattern: only the first occurrence is replaced. */
  function ReplaceFirst(s: string, pat: string, rep: string): string
    decreases |s|
  {
    if pat <= s then rep + s[|pat|..]
    else if s == [] then s
    else [s[0]] + ReplaceFirst(s[1..], pat, rep)
  }

  /** `s.replace(/^p/, '')`: the prefix p removed when s starts with it. */
  function StripPrefix(s: string, p: string): (r: string)
    ensures p <= s ==> s == p + r
    ensures !(p <= s) ==> r == s
  {
    if p <= s then s[|p|..] else s
  }

  /** Replacing the first occurrence of a prefix removes exactly that prefix. */
  lemma ReplaceFirstOfPrefix(s: string, p: string)
    requires p <= s
    ensures ReplaceFirst(s, p, "") == s[|p|..] && s == p + ReplaceFirst(s, p, "")
  {
  }

  /** `arr.join(sep)`. */
  function Join(items: seq<string>, sep: string): (r: string)
    ensures items == [] ==> r == ""
    ensures |items| == 1 ==> r == items[0]
  {
    if items == [] then ""
    else if |items| == 1 then items[0]
    else items[0] + sep + Join(items[1..], sep)
  }

  function DigitChar(d: nat): (c: char)
    requires d < 10
    ensures '0' <= c <= '9'
  {
    ['0', '1', '2', '3', '4', '5', '6', '7', '8', '9'][d]
  }

  /** Decimal rendering of a non-negative integer, as template literals give it. */
  function NatToString(n: nat): (r: string)
    ensures r != []
    ensures forall k :: 0 <= k < |r| ==> '0' <= r[k] <= '9'
  {
    if n < 10 then [DigitChar(n)] else NatToString(n / 10) + [DigitChar(n % 10)]
  }

  /** Decimal rendering of an integer, with a leading '-' when it is negative. */
  function IntToString(i: int): (r: string)
    ensures r != []
    ensures (r[0] == '-') <==> i < 0
  {
    if i < 0 then "-" + NatToString(-i) else NatToString(i)
  }
}
