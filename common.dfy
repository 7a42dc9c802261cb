/** Values shared by every module of the model: the exceptions the services
    raise and their `str`, optional values and results, the JSON payloads the
    HTTP collaborators answer with, and Python's `sep.join`. */
module Common {

  datatype Option<+T> = None | Some(value: T)

  /** An exception as the backend raises it. */
  datatype Error =
    | ValueError(message: string)             // ValueError(message) or Exception(message)
    | HttpError(status: nat, detail: string)  // fastapi.HTTPException(status_code, detail)
    | Failure(message: string)                // any other exception, known by its str()

  /** The outcome of a step that may raise: `Err` carries the exception. */
  datatype Result<+T> = Ok(value: T) | Err(error: Error) {
    predicate IsFailure() { Err? }

    function PropagateFailure<U>(): Result<U>
      requires Err?
    {
      Err(error)
    }

    function Extract(): T
      requires Ok?
    {
      value
    }
  }

  /** Python's str(e). An HTTPException prints as "<status>: <detail>". */
  function Str(e: Error): (s: string)
    ensures e.ValueError? || e.Failure? ==> s == e.message
    ensures e.HttpError? ==> |s| >= |e.detail| && s[|s| - |e.detail|..] == e.detail
  {
    match e
    case ValueError(m) => m
    case Failure(m) => m
    case HttpError(code, d) => Decimal(code) + ": " + d
  }

  /** The decimal digits of n, as Python's str(n) writes them. */
  function Decimal(n: nat): (r: string)
    ensures |r| > 0
    ensures forall i :: 0 <= i < |r| ==> '0' <= r[i] <= '9'
  {
    var digit := ['0' + (n % 10) as char];
    if n < 10 then digit else Decimal(n / 10) + digit
  }

  /** The message Python gives `range(0, n, 0)`. */
  const ZeroStep: Error := ValueError("range() arg 3 must not be zero")

  /** Python's sep.join(parts). */
  function Join(sep: string, parts: seq<string>): string
  {
    if |parts| == 0 then ""
    else if |parts| == 1 then parts[0]
    else parts[0] + sep + Join(sep, parts[1..])
  }

  /** A decoded JSON document. */
  datatype Json =
    | JNull
    | JBool(b: bool)
    | JNum(n: int)
    | JStr(s: string)
    | JArr(items: seq<Json>)
    | JObj(fields: map<string, Json>)

  /** Python truthiness of a decoded JSON value. */
  predicate Truthy(j: Json)
  {
    match j
    case JNull => false
    case JBool(b) => b
    case JNum(n) => n != 0
    case JStr(s) => s != ""
    case JArr(items) => items != []
    case JObj(fields) => fields != map[]
  }

  /** Python's `key in j` for a decoded object; other values have no keys here. */
  predicate Has(j: Json, key: string)
  {
    j.JObj? && key in j.fields
  }

  /** Python's `j[key]`: a missing key raises KeyError, whose str is the quoted key. */
  function Get(j: Json, key: string): (r: Result<Json>)
    ensures r.Ok? <==> Has(j, key)
    ensures r.Ok? ==> r.value == j.fields[key]
    ensures j.JObj? && r.Err? ==> r.error == Failure("'" + key + "'")
  {
    match j
    case JObj(m) => if key in m then Ok(m[key]) else Err(Failure("'" + key + "'"))
    case JArr(_) => Err(Failure("list indices must be integers or slices, not str"))
    case JStr(_) => Err(Failure("string indices must be integers"))
    case JNull => Err(Failure("'NoneType' object is not subscriptable"))
    case JBool(_) => Err(Failure("'bool' object is not subscriptable"))
    case JNum(_) => Err(Failure("'int' object is not subscriptable"))
  }

  /** Python's `j[0]`: the first element of a list, else the error Python raises. */
  function First(j: Json): (r: Result<Json>)
    ensures r.Ok? ==> (j.JArr? && |j.items| > 0 && r.value == j.items[0]) || j.JStr?
    ensures j.JArr? ==> (r.Ok? <==> |j.items| > 0)
  {
    match j
    case JArr(items) => if |items| > 0 then Ok(items[0]) else Err(Failure("list index out of range"))
    case JStr(s) => if |s| > 0 then Ok(JStr([s[0]])) else Err(Failure("string index out of range"))
    case JObj(_) => Err(Failure("0"))
    case JNull => Err(Failure("'NoneType' object is not subscriptable"))
    case JBool(_) => Err(Failure("'bool' object is not subscriptable"))
    case JNum(_) => Err(Failure("'int' object is not subscriptable"))
  }

  /** A JSON value used where the backend needs text (a URL, a transcript). */
  function Text(j: Json): (r: Result<string>)
    ensures r.Ok? <==> j.JStr?
    ensures r.Ok? ==> r.value == j.s
  {
    if j.JStr? then Ok(j.s) else Err(Failure("expected a string"))
  }

  /** `j[key]` read as text. */
  function GetText(j: Json, key: string): (r: Result<string>)
    ensures r.Ok? <==> Has(j, key) && j.fields[key].JStr?
    ensures r.Ok? ==> r.value == j.fields[key].s
  {
    var v :- Get(j, key);
    Text(v)
  }

  /** Python's str.isspace for one character. */
  predicate PySpace(c: char)
  {
    || c == ' ' || '\t' <= c <= '\r' || '\U{1c}' <= c <= '\U{1f}'
    || c == '\U{85}' || c == '\U{a0}' || c == '\U{1680}' || '\U{2000}' <= c <= '\U{200a}'
    || c == '\U{2028}' || c == '\U{2029}' || c == '\U{202f}' || c == '\U{205f}' || c == '\U{3000}'
  }

  /** The white space JavaScript's String.prototype.trim removes. */
  predicate JsSpace(c: char)
  {
    || c == ' ' || '\t' <= c <= '\r' || c == '\U{a0}' || c == '\U{1680}' || '\U{2000}' <= c <= '\U{200a}'
    || c == '\U{2028}' || c == '\U{2029}' || c == '\U{202f}' || c == '\U{205f}' || c == '\U{3000}'
    || c == '\U{feff}'
  }

  /** How many white-space characters `s` starts with. */
  function LeadingSpace(s: string, space: char -> bool): (n: nat)
    ensures n <= |s|
    ensures forall k :: 0 <= k < n ==> space(s[k])
    ensures n < |s| ==> !space(s[n])
    decreases |s|
  {
    if s == [] || !space(s[0]) then 0
    else
      var n := LeadingSpace(s[1..], space);
      assert forall k :: 1 <= k < n + 1 ==> s[k] == s[1..][k - 1];
      1 + n
  }

  /** Where the white space `s` ends with begins. */
  function TrailingSpace(s: string, space: char -> bool): (m: nat)
    ensures m <= |s|
    ensures forall k :: m <= k < |s| ==> space(s[k])
    ensures m > 0 ==> !space(s[m - 1])
    decreases |s|
  {
    if s == [] || !space(s[|s| - 1]) then |s|
    else
      var m := TrailingSpace(s[..|s| - 1], space);
      assert forall k :: m <= k < |s| - 1 ==> s[k] == s[..|s| - 1][k];
      m
  }

  /** Python's `s.strip()` (with `PySpace`) or JavaScript's `s.trim()` (with
      `JsSpace`): the middle of `s` between white space at both ends, which is
      empty exactly when `s` is all white space. */
  function Strip(s: string, space: char -> bool): (r: string)
    ensures var i := LeadingSpace(s, space); i + |r| <= |s| && r == s[i..i + |r|]
    ensures forall k :: 0 <= k < |s| && !(LeadingSpace(s, space) <= k < LeadingSpace(s, space) + |r|) ==> space(s[k])
    ensures r != [] ==> !space(r[0]) && !space(r[|r| - 1])
    ensures r == [] <==> forall k :: 0 <= k < |s| ==> space(s[k])
  {
    var i := LeadingSpace(s, space);
    var j := TrailingSpace(s, space);
    if i < j then s[i..j] else []
  }

  /** `needle` occurs in `hay` as a contiguous part (Python's `in` on strings,
      JavaScript's `includes`). */
  predicate IsInfix(needle: string, hay: string)
    decreases |hay|
  {
    needle <= hay || (hay != [] && IsInfix(needle, hay[1..]))
  }

  /** `a` is `b` with some elements left out, the rest in their order. */
  predicate IsSubsequence<T(==)>(a: seq<T>, b: seq<T>)
    decreases |b|
  {
    a == [] || (b != [] && ((a[0] == b[0] && IsSubsequence(a[1..], b[1..])) || IsSubsequence(a, b[1..])))
  }

  /** The elements of `s` that satisfy `p`, in order (a list comprehension
      with a condition, or JavaScript's `filter`). */
  function Filter<T(==)>(s: seq<T>, p: T -> bool): (r: seq<T>)
    ensures IsSubsequence(r, s)
    ensures forall i :: 0 <= i < |r| ==> p(r[i])
    ensures forall i :: 0 <= i < |s| && p(s[i]) ==> s[i] in r
    decreases |s|
  {
    if s == [] then []
    else
      var rest := Filter(s[1..], p);
      if p(s[0]) then
        assert forall i :: 1 <= i < |s| ==> s[i] == s[1..][i - 1];
        [s[0]] + rest
      else
        assert forall i :: 1 <= i < |s| ==> s[i] == s[1..][i - 1];
        rest
  }

  /** Filtering again changes nothing, and a list whose elements all pass is
      kept whole. */
  lemma {:induction false} FilterKeepsPassing<T>(s: seq<T>, p: T -> bool)
    requires forall i :: 0 <= i < |s| ==> p(s[i])
    ensures Filter(s, p) == s
    decreases |s|
  {
    if s != [] {
      FilterKeepsPassing(s[1..], p);
    }
  }

  /** Nothing is kept exactly when nothing passes. */
  lemma {:induction false} FilterEmpty<T>(s: seq<T>, p: T -> bool)
    ensures Filter(s, p) == [] <==> forall i :: 0 <= i < |s| ==> !p(s[i])
    decreases |s|
  {
    if s != [] {
      FilterEmpty(s[1..], p);
      assert forall i :: 1 <= i < |s| ==> s[i] == s[1..][i - 1];
    }
  }

  lemma FilterIdempotent<T>(s: seq<T>, p: T -> bool)
    ensures Filter(Filter(s, p), p) == Filter(s, p)
  {
    FilterKeepsPassing(Filter(s, p), p);
  }
}
