/** JSON values as the scraper receives them from the remote API (after
    `req.json()`), together with the few pieces of Python semantics that the
    scraper applies to them: subscripting, `.get`, `in`, iteration, list
    concatenation, f-string formatting and `str.replace`.  Python exceptions
    become `Err` values carrying the exception kind. */
module PyJson {

  /** A parsed JSON document.  Objects keep their keys in insertion order, as
      Python dicts do.  A key may occur more than once; lookup (`Find`)
      takes the last occurrence, as `json.loads` does. */
  datatype Json =
    | JNull
    | JBool(b: bool)
    | JInt(i: int)
    | JString(s: string)
    | JArray(items: seq<Json>)
    | JObject(fields: seq<(string, Json)>)

  /** The Python exception kinds the scraper can raise. */
  datatype Error = KeyError | IndexError | TypeError | AttributeError | ValueError | TransportError

  datatype Option<T> = None | Some(value: T)

  /** A Python computation: a value, or the exception it raised. */
  datatype Result<T> = Ok(value: T) | Err(error: Error) {
    predicate IsFailure() { Err? }
    function PropagateFailure<U>(): Result<U> requires Err? { Err(error) }
    function Extract(): T requires Ok? { value }
  }

  predicate HasKey(fields: seq<(string, Json)>, key: string) {
    exists i | 0 <= i < |fields| :: fields[i].0 == key
  }

  /** Dictionary lookup: the value stored under `key`, if any.  A parsed
      JSON object with a repeated key keeps the last value (as `json.loads`
      builds its dict), so the search runs from the end. */
  function Find(fields: seq<(string, Json)>, key: string): (r: Option<Json>)
    ensures r.Some? <==> HasKey(fields, key)
    ensures r.Some? ==> exists i | 0 <= i < |fields| ::
      fields[i] == (key, r.value) && forall j | i < j < |fields| :: fields[j].0 != key
  {
    if fields == [] then None
    else
      var n := |fields| - 1;
      if fields[n].0 == key then Some(fields[n].1)
      else
        var r := Find(fields[..n], key);
        assert HasKey(fields, key) ==> HasKey(fields[..n], key) by {
          if HasKey(fields, key) {
            var i :| 0 <= i < |fields| && fields[i].0 == key;
            assert fields[..n][i].0 == key;
          }
        }
        r
  }

  /** `j[key]` for a string key: a dict lookup (KeyError when missing); any
      other value is not subscriptable by a string (TypeError). */
  function Item(j: Json, key: string): (r: Result<Json>)
    ensures r.Ok? <==> j.JObject? && HasKey(j.fields, key)
    ensures r.Err? && j.JObject? ==> r.error == KeyError
  {
    match j
    case JObject(fields) =>
      (match Find(fields, key)
       case Some(v) => Ok(v)
       case None => Err(KeyError))
    case _ => Err(TypeError)
  }

  /** `j.get(key, default)`: only dicts have `.get` (AttributeError otherwise). */
  function Get(j: Json, key: string, default: Json): (r: Result<Json>)
    ensures r.Ok? <==> j.JObject?
    ensures j.JObject? && !HasKey(j.fields, key) ==> r == Ok(default)
    ensures j.JObject? && HasKey(j.fields, key) ==> r == Item(j, key)
  {
    match j
    case JObject(fields) =>
      (match Find(fields, key)
       case Some(v) => Ok(v)
       case None => Ok(default))
    case _ => Err(AttributeError)
  }

  /** `word` occurs in `s` starting at index `k`. */
  predicate OccursAt(word: string, s: string, k: nat) {
    k + |word| <= |s| && s[k..k + |word|] == word
  }

  /** `word in s` for strings. */
  predicate Occurs(word: string, s: string) {
    exists k: nat | k <= |s| :: OccursAt(word, s, k)
  }

  /** `key in j`: key membership for dicts, element equality for lists,
      substring search for strings; None, numbers and booleans are not
      iterable (TypeError). */
  function Contains(j: Json, key: string): (r: Result<bool>)
    ensures r.Ok? <==> (j.JObject? || j.JArray? || j.JString?)
    ensures j.JObject? ==> r == Ok(HasKey(j.fields, key))
  {
    match j
    case JObject(fields) => Ok(HasKey(fields, key))
    case JArray(items) => Ok(JString(key) in items)
    case JString(s) => Ok(Occurs(key, s))
    case _ => Err(TypeError)
  }

  /** The values a Python `for` loop visits: list elements, dict keys, or the
      one-character strings of a string. */
  function Iterate(j: Json): (r: Result<seq<Json>>)
    ensures j.JArray? ==> r == Ok(j.items)
    ensures r.Ok? <==> (j.JObject? || j.JArray? || j.JString?)
    ensures r.Ok? && !j.JArray? ==> forall k | 0 <= k < |r.value| :: r.value[k].JString?
  {
    match j
    case JArray(items) => Ok(items)
    case JObject(fields) => Ok(seq(|fields|, k requires 0 <= k < |fields| => JString(fields[k].0)))
    case JString(s) => Ok(seq(|s|, k requires 0 <= k < |s| => JString([s[k]])))
    case _ => Err(TypeError)
  }

  /** `xs[-1]`: the last element of a list or the last character of a
      string; IndexError when empty; a dict has no key `-1` (KeyError). */
  function LastOf(j: Json): (r: Result<Json>)
    ensures j.JArray? && j.items != [] ==> r == Ok(j.items[|j.items| - 1])
    ensures r.Ok? ==> (j.JArray? || j.JString?)
  {
    match j
    case JArray(items) => if items == [] then Err(IndexError) else Ok(items[|items| - 1])
    case JString(s) => if s == [] then Err(IndexError) else Ok(JString([s[|s| - 1]]))
    case JObject(_) => Err(KeyError)
    case _ => Err(TypeError)
  }

  /** `sum(lists, [])`: left-to-right list concatenation; adding anything
      but a list to a list raises TypeError. */
  function SumLists(lists: seq<Json>): (r: Result<seq<Json>>)
    ensures r.Ok? <==> forall k | 0 <= k < |lists| :: lists[k].JArray?
  {
    if lists == [] then Ok([])
    else
      var init :- SumLists(lists[..|lists| - 1]);
      var last := lists[|lists| - 1];
      if last.JArray? then Ok(init + last.items) else Err(TypeError)
  }

  function DigitChar(d: nat): (c: char)
    requires d < 10
    ensures '0' <= c <= '9'
  {
    "0123456789"[d]
  }

  predicate IsDigit(c: char) { '0' <= c <= '9' }

  predicate AllDigits(s: string) { forall k | 0 <= k < |s| :: IsDigit(s[k]) }

  /** Decimal notation of a natural number, as `str(n)` writes it. */
  function NatStr(n: nat): (r: string)
    ensures |r| > 0 && AllDigits(r)
    ensures (|r| == 1) == (n < 10)
  {
    if n < 10 then [DigitChar(n)] else NatStr(n / 10) + [DigitChar(n % 10)]
  }

  function DigitValue(c: char): (d: nat) requires IsDigit(c) { (c - '0') as nat }

  /** Reads a decimal numeral back; used to show `NatStr` loses nothing. */
  function ParseNat(s: string): (n: nat)
    requires AllDigits(s)
  {
    if s == [] then 0 else 10 * ParseNat(s[..|s| - 1]) + DigitValue(s[|s| - 1])
  }

  lemma {:induction false} ParseNatStr(n: nat)
    ensures ParseNat(NatStr(n)) == n
  {
    if n >= 10 {
      var s := NatStr(n);
      assert s[..|s| - 1] == NatStr(n / 10);
      ParseNatStr(n / 10);
    }
  }

  lemma NatStrInjective(i: nat, j: nat)
    requires NatStr(i) == NatStr(j)
    ensures i == j
  {
    ParseNatStr(i);
    ParseNatStr(j);
  }

  /** `str(n)` for a Python int: a minus sign before negative numbers. */
  function IntStr(n: int): (r: string)
    ensures n >= 0 ==> r == NatStr(n)
    ensures n < 0 ==> r == "-" + NatStr(-n)
  {
    if n < 0 then "-" + NatStr(-n) else NatStr(n)
  }

  /** `sep.join(parts)`. */
  function Join(sep: string, parts: seq<string>): (r: string)
    ensures parts == [] ==> r == ""
    ensures |parts| == 1 ==> r == parts[0]
  {
    if parts == [] then ""
    else if |parts| == 1 then parts[0]
    else parts[0] + sep + Join(sep, parts[1..])
  }

  /** Joining one more part appends the separator and that part. */
  lemma {:induction false} JoinSnoc(sep: string, parts: seq<string>, p: string)
    requires parts != []
    ensures Join(sep, parts + [p]) == Join(sep, parts) + sep + p
  {
    var all := parts + [p];
    assert all[1..] == parts[1..] + [p];
    if |parts| > 1 {
      JoinSnoc(sep, parts[1..], p);
    }
  }

  /** `repr(j)` as Python prints a value nested in a list or dict.  String
      quoting is simplified to single quotes without escapes. */
  function Repr(j: Json): (r: string)
    ensures |r| > 0
  {
    match j
    case JNull => "None"
    case JBool(b) => if b then "True" else "False"
    case JInt(n) => IntStr(n)
    case JString(s) => "'" + s + "'"
    case JArray(items) =>
      "[" + Join(", ", seq(|items|, k requires 0 <= k < |items| => Repr(items[k]))) + "]"
    case JObject(fields) =>
      "{" + Join(", ", seq(|fields|, k requires 0 <= k < |fields| =>
                              "'" + fields[k].0 + "': " + Repr(fields[k].1))) + "}"
  }

  /** `f"{j}"`: a string is inserted as is, anything else as its `str`. */
  function Str(j: Json): (r: string)
    ensures j.JString? ==> r == j.s
    ensures j.JInt? ==> r == IntStr(j.i)
  {
    if j.JString? then j.s else Repr(j)
  }

  /** `s.replace(word, "")`: deletes every non-overlapping occurrence of
      `word`, scanning left to right. */
  function Remove(s: string, word: string): (r: string)
    requires |word| > 0
    ensures |r| <= |s|
    decreases |s|
  {
    if |s| < |word| then s
    else if s[..|word|] == word then Remove(s[|word|..], word)
    else [s[0]] + Remove(s[1..], word)
  }

  /** Removing a word that does not occur changes nothing. */
  lemma {:induction false} RemoveAbsent(s: string, word: string)
    requires |word| > 0 && !Occurs(word, s)
    ensures Remove(s, word) == s
  {
    if |s| >= |word| {
      assert !OccursAt(word, s, 0);
      assert !Occurs(word, s[1..]) by {
        forall k: nat | k + |word| <= |s[1..]|
          ensures !OccursAt(word, s[1..], k)
        {
          assert s[1..][k..k + |word|] == s[k + 1..k + 1 + |word|];
          assert !OccursAt(word, s, k + 1);
        }
      }
      RemoveAbsent(s[1..], word);
    }
  }

  /** A leading occurrence is removed, and the rest is processed on its own. */
  lemma RemoveLeading(word: string, t: string)
    requires |word| > 0
    ensures Remove(word + t, word) == Remove(t, word)
  {
    assert (word + t)[..|word|] == word;
    assert (word + t)[|word|..] == t;
  }

  /** `datetime.utcfromtimestamp(j)`, kept as epoch seconds: ints (and
      booleans, which Python treats as 0 and 1) are accepted, anything else
      raises TypeError. */
  function EpochSeconds(j: Json): (r: Result<int>)
    ensures j.JInt? ==> r == Ok(j.i)
    ensures r.Ok? <==> (j.JInt? || j.JBool?)
  {
    match j
    case JInt(n) => Ok(n)
    case JBool(b) => Ok(if b then 1 else 0)
    case _ => Err(TypeError)
  }
}
