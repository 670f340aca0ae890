/** The slice of Python the report script relies on: values produced by
    `json.loads`, the exceptions its expressions can raise, truthiness, the
    `in` operator, `dict.get`, subscription, `len`, `str()`, `str.join` and
    `str.rstrip()`. Every operation that can raise in Python returns an
    `Outcome`, so that the callers can propagate the exception with `:-`. */
module PyValues {

  /** A JSON value as Python holds it after `json.loads`. A dict is its
      entries in insertion order; a Python dict has one entry per key, and
      lookups below use the first matching entry. Numbers are integers. */
  datatype Json =
    | JNull
    | JBool(b: bool)
    | JInt(i: int)
    | JStr(s: string)
    | JList(items: seq<Json>)
    | JDict(entries: seq<Entry>)

  /** One key/value pair of a dict. */
  datatype Entry = Entry(key: string, value: Json)

  /** The exceptions the modelled code can raise. `Raised` is a plain
      `Exception(message)`. */
  datatype Exc =
    | KeyError
    | TypeError
    | AttributeError
    | IndexError
    | Raised(message: string)

  datatype Option<+T> = None | Some(value: T)

  /** The result of evaluating a Python expression: a value, or an exception
      that propagates to the caller. */
  datatype Outcome<+T> = Ok(value: T) | Raise(exc: Exc) {
    predicate IsFailure() {
      Raise?
    }

    function PropagateFailure<U>(): Outcome<U>
      requires Raise?
    {
      Raise(exc)
    }

    function Extract(): T
      requires Ok?
    {
      value
    }
  }

  /** Python's truth value of a JSON-derived object. */
  predicate Truthy(v: Json) {
    match v
    case JNull => false
    case JBool(b) => b
    case JInt(i) => i != 0
    case JStr(s) => |s| > 0
    case JList(items) => |items| > 0
    case JDict(entries) => |entries| > 0
  }

  // ---------------------------------------------------------------- dicts

  /** The key of the in-band error marker, and of an MCP error envelope. */
  const ErrorKey: string := "error"

  ghost predicate HasKey(entries: seq<Entry>, k: string) {
    exists i :: 0 <= i < |entries| && entries[i].key == k
  }

  /** The value stored under `k`, taken from the first entry with that key. */
  function Lookup(entries: seq<Entry>, k: string): (r: Option<Json>)
    ensures r.Some? <==> HasKey(entries, k)
    ensures r.Some? ==> exists i :: 0 <= i < |entries| && entries[i] == Entry(k, r.value)
  {
    if |entries| == 0 then None
    else if entries[0].key == k then Some(entries[0].value)
    else
      var r := Lookup(entries[1..], k);
      assert forall i :: 0 < i < |entries| ==> entries[i] == entries[1..][i - 1];
      assert r.Some? ==> (exists i :: 0 <= i < |entries[1..]| && entries[1..][i] == Entry(k, r.value));
      r
  }

  /** `d.get(k, default)` on a dict's entries. */
  function ValueOr(entries: seq<Entry>, k: string, default: Json): Json {
    match Lookup(entries, k)
    case Some(v) => v
    case None => default
  }

  /** The set of keys of a dict. */
  function Keys(entries: seq<Entry>): set<string> {
    set i | 0 <= i < |entries| :: entries[i].key
  }

  // --------------------------------------------------------- substrings

  ghost predicate OccursAt(k: string, s: string, i: nat) {
    i + |k| <= |s| && s[i..i + |k|] == k
  }

  /** `k` is a substring of `s`, as Python's `k in s` decides it. */
  ghost predicate IsSubstring(k: string, s: string) {
    exists i: nat :: OccursAt(k, s, i)
  }

  /** A left-to-right scan for `k` inside `s`. */
  function Occurs(k: string, s: string): (r: bool)
    ensures r <==> IsSubstring(k, s)
    decreases |s|
  {
    if |s| < |k| then
      assert forall i: nat :: !OccursAt(k, s, i);
      false
    else if k <= s then
      assert OccursAt(k, s, 0);
      true
    else
      var r := Occurs(k, s[1..]);
      assert forall i: nat :: OccursAt(k, s[1..], i) <==> OccursAt(k, s, i + 1) by {
        forall i: nat ensures OccursAt(k, s[1..], i) <==> OccursAt(k, s, i + 1) {
          if i + |k| <= |s[1..]| {
            assert s[1..][i..i + |k|] == s[i + 1..i + 1 + |k|];
          }
        }
      }
      assert r ==> IsSubstring(k, s) by {
        if r {
          var i: nat :| OccursAt(k, s[1..], i);
          assert OccursAt(k, s, i + 1);
        }
      }
      assert IsSubstring(k, s) ==> r by {
        if IsSubstring(k, s) {
          var i: nat :| OccursAt(k, s, i);
          assert OccursAt(k, s, 0) ==> k <= s;
          assert OccursAt(k, s[1..], i - 1);
        }
      }
      r
  }

  // ----------------------------------------------------------- operators

  /** Python's `k in v` for a str `k`: key membership on a dict, element
      membership on a list, substring on a str, and a TypeError ("argument
      is not iterable") on None, a bool or a number. */
  function Contains(v: Json, k: string): (r: Outcome<bool>)
    ensures v.JDict? ==> r == Ok(HasKey(v.entries, k))
    ensures v.JList? ==> r == Ok(exists i :: 0 <= i < |v.items| && v.items[i] == JStr(k))
    ensures v.JStr? ==> r == Ok(IsSubstring(k, v.s))
    ensures r.Raise? <==> !(v.JDict? || v.JList? || v.JStr?)
    ensures r.Raise? ==> r.exc == TypeError
  {
    match v
    case JDict(entries) => Ok(Lookup(entries, k).Some?)
    case JList(items) => Ok(JStr(k) in items)
    case JStr(s) => Ok(Occurs(k, s))
    case _ => Raise(TypeError)
  }

  /** Python's `v.get(k, default)`: only a dict has `get`. */
  function Get(v: Json, k: string, default: Json): (r: Outcome<Json>)
    ensures r.Ok? <==> v.JDict?
    ensures r.Raise? ==> r.exc == AttributeError
    ensures v.JDict? && !HasKey(v.entries, k) ==> r == Ok(default)
    ensures v.JDict? && HasKey(v.entries, k) ==> r == Ok(Lookup(v.entries, k).value)
  {
    if v.JDict? then Ok(ValueOr(v.entries, k, default)) else Raise(AttributeError)
  }

  /** Python's `v[k]` for a str `k`: a KeyError on a dict without `k`, a
      TypeError on anything that is not a dict. */
  function Index(v: Json, k: string): (r: Outcome<Json>)
    ensures r.Ok? <==> v.JDict? && HasKey(v.entries, k)
    ensures r.Ok? ==> exists i :: 0 <= i < |v.entries| && v.entries[i] == Entry(k, r.value)
    ensures r.Raise? ==> r.exc == (if v.JDict? then KeyError else TypeError)
  {
    if !v.JDict? then Raise(TypeError)
    else match Lookup(v.entries, k)
      case Some(x) => Ok(x)
      case None => Raise(KeyError)
  }

  /** Python's `v[0]`: the first element of a list, the first character of a
      str; a dict decoded from JSON has only str keys, so the int key 0 is
      never found. */
  function First(v: Json): (r: Outcome<Json>)
    ensures v.JList? && |v.items| > 0 ==> r == Ok(v.items[0])
    ensures v.JStr? && |v.s| > 0 ==> r == Ok(JStr([v.s[0]]))
    ensures v.JDict? ==> r == Raise(KeyError)
  {
    match v
    case JList(items) => if |items| > 0 then Ok(items[0]) else Raise(IndexError)
    case JStr(s) => if |s| > 0 then Ok(JStr([s[0]])) else Raise(IndexError)
    case JDict(_) => Raise(KeyError)
    case _ => Raise(TypeError)
  }

  /** Python's `len(v)`: code points of a str, elements of a list, distinct
      keys of a dict; a TypeError on None, a bool or a number. */
  function Len(v: Json): (r: Outcome<nat>)
    ensures r.Raise? <==> !(v.JDict? || v.JList? || v.JStr?)
    ensures r.Raise? ==> r.exc == TypeError
    ensures v.JList? ==> r == Ok(|v.items|)
    ensures v.JStr? ==> r == Ok(|v.s|)
    ensures v.JDict? ==> r == Ok(|Keys(v.entries)|)
    ensures r.Ok? ==> (r.value > 0 <==> Truthy(v))
  {
    match v
    case JStr(s) => Ok(|s|)
    case JList(items) => Ok(|items|)
    case JDict(entries) =>
      assert |entries| > 0 ==> entries[0].key in Keys(entries);
      Ok(|Keys(entries)|)
    case _ => Raise(TypeError)
  }

  /** The objects a `for` loop visits: the elements of a list, the keys of a
      dict, the characters of a str. */
  function Elements(v: Json): (r: Outcome<seq<Json>>)
    ensures r.Raise? <==> !(v.JDict? || v.JList? || v.JStr?)
    ensures v.JList? ==> r == Ok(v.items)
  {
    match v
    case JList(items) => Ok(items)
    case JDict(entries) => Ok(seq(|entries|, i requires 0 <= i < |entries| => JStr(entries[i].key)))
    case JStr(s) => Ok(seq(|s|, i requires 0 <= i < |s| => JStr([s[i]])))
    case _ => Raise(TypeError)
  }

  // ------------------------------------------------------------- decimal

  function DigitChar(d: nat): char
    requires d < 10
  {
    "0123456789"[d]
  }

  function DigitValue(c: char): nat
    requires '0' <= c <= '9'
  {
    c as nat - '0' as nat
  }

  /** The value a string of decimal digits denotes. */
  ghost function DecimalValue(s: string): nat
    requires forall i :: 0 <= i < |s| ==> '0' <= s[i] <= '9'
  {
    if |s| == 0 then 0 else 10 * DecimalValue(s[..|s| - 1]) + DigitValue(s[|s| - 1])
  }

  /** The decimal digits Python's `str()` prints for a non-negative int. */
  function NatToString(n: nat): (r: string)
    ensures |r| > 0
    ensures forall i :: 0 <= i < |r| ==> '0' <= r[i] <= '9'
    ensures r[0] == '0' ==> n == 0
    ensures DecimalValue(r) == n
  {
    if n < 10 then
      assert DigitValue(DigitChar(n)) == n by {
        assert "0123456789"[n] as nat == '0' as nat + n;
      }
      [DigitChar(n)]
    else
      var front := NatToString(n / 10);
      var last := DigitChar(n % 10);
      assert DigitValue(last) == n % 10 by {
        assert "0123456789"[n % 10] as nat == '0' as nat + n % 10;
      }
      var r := front + [last];
      assert r[..|r| - 1] == front;
      r
  }

  /** Python's `str()` of an int: a minus sign, then the digits of the
      magnitude. */
  function IntToString(i: int): (r: string)
    ensures |r| > 0
    ensures r[0] == '-' <==> i < 0
    ensures i < 0 ==> r[1..] == NatToString(-i)
    ensures i >= 0 ==> r == NatToString(i)
  {
    if i < 0 then "-" + NatToString(-i) else NatToString(i)
  }

  // ---------------------------------------------------------------- str()

  /** `repr()` of a str as it appears inside a container: the characters
      between single quotes. */
  function QuoteStr(s: string): string {
    "'" + s + "'"
  }

  /** Python's `str()` and `repr()` of None, a bool or an int, which agree. */
  function ShowScalar(v: Json): string
    requires !(v.JStr? || v.JList? || v.JDict?)
  {
    match v
    case JNull => "None"
    case JBool(b) => if b then "True" else "False"
    case JInt(i) => IntToString(i)
  }

  /** Python's `str(v)`, which is what an f-string `{v}` prints: a str
      prints as itself, a container as its `repr()`. */
  function Show(v: Json): string {
    match v
    case JStr(s) => s
    case JList(_) => Repr(v)
    case JDict(_) => Repr(v)
    case _ => ShowScalar(v)
  }

  /** Python's `repr(v)`, used for the elements of lists and dicts. */
  function Repr(v: Json): string
    decreases v
  {
    match v
    case JStr(s) => QuoteStr(s)
    case JList(items) => "[" + ReprItems(items) + "]"
    case JDict(entries) => "{" + ReprEntries(entries) + "}"
    case _ => ShowScalar(v)
  }

  function ReprItems(items: seq<Json>): string
    decreases items
  {
    if |items| == 0 then ""
    else if |items| == 1 then Repr(items[0])
    else Repr(items[0]) + ", " + ReprItems(items[1..])
  }

  function ReprEntries(entries: seq<Entry>): string
    decreases entries
  {
    if |entries| == 0 then ""
    else
      var e := QuoteStr(entries[0].key) + ": " + Repr(entries[0].value);
      if |entries| == 1 then e else e + ", " + ReprEntries(entries[1..])
  }

  // ----------------------------------------------------------- str.join

  /** `sep.join(parts)` over strs. */
  function Join(sep: string, parts: seq<string>): string {
    if |parts| == 0 then ""
    else if |parts| == 1 then parts[0]
    else parts[0] + sep + Join(sep, parts[1..])
  }

  predicate AllStr(items: seq<Json>) {
    forall i :: 0 <= i < |items| ==> items[i].JStr?
  }

  function Texts(items: seq<Json>): (r: seq<string>)
    requires AllStr(items)
    ensures |r| == |items|
    ensures forall i :: 0 <= i < |items| ==> items[i] == JStr(r[i])
  {
    if |items| == 0 then [] else [items[0].s] + Texts(items[1..])
  }

  /** `sep.join(items)` on a list of arbitrary objects: a TypeError unless
      every element is a str. */
  function JoinJson(sep: string, items: seq<Json>): (r: Outcome<string>)
    ensures r.Ok? <==> AllStr(items)
    ensures r.Raise? ==> r.exc == TypeError
    ensures r.Ok? ==> r.value == Join(sep, Texts(items))
  {
    if AllStr(items) then Ok(Join(sep, Texts(items))) else Raise(TypeError)
  }

  // ---------------------------------------------------------- str.rstrip

  /** The characters Python's `str.isspace()` accepts, which is the set
      `str.rstrip()` removes when given no argument. */
  predicate IsSpace(c: char) {
    || '\t' <= c <= '\r'
    || '\U{1C}' <= c <= ' '
    || c == '\U{85}' || c == '\U{A0}' || c == '\U{1680}'
    || '\U{2000}' <= c <= '\U{200A}'
    || c == '\U{2028}' || c == '\U{2029}' || c == '\U{202F}'
    || c == '\U{205F}' || c == '\U{3000}'
  }

  /** Python's `s.rstrip()`: the longest prefix of `s` that does not end in
      whitespace, having dropped only whitespace. */
  function RStrip(s: string): (r: string)
    ensures r <= s
    ensures |r| == 0 || !IsSpace(r[|r| - 1])
    ensures forall i :: |r| <= i < |s| ==> IsSpace(s[i])
  {
    if |s| == 0 || !IsSpace(s[|s| - 1]) then s else RStrip(s[..|s| - 1])
  }

  // -------------------------------------------------------------- lemmas

  /** Joining two non-empty lists of parts is joining each and putting one
      separator between the two results. */
  lemma {:induction false} JoinAppend(sep: string, a: seq<string>, b: seq<string>)
    requires |a| > 0 && |b| > 0
    ensures Join(sep, a + b) == Join(sep, a) + sep + Join(sep, b)
    decreases |a|
  {
    if |a| == 1 {
      assert (a + b)[1..] == b;
    } else {
      assert (a + b)[1..] == a[1..] + b;
      JoinAppend(sep, a[1..], b);
    }
  }

  /** Python's `s.split(sep)` for a one-character separator. */
  function Split(sep: char, s: string): (r: seq<string>)
    ensures |r| > 0
    decreases |s|
  {
    if |s| == 0 then [""]
    else
      var rest := Split(sep, s[1..]);
      if s[0] == sep then [""] + rest else [[s[0]] + rest[0]] + rest[1..]
  }

  lemma {:induction false} SplitNoSep(sep: char, s: string)
    requires sep !in s
    ensures Split(sep, s) == [s]
    decreases |s|
  {
    if |s| > 0 {
      SplitNoSep(sep, s[1..]);
      assert [s[0]] + s[1..] == s;
    }
  }

  lemma {:induction false} SplitAfterLine(sep: char, line: string, rest: string)
    requires sep !in line
    ensures Split(sep, line + [sep] + rest) == [line] + Split(sep, rest)
    decreases |line|
  {
    if |line| == 0 {
      assert line + [sep] + rest == [sep] + rest;
      assert ([sep] + rest)[1..] == rest;
    } else {
      var s := line + [sep] + rest;
      assert s[0] == line[0];
      assert s[1..] == line[1..] + [sep] + rest;
      SplitAfterLine(sep, line[1..], rest);
      assert [line[0]] + line[1..] == line;
    }
  }

  /** Splitting a newline-joined list of lines that hold no newline gives the
      lines back: the joined text has exactly one line per part. */
  lemma {:induction false} SplitJoin(lines: seq<string>)
    requires |lines| > 0
    requires forall i :: 0 <= i < |lines| ==> '\n' !in lines[i]
    ensures Split('\n', Join("\n", lines)) == lines
    decreases |lines|
  {
    if |lines| == 1 {
      SplitNoSep('\n', lines[0]);
    } else {
      SplitAfterLine('\n', lines[0], Join("\n", lines[1..]));
      SplitJoin(lines[1..]);
      assert [lines[0]] + lines[1..] == lines;
    }
  }
}
