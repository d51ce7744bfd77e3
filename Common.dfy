/** Shared vocabulary of the crawler model: Python values as they travel
    through json.loads and json.dumps, the str operations the scripts rely on
    (split, strip, replace, slicing, int()), decimal numerals, first-seen
    de-duplication, and the append-only line files that save_json writes. */
module Common {

  datatype Option<+T> = None | Some(value: T)

  /** The exception kinds the modelled code raises or lets escape. */
  datatype Error =
    | ValueError          // int(), strptime, unpacking, json.loads, empty concat
    | TypeError           // wrong argument type or arity
    | KeyError            // missing dict key or DataFrame column
    | IndexError          // list index out of range
    | OSError             // open() of a file that does not exist
    | UnicodeDecodeError  // malformed escape or UTF-8
    | FetchFailed         // a page request that raised
    | Unrepresentable     // a lone surrogate, which has no Dafny char

  datatype Result<+T> = Ok(value: T) | Err(error: Error)

  /** A Python value of the kinds json.loads produces (numbers are integers). */
  datatype Value =
    | Null
    | Bool(b: bool)
    | Int(i: int)
    | Str(s: string)
    | List(items: seq<Value>)
    | Dict(entries: seq<(string, Value)>)

  /** Python truthiness, as used by `if not x`. */
  predicate Truthy(v: Value)
  {
    match v
    case Null => false
    case Bool(b) => b
    case Int(i) => i != 0
    case Str(s) => s != ""
    case List(xs) => xs != []
    case Dict(es) => es != []
  }

  /** `None` or a str, as a Python value. */
  function OptStr(o: Option<string>): Value
  {
    match o
    case None => Null
    case Some(s) => Str(s)
  }

  /** The keys of a dict in insertion order (`list(d.keys())`). */
  function Keys<V>(entries: seq<(string, V)>): (ks: seq<string>)
    ensures |ks| == |entries|
    ensures forall i | 0 <= i < |entries| :: ks[i] == entries[i].0
  {
    seq(|entries|, i requires 0 <= i < |entries| => entries[i].0)
  }

  /** `d.get(key)`: the value bound to the first entry with that key. */
  function Get(entries: seq<(string, Value)>, key: string): (r: Option<Value>)
  {
    if entries == [] then None
    else if entries[0].0 == key then Some(entries[0].1)
    else Get(entries[1..], key)
  }

  /** `d.get(key)` finds nothing exactly when no entry has that key, and what it finds is
      an entry of d. */
  lemma {:induction false} GetSpec(entries: seq<(string, Value)>, key: string)
    ensures Get(entries, key).None? <==> key !in Keys(entries)
    ensures Get(entries, key).Some? ==> (key, Get(entries, key).value) in entries
    decreases |entries|
  {
    if entries != [] {
      assert Keys(entries) == [entries[0].0] + Keys(entries[1..]);
      if entries[0].0 != key {
        GetSpec(entries[1..], key);
      }
    }
  }

  /** A key that no earlier entry carries is bound to its own entry's value. */
  lemma {:induction false} GetAt(entries: seq<(string, Value)>, i: nat)
    requires i < |entries| && forall j | 0 <= j < i :: entries[j].0 != entries[i].0
    ensures Get(entries, entries[i].0) == Some(entries[i].1)
    decreases i
  {
    if i > 0 {
      GetAt(entries[1..], i - 1);
    }
  }

  /** The record is a dict whose `key` holds `v`. */
  predicate Carries(r: Value, key: string, v: Value)
  {
    r.Dict? && Get(r.entries, key) == Some(v)
  }

  /** `d.get(key, default)`. */
  function GetOr(entries: seq<(string, Value)>, key: string, default: Value): Value
  {
    match Get(entries, key)
    case None => default
    case Some(v) => v
  }

  // ----- str operations -----

  predicate StartsWith(s: string, prefix: string)
  {
    |prefix| <= |s| && s[..|prefix|] == prefix
  }

  /** `needle` occurs in `hay` starting at index i. */
  predicate OccursAt(needle: string, hay: string, i: int)
  {
    0 <= i <= |hay| - |needle| && hay[i..i + |needle|] == needle
  }

  /** `needle in hay` for str operands. */
  predicate IsSubstring(needle: string, hay: string)
  {
    exists i | 0 <= i <= |hay| - |needle| :: OccursAt(needle, hay, i)
  }

  /** `s.split(sep)` for a one-character separator. */
  function Split(s: string, sep: char): (parts: seq<string>)
    ensures |parts| >= 1
    decreases |s|
  {
    if s == [] then [""]
    else
      var rest := Split(s[1..], sep);
      if s[0] == sep then [""] + rest
      else [[s[0]] + rest[0]] + rest[1..]
  }

  /** `sep.join(parts)`. */
  function Join(parts: seq<string>, sep: char): string
    requires |parts| >= 1
  {
    if |parts| == 1 then parts[0] else parts[0] + [sep] + Join(parts[1..], sep)
  }

  /** Splitting then joining gives back the text, and no part holds the separator. */
  lemma {:induction false} SplitJoin(s: string, sep: char)
    ensures Join(Split(s, sep), sep) == s
    ensures forall i | 0 <= i < |Split(s, sep)| :: sep !in Split(s, sep)[i]
    decreases |s|
  {
    if s != [] {
      var rest := Split(s[1..], sep);
      SplitJoin(s[1..], sep);
      if s[0] == sep {
        assert Split(s, sep)[1..] == rest;
      } else {
        var parts := Split(s, sep);
        if |rest| > 1 {
          assert parts[1..] == rest[1..];
          assert Join(rest, sep) == rest[0] + [sep] + Join(rest[1..], sep);
          assert Join(parts, sep) == [s[0]] + Join(rest, sep);
        }
        assert s == [s[0]] + s[1..];
        forall i | 0 <= i < |parts| ensures sep !in parts[i] {
          if i > 0 { assert parts[i] == rest[i]; }
        }
      }
    }
  }

  /** The first field of a split is the text before the first separator. */
  lemma {:induction false} SplitFirst(s: string, sep: char)
    ensures StartsWith(s, Split(s, sep)[0])
    ensures sep !in Split(s, sep)[0]
    ensures |Split(s, sep)[0]| < |s| ==> s[|Split(s, sep)[0]|] == sep
    ensures sep !in s ==> Split(s, sep) == [s]
    decreases |s|
  {
    if s != [] {
      SplitFirst(s[1..], sep);
      assert s == [s[0]] + s[1..];
    }
  }

  /** Splitting at the first separator peels off the text before it. */
  lemma {:induction false} SplitAtFirst(a: string, b: string, sep: char)
    requires sep !in a
    ensures Split(a + [sep] + b, sep) == [a] + Split(b, sep)
    decreases |a|
  {
    if a == [] {
      assert a + [sep] + b == [sep] + b;
      assert ([sep] + b)[1..] == b;
    } else {
      assert (a + [sep] + b)[1..] == a[1..] + [sep] + b;
      SplitAtFirst(a[1..], b, sep);
      assert [a[0]] + a[1..] == a;
    }
  }

  /** Python's str.isspace() for one character. */
  predicate IsSpace(c: char)
  {
    c == ' ' || ('\t' <= c <= '\r') || ('\U{1c}' <= c <= '\U{1f}')
    || c == '\U{85}' || c == '\U{a0}' || c == '\U{1680}'
    || ('\U{2000}' <= c <= '\U{200a}') || c == '\U{2028}' || c == '\U{2029}'
    || c == '\U{202f}' || c == '\U{205f}' || c == '\U{3000}'
  }

  function LStrip(s: string): (t: string)
    ensures |t| <= |s| && t == s[|s| - |t|..]
    ensures t == [] || !IsSpace(t[0])
    ensures forall i | 0 <= i < |s| - |t| :: IsSpace(s[i])
  {
    if s != [] && IsSpace(s[0]) then LStrip(s[1..]) else s
  }

  function RStrip(s: string): (t: string)
    ensures |t| <= |s| && t == s[..|t|]
    ensures t == [] || !IsSpace(t[|t| - 1])
    ensures forall i | |t| <= i < |s| :: IsSpace(s[i])
  {
    if s != [] && IsSpace(s[|s| - 1]) then RStrip(s[..|s| - 1]) else s
  }

  /** `s.strip()`: the slice left after dropping whitespace at both ends. */
  function Strip(s: string): (t: string)
    ensures t == RStrip(LStrip(s))
    ensures t == [] || (!IsSpace(t[0]) && !IsSpace(t[|t| - 1]))
  {
    var l := LStrip(s);
    var t := RStrip(l);
    assert t != [] ==> t[0] == l[0];
    t
  }

  /** A text without whitespace at either end is its own strip. */
  lemma StripNoSpace(s: string)
    requires s == [] || (!IsSpace(s[0]) && !IsSpace(s[|s| - 1]))
    ensures Strip(s) == s
  {
  }

  /** Python's lenient slice `s[n:]`. */
  function Drop(s: string, n: nat): (t: string)
    ensures |t| == if n <= |s| then |s| - n else 0
  {
    if n <= |s| then s[n..] else []
  }

  /** `s.replace(c, "")`. */
  function RemoveChar(s: string, c: char): (t: string)
    ensures c !in t
    ensures forall x :: x in t <==> x in s && x != c
  {
    if s == [] then []
    else (if s[0] == c then [] else [s[0]]) + RemoveChar(s[1..], c)
  }

  /** `s.replace(c, r)` for a one-character pattern: every occurrence, left to right. */
  function ReplaceChar(s: string, c: char, r: string): (t: string)
    ensures c !in r ==> c !in t
    ensures c !in s ==> t == s
    ensures forall x | x in t :: x in s || x in r
  {
    if s == [] then []
    else (if s[0] == c then r else [s[0]]) + ReplaceChar(s[1..], c, r)
  }

  /** Removing the only occurrences of c, one between a and b, joins a and b. */
  lemma {:induction false} RemoveCharBetween(a: string, b: string, c: char)
    requires c !in a && c !in b
    ensures RemoveChar(a + [c] + b, c) == a + b
    decreases |a|
  {
    var s := a + [c] + b;
    if a == [] {
      assert s[0] == c && s[1..] == b;
      RemoveCharNoop(b, c);
    } else {
      assert s[0] == a[0] && s[1..] == a[1..] + [c] + b;
      RemoveCharBetween(a[1..], b, c);
      assert [a[0]] + (a[1..] + b) == a + b;
    }
  }

  lemma {:induction false} RemoveCharConcat(a: string, b: string, c: char)
    ensures RemoveChar(a + b, c) == RemoveChar(a, c) + RemoveChar(b, c)
    decreases |a|
  {
    if a != [] {
      assert (a + b)[1..] == a[1..] + b;
      RemoveCharConcat(a[1..], b, c);
    } else {
      assert a + b == b;
    }
  }

  // ----- decimal numerals -----

  predicate IsDigit(c: char)
  {
    '0' <= c <= '9'
  }

  predicate AllDigits(s: string)
  {
    forall i | 0 <= i < |s| :: IsDigit(s[i])
  }

  function DigitChar(d: nat): (c: char)
    requires d < 10
    ensures IsDigit(c)
  {
    (('0' as int) + d) as char
  }

  function DigitValue(c: char): (d: nat)
    requires IsDigit(c)
    ensures d < 10 && DigitChar(d) == c
  {
    (c as int) - ('0' as int)
  }

  /** `str(n)` for a natural number. */
  function NatToString(n: nat): (s: string)
    ensures |s| >= 1 && AllDigits(s)
    decreases n
  {
    if n < 10 then [DigitChar(n)] else NatToString(n / 10) + [DigitChar(n % 10)]
  }

  /** The value of a string of decimal digits. */
  function DigitsValue(s: string): nat
    requires AllDigits(s)
  {
    if s == [] then 0 else DigitsValue(s[..|s| - 1]) * 10 + DigitValue(s[|s| - 1])
  }

  function Pow10(k: nat): (p: nat)
    ensures p >= 1
  {
    if k == 0 then 1 else 10 * Pow10(k - 1)
  }

  /** Reading the decimal rendering of n gives n back. */
  lemma {:induction false} NatToStringRoundTrip(n: nat)
    ensures DigitsValue(NatToString(n)) == n
    decreases n
  {
    if n >= 10 {
      var s := NatToString(n);
      NatToStringRoundTrip(n / 10);
      assert s[..|s| - 1] == NatToString(n / 10);
    }
  }

  lemma NatToStringInjective(a: nat, b: nat)
    requires NatToString(a) == NatToString(b)
    ensures a == b
  {
    NatToStringRoundTrip(a);
    NatToStringRoundTrip(b);
  }

  /** The rendering of n has exactly k digits when 10^(k-1) <= n < 10^k. */
  lemma {:induction false} NatToStringLength(n: nat, k: nat)
    requires 1 <= k && (k == 1 || Pow10(k - 1) <= n) && n < Pow10(k)
    ensures |NatToString(n)| == k
    decreases k
  {
    if k > 1 {
      Pow10Monotone(1, k - 1);
      NatToStringLength(n / 10, k - 1);
    }
  }

  lemma {:induction false} Pow10Monotone(a: nat, b: nat)
    requires a <= b
    ensures Pow10(a) <= Pow10(b)
    decreases b
  {
    if a < b {
      Pow10Monotone(a, b - 1);
    }
  }

  /** Digits read left to right: the front part is shifted by the length of the rest. */
  lemma {:induction false} DigitsValueConcat(a: string, b: string)
    requires AllDigits(a) && AllDigits(b)
    ensures AllDigits(a + b)
    ensures DigitsValue(a + b) == DigitsValue(a) * Pow10(|b|) + DigitsValue(b)
    decreases |b|
  {
    if b == [] {
      assert a + b == a;
    } else {
      var ab, init, last := a + b, b[..|b| - 1], b[|b| - 1];
      assert ab[..|ab| - 1] == a + init && ab[|ab| - 1] == last;
      DigitsValueConcat(a, init);
      ShiftDigit(DigitsValue(a), DigitsValue(init), Pow10(|init|), DigitValue(last));
    }
  }

  /** Appending a digit d to a numeral worth x * p + y multiplies both parts by ten. */
  lemma ShiftDigit(x: int, y: int, p: int, d: int)
    ensures (x * p + y) * 10 + d == x * (p * 10) + (y * 10 + d)
  {
  }

  lemma {:induction false} DigitsValueBound(s: string)
    requires AllDigits(s)
    ensures DigitsValue(s) < Pow10(|s|)
    decreases |s|
  {
    if s != [] {
      DigitsValueBound(s[..|s| - 1]);
    }
  }

  /** The body of a Python int literal: digits, single underscores only between digits. */
  predicate IsNumeral(s: string)
  {
    && |s| >= 1
    && IsDigit(s[0])
    && IsDigit(s[|s| - 1])
    && forall i | 0 <= i < |s| :: IsDigit(s[i]) || (s[i] == '_' && i + 1 < |s| && IsDigit(s[i + 1]))
  }

  lemma NumeralDigits(s: string)
    requires IsNumeral(s)
    ensures AllDigits(RemoveChar(s, '_'))
  {
    var t := RemoveChar(s, '_');
    forall i | 0 <= i < |t| ensures IsDigit(t[i]) {
      assert t[i] in s;
    }
  }

  /** Python's `int(s)` on a str, restricted to ASCII digits; None where it raises ValueError. */
  function ParseInt(s: string): (r: Option<int>)
    ensures r.Some? ==> Strip(s) != []
  {
    var t := Strip(s);
    if t == [] then None
    else
      var signed := t[0] == '+' || t[0] == '-';
      var body := if signed then t[1..] else t;
      if !IsNumeral(body) then None
      else
        NumeralDigits(body);
        var v: int := DigitsValue(RemoveChar(body, '_'));
        Some(if t[0] == '-' then -v else v)
  }

  /** int() of a plain run of ASCII digits is its decimal value. */
  lemma ParseIntOfDigits(s: string)
    requires s != [] && AllDigits(s)
    ensures ParseInt(s) == Some(DigitsValue(s))
  {
    assert !IsSpace(s[0]) && !IsSpace(s[|s| - 1]);
    StripNoSpace(s);
    assert s[0] != '+' && s[0] != '-';
    assert IsNumeral(s);
    assert '_' !in s;
    RemoveCharNoop(s, '_');
  }

  /** int() reads back what str() renders. */
  lemma ParseIntOfNat(n: nat)
    ensures ParseInt(NatToString(n)) == Some(n)
  {
    ParseIntOfDigits(NatToString(n));
    NatToStringRoundTrip(n);
  }

  lemma {:induction false} RemoveCharNoop(s: string, c: char)
    requires c !in s
    ensures RemoveChar(s, c) == s
    decreases |s|
  {
    if s != [] {
      RemoveCharNoop(s[1..], c);
    }
  }

  // ----- first-seen de-duplication -----

  /** The set of keys of a sequence. */
  function KeysOf<T, K>(xs: seq<T>, key: T -> K): set<K>
    decreases |xs|
  {
    if xs == [] then {} else KeysOf(xs[..|xs| - 1], key) + {key(xs[|xs| - 1])}
  }

  /** Keeps each element whose key is neither in `seen` nor on an earlier element. */
  function DedupAfter<T, K>(seen: set<K>, xs: seq<T>, key: T -> K): seq<T>
    decreases |xs|
  {
    if xs == [] then []
    else
      var init, x := xs[..|xs| - 1], xs[|xs| - 1];
      DedupAfter(seen, init, key) + (if key(x) in seen + KeysOf(init, key) then [] else [x])
  }

  /** `drop_duplicates(keep="first")` on a key. */
  function DedupBy<T, K(==)>(xs: seq<T>, key: T -> K): seq<T>
  {
    DedupAfter({}, xs, key)
  }

  lemma {:induction false} KeysOfMember<T, K>(xs: seq<T>, key: T -> K)
    ensures forall i | 0 <= i < |xs| :: key(xs[i]) in KeysOf(xs, key)
    ensures forall k | k in KeysOf(xs, key) :: exists i | 0 <= i < |xs| :: key(xs[i]) == k
    decreases |xs|
  {
    if xs != [] {
      KeysOfMember(xs[..|xs| - 1], key);
    }
  }

  lemma {:induction false} KeysOfConcat<T, K>(a: seq<T>, b: seq<T>, key: T -> K)
    ensures KeysOf(a + b, key) == KeysOf(a, key) + KeysOf(b, key)
    decreases |b|
  {
    if b == [] {
      assert a + b == a;
    } else {
      assert (a + b)[..|a + b| - 1] == a + b[..|b| - 1];
      KeysOfConcat(a, b[..|b| - 1], key);
    }
  }

  /** The kept elements come from the input, in order, and none has a seen key. */
  lemma {:induction false} DedupAfterFromInput<T, K>(seen: set<K>, xs: seq<T>, key: T -> K)
    ensures var r := DedupAfter(seen, xs, key);
      && |r| <= |xs|
      && forall i | 0 <= i < |r| :: key(r[i]) !in seen && r[i] in xs
    decreases |xs|
  {
    if xs != [] {
      var init := xs[..|xs| - 1];
      DedupAfterFromInput(seen, init, key);
      assert forall y | y in init :: y in xs;
    }
  }

  /** The keys the de-duplication keeps are exactly the unseen keys of the input. */
  lemma {:induction false} DedupAfterKeySet<T, K>(seen: set<K>, xs: seq<T>, key: T -> K)
    ensures KeysOf(DedupAfter(seen, xs, key), key) == KeysOf(xs, key) - seen
    decreases |xs|
  {
    if xs != [] {
      var init, x := xs[..|xs| - 1], xs[|xs| - 1];
      DedupAfterKeySet(seen, init, key);
      var p := DedupAfter(seen, init, key);
      assert KeysOf(xs, key) == KeysOf(init, key) + {key(x)};
      if key(x) !in seen + KeysOf(init, key) {
        assert DedupAfter(seen, xs, key) == p + [x];
        KeysOfConcat(p, [x], key);
        assert [x][..0] == [];
        assert KeysOf([x], key) == {key(x)};
        calc {
          KeysOf(p + [x], key);
          KeysOf(p, key) + {key(x)};
          (KeysOf(init, key) - seen) + {key(x)};
          (KeysOf(init, key) + {key(x)}) - seen;
        }
      } else {
        assert DedupAfter(seen, xs, key) == p;
      }
    }
  }

  /** The kept elements have pairwise distinct keys. */
  lemma {:induction false} DedupAfterDistinct<T, K>(seen: set<K>, xs: seq<T>, key: T -> K)
    ensures var r := DedupAfter(seen, xs, key);
      forall i, j | 0 <= i < j < |r| :: key(r[i]) != key(r[j])
    decreases |xs|
  {
    if xs != [] {
      var init, x := xs[..|xs| - 1], xs[|xs| - 1];
      DedupAfterDistinct(seen, init, key);
      var p := DedupAfter(seen, init, key);
      DedupAfterKeySet(seen, init, key);
      KeysOfMember(p, key);
    }
  }

  /** De-duplicating a concatenation: the second part is filtered against the first's keys. */
  lemma {:induction false} DedupAfterConcat<T, K>(seen: set<K>, a: seq<T>, b: seq<T>, key: T -> K)
    ensures DedupAfter(seen, a + b, key)
      == DedupAfter(seen, a, key) + DedupAfter(seen + KeysOf(a, key), b, key)
    decreases |b|
  {
    if b == [] {
      assert a + b == a;
    } else {
      var b0, y := b[..|b| - 1], b[|b| - 1];
      assert (a + b)[..|a + b| - 1] == a + b0;
      DedupAfterConcat(seen, a, b0, key);
      KeysOfConcat(a, b0, key);
    }
  }

  /** A sequence whose keys are already distinct and unseen is left as it is. */
  lemma {:induction false} DedupAfterFixpoint<T, K>(seen: set<K>, xs: seq<T>, key: T -> K)
    requires forall i | 0 <= i < |xs| :: key(xs[i]) !in seen
    requires forall i, j | 0 <= i < j < |xs| :: key(xs[i]) != key(xs[j])
    ensures DedupAfter(seen, xs, key) == xs
    decreases |xs|
  {
    if xs != [] {
      var init := xs[..|xs| - 1];
      DedupAfterFixpoint(seen, init, key);
      KeysOfMember(init, key);
    }
  }

  /** De-duplicating twice is de-duplicating once. */
  lemma DedupIdempotent<T, K>(xs: seq<T>, key: T -> K)
    ensures DedupBy(DedupBy(xs, key), key) == DedupBy(xs, key)
  {
    DedupAfterFromInput({}, xs, key);
    DedupAfterDistinct({}, xs, key);
    DedupAfterFixpoint({}, DedupBy(xs, key), key);
  }

  // ----- append-only line files -----

  /** One line of a file written by save_json: a str verbatim, anything else through json.dumps. */
  datatype Line = Verbatim(text: string) | Encoded(value: Value)

  /** What `save_json(mapping, ...)` writes for `mapping`. */
  function SavedLine(mapping: Value): Line
  {
    if mapping.Str? then Verbatim(mapping.s) else Encoded(mapping)
  }

  function LineText(line: Line, dumps: Value -> string): (t: string)
    ensures |t| >= 1 && t[|t| - 1] == '\n'
  {
    (match line
     case Verbatim(s) => s
     case Encoded(v) => dumps(v)) + "\n"
  }

  /** The text of a file holding these lines. */
  function FileText(lines: seq<Line>, dumps: Value -> string): string
  {
    if lines == [] then "" else FileText(lines[..|lines| - 1], dumps) + LineText(lines[|lines| - 1], dumps)
  }

  /** Files that the scripts open in append mode, each as the lines written so far. */
  class Disk {
    var files: map<string, seq<Line>>

    constructor ()
      ensures files == map[]
    {
      files := map[];
    }

    function Lines(path: string): seq<Line>
      reads this
    {
      LinesIn(files, path)
    }

    /** `save_json`: appends one line to the file at `path`. */
    method SaveJson(mapping: Value, path: string)
      modifies this
      ensures files == old(files)[path := old(Lines(path)) + [SavedLine(mapping)]]
    {
      files := files[path := Lines(path) + [SavedLine(mapping)]];
    }

    /** `bulk_save_json`: one json.dumps line per record, in order (a str record is quoted too). */
    method BulkSaveJson(records: seq<Value>, path: string)
      modifies this
      ensures files == old(files)[path := old(Lines(path)) + EncodedLines(records)]
    {
      ghost var before := Lines(path);
      files := files[path := Lines(path)];  // open(save_path, "a+") creates the file
      var i := 0;
      assert records[..0] == [];
      assert EncodedLines(records[..0]) == [];
      assert before + EncodedLines(records[..0]) == before;
      while i < |records|
        invariant 0 <= i <= |records|
        invariant files == old(files)[path := before + EncodedLines(records[..i])]
      {
        assert records[..i + 1][..i] == records[..i];
        assert EncodedLines(records[..i + 1]) == EncodedLines(records[..i]) + [Encoded(records[i])];
        assert Lines(path) == before + EncodedLines(records[..i]);
        assert before + EncodedLines(records[..i + 1])
            == (before + EncodedLines(records[..i])) + [Encoded(records[i])];
        files := files[path := Lines(path) + [Encoded(records[i])]];
        i := i + 1;
      }
      assert records[..i] == records;
    }
  }

  function EncodedLines(records: seq<Value>): (ls: seq<Line>)
    ensures |ls| == |records|
    ensures forall i | 0 <= i < |records| :: ls[i] == Encoded(records[i])
  {
    if records == [] then [] else EncodedLines(records[..|records| - 1]) + [Encoded(records[|records| - 1])]
  }

  /** Appending a line appends exactly its text, ending in a newline. */
  lemma FileTextAppend(lines: seq<Line>, line: Line, dumps: Value -> string)
    ensures FileText(lines + [line], dumps) == FileText(lines, dumps) + LineText(line, dumps)
  {
    assert (lines + [line])[..|lines|] == lines;
  }

  lemma {:induction false} EncodedLinesConcat(a: seq<Value>, b: seq<Value>)
    ensures EncodedLines(a + b) == EncodedLines(a) + EncodedLines(b)
  {
  }

  /** The lines of `path`, none when the file does not exist. */
  function LinesIn(files: map<string, seq<Line>>, path: string): seq<Line>
  {
    if path in files then files[path] else []
  }

  /** The files after `records` were saved one by one to `path`: untouched when there is
      none, since `open(path, "a+")` only runs inside save_json. */
  function Appended(files: map<string, seq<Line>>, path: string, records: seq<Value>): map<string, seq<Line>>
  {
    if records == [] then files else files[path := LinesIn(files, path) + EncodedLines(records)]
  }

  /** Saving touches only `path`, which then ends with one line per record; with no record
      nothing changes, not even whether the file exists. */
  lemma AppendedFrame(files: map<string, seq<Line>>, path: string, records: seq<Value>)
    ensures records == [] ==> Appended(files, path, records) == files
    ensures records != [] ==> (Appended(files, path, records).Keys == files.Keys + {path}
      && Appended(files, path, records)[path] == LinesIn(files, path) + EncodedLines(records))
    ensures forall q | q in files && q != path :: Appended(files, path, records)[q] == files[q]
  {
  }

  /** Two appends to one file are one append of both record lists. */
  lemma ConcatAssoc<T>(a: seq<T>, b: seq<T>, c: seq<T>)
    ensures (a + b) + c == a + (b + c)
  {
    assert forall i | 0 <= i < |a| + |b| + |c| :: ((a + b) + c)[i] == (a + (b + c))[i];
  }

  lemma DropEmpty<T>(a: seq<T>, m: seq<T>, b: seq<T>)
    requires m == []
    ensures a + m + b == a + b
  {
  }

  lemma AppendedTwice(files: map<string, seq<Line>>, path: string, a: seq<Value>, b: seq<Value>)
    ensures Appended(Appended(files, path, a), path, b) == Appended(files, path, a + b)
  {
    EncodedLinesConcat(a, b);
    if a == [] {
      assert a + b == b;
    } else if b == [] {
      assert a + b == a;
    } else {
      assert (LinesIn(files, path) + EncodedLines(a)) + EncodedLines(b) == LinesIn(files, path) + EncodedLines(a + b);
    }
  }

  /** Saving one non-string record is one append. */
  lemma SavedOne(files: map<string, seq<Line>>, path: string, v: Value)
    requires !v.Str?
    ensures files[path := LinesIn(files, path) + [SavedLine(v)]] == Appended(files, path, [v])
  {
    assert EncodedLines([v]) == [Encoded(v)];
  }
}
