/**
 * Shared vocabulary of the model: optional values and results (for the
 * source's `None` returns and raised exceptions), the small amount of
 * Python string and list behaviour the backend relies on, and a simplified
 * `urllib.parse.urlparse`.
 */
module Base {

  datatype Option<+T> = None | Some(value: T)
  {
    function GetOr(default: T): T
    {
      match this
      case None => default
      case Some(v) => v
    }
  }

  /** A value, or the error the source raises or returns instead. */
  datatype Result<+T, +E> = Ok(value: T) | Err(error: E)

  /** A JSON schema dictionary as the backend passes it around: field name to type name. */
  type Schema = map<string, string>

  /** The Python types a schema type name can stand for. */
  datatype PyType = PyStr | PyInt | PyFloat | PyBool | PyList | PyDict

  predicate NoDup<T(==)>(s: seq<T>)
  {
    forall i, j :: 0 <= i < j < |s| ==> s[i] != s[j]
  }

  /** Appending an element not yet present keeps a list duplicate-free. */
  lemma AppendFreshNoDup<T>(s: seq<T>, x: T)
    requires NoDup(s) && x !in s
    ensures NoDup(s + [x])
  {
  }

  /** The tail of a duplicate-free list is duplicate-free. */
  lemma NoDupTail<T>(s: seq<T>)
    requires NoDup(s) && s != []
    ensures NoDup(s[1..]) && s[0] !in s[1..]
  {
    forall i, j | 0 <= i < j < |s[1..]| ensures s[1..][i] != s[1..][j] {
      assert s[1..][i] == s[i + 1] && s[1..][j] == s[j + 1];
    }
    forall i | 0 <= i < |s[1..]| ensures s[1..][i] != s[0] { assert s[1..][i] == s[i + 1]; }
  }

  /** Putting an element not yet present in front keeps a list duplicate-free. */
  lemma ConsNoDup<T>(x: T, s: seq<T>)
    requires NoDup(s) && forall j :: 0 <= j < |s| ==> s[j] != x
    ensures NoDup([x] + s)
  {
    var r := [x] + s;
    forall i, j | 0 <= i < j < |r| ensures r[i] != r[j] {
      assert r[j] == s[j - 1];
      if i > 0 { assert r[i] == s[i - 1]; }
    }
  }

  function Min(a: int, b: int): int { if a <= b then a else b }

  function Max(a: int, b: int): int { if a <= b then b else a }

  // ---------------------------------------------------------------------
  // Strings
  // ---------------------------------------------------------------------

  /** `str.lower` restricted to ASCII letters. */
  function LowerChar(c: char): char
  {
    if 'A' <= c <= 'Z' then (c as int + 32) as char else c
  }

  function Lower(s: string): (r: string)
    ensures |r| == |s|
    ensures forall i :: 0 <= i < |s| ==> r[i] == LowerChar(s[i])
  {
    seq(|s|, i requires 0 <= i < |s| => LowerChar(s[i]))
  }

  /** Lower-casing commutes with taking a suffix. */
  lemma LowerSuffix(s: string, k: nat)
    requires k <= |s|
    ensures Lower(s[k..]) == Lower(s)[k..]
  {
    var a, b := Lower(s[k..]), Lower(s)[k..];
    assert |a| == |b|;
    forall i | 0 <= i < |a| ensures a[i] == b[i] {
      assert a[i] == LowerChar(s[k..][i]) == LowerChar(s[k + i]) == Lower(s)[k + i];
    }
  }

  predicate StartsWith(s: string, prefix: string)
  {
    |prefix| <= |s| && s[..|prefix|] == prefix
  }

  /** Python's `needle in hay` on strings. */
  predicate Contains(hay: string, needle: string)
    decreases |hay|
  {
    StartsWith(hay, needle) || (|hay| > 0 && Contains(hay[1..], needle))
  }

  /** `any(k in hay for k in needles)`. */
  predicate ContainsAny(hay: string, needles: seq<string>)
  {
    exists k :: 0 <= k < |needles| && Contains(hay, needles[k])
  }

  lemma {:induction false} ContainsShorter(hay: string, needle: string)
    requires Contains(hay, needle)
    ensures |needle| <= |hay|
    decreases |hay|
  {
    if !StartsWith(hay, needle) {
      ContainsShorter(hay[1..], needle);
    }
  }

  /** A string holds a non-empty substring only if it holds the substring's first character. */
  lemma {:induction false} ContainsHead(hay: string, needle: string)
    requires |needle| > 0 && Contains(hay, needle)
    ensures needle[0] in hay
    decreases |hay|
  {
    if StartsWith(hay, needle) {
      assert hay[0] == needle[0];
    } else {
      ContainsHead(hay[1..], needle);
    }
  }

  /** The whitespace `str.strip()` removes, restricted to ASCII. */
  predicate IsSpace(c: char)
  {
    c == ' ' || c == '\t' || c == '\n' || c == '\r' || c == '\U{000B}' || c == '\U{000C}'
  }

  function StripLeft(s: string): (r: string)
    ensures |r| <= |s| && r == s[|s| - |r|..]
    ensures r == [] || !IsSpace(r[0])
  {
    if |s| > 0 && IsSpace(s[0]) then StripLeft(s[1..]) else s
  }

  function StripRight(s: string): (r: string)
    ensures |r| <= |s| && r == s[..|r|]
    ensures r == [] || !IsSpace(r[|r| - 1])
  {
    if |s| > 0 && IsSpace(s[|s| - 1]) then StripRight(s[..|s| - 1]) else s
  }

  /** `str.strip()`: no leading or trailing whitespace is left. */
  function Strip(s: string): (r: string)
    ensures |r| <= |s|
    ensures r == [] || (!IsSpace(r[0]) && !IsSpace(r[|r| - 1]))
  {
    StripRight(StripLeft(s))
  }

  /**
   * `hay.split(sep, 1)[1]`: the text after the first occurrence of `sep`;
   * `None` where Python would raise `IndexError` because `sep` is absent.
   */
  function AfterFirst(hay: string, sep: string): (r: Option<string>)
    requires |sep| > 0
    ensures r.Some? <==> Contains(hay, sep)
    ensures r.Some? ==> |r.value| + |sep| <= |hay| && hay[|hay| - |r.value|..] == r.value
    decreases |hay|
  {
    if StartsWith(hay, sep) then Some(hay[|sep|..])
    else if |hay| == 0 then None
    else AfterFirst(hay[1..], sep)
  }

  /** `sep.join(parts)`. */
  function Join(parts: seq<string>, sep: string): string
  {
    if |parts| == 0 then ""
    else if |parts| == 1 then parts[0]
    else parts[0] + sep + Join(parts[1..], sep)
  }

  /** `s.split(c)`: the pieces between the occurrences of `c`, so one more piece than occurrences. */
  function Split(s: string, c: char): (r: seq<string>)
    ensures |r| >= 1
    ensures forall i :: 0 <= i < |r| ==> c !in r[i]
    decreases |s|
  {
    var i := Find(s, c);
    if i == |s| then [s] else [s[..i]] + Split(s[i + 1..], c)
  }

  /** Splitting at the first `c`, when it follows a piece `p` that holds none. */
  lemma SplitFirst(p: string, c: char, t: string)
    requires c !in p
    ensures Split(p + [c] + t, c) == [p] + Split(t, c)
  {
    var s := p + [c] + t;
    assert s[..|p|] == p;
    assert s[|p|] == c;
    assert Find(s, c) == |p|;
    assert s[|p| + 1..] == t;
  }

  /** Splitting pieces joined by a character none of them holds gives the pieces back. */
  lemma {:induction false} SplitJoin(parts: seq<string>, c: char)
    requires |parts| >= 1
    requires forall i :: 0 <= i < |parts| ==> c !in parts[i]
    ensures Split(Join(parts, [c]), c) == parts
  {
    if |parts| == 1 {
      assert Find(parts[0], c) == |parts[0]|;
    } else {
      assert Join(parts, [c]) == parts[0] + [c] + Join(parts[1..], [c]);
      SplitFirst(parts[0], c, Join(parts[1..], [c]));
      SplitJoin(parts[1..], c);
      assert parts == [parts[0]] + parts[1..];
    }
  }

  function Concat(parts: seq<string>): string
  {
    if |parts| == 0 then "" else parts[0] + Concat(parts[1..])
  }

  lemma {:induction false} ConcatAppend(parts: seq<string>, last: string)
    ensures Concat(parts + [last]) == Concat(parts) + last
  {
    if |parts| == 0 {
      assert parts + [last] == [last];
    } else {
      assert (parts + [last])[1..] == parts[1..] + [last];
      ConcatAppend(parts[1..], last);
    }
  }

  /** `s.replace(pat, rep)`: every occurrence, scanning left to right without overlaps. */
  function ReplaceAll(s: string, pat: string, rep: string): string
    requires |pat| > 0
    decreases |s|
  {
    if StartsWith(s, pat) then rep + ReplaceAll(s[|pat|..], pat, rep)
    else if s == [] then []
    else [s[0]] + ReplaceAll(s[1..], pat, rep)
  }

  /** Replacing a pattern the text does not contain changes nothing. */
  lemma {:induction false} ReplaceAbsent(s: string, pat: string, rep: string)
    requires |pat| > 0 && !Contains(s, pat)
    ensures ReplaceAll(s, pat, rep) == s
    decreases |s|
  {
    if s != [] {
      ReplaceAbsent(s[1..], pat, rep);
    }
  }

  predicate IsDigit(c: char) { '0' <= c <= '9' }

  /** `str(n)` for an integer: decimal digits, with a leading `-` when negative. */
  function IntToString(n: int): (r: string)
    ensures |r| > 0
    ensures n >= 0 ==> forall i :: 0 <= i < |r| ==> IsDigit(r[i])
    ensures n < 0 ==> r[0] == '-'
    decreases if n < 0 then 1 - n else n
  {
    if n < 0 then "-" + IntToString(-n)
    else if n < 10 then [('0' as int + n) as char]
    else IntToString(n / 10) + [('0' as int + n % 10) as char]
  }

  // ---------------------------------------------------------------------
  // Lists
  // ---------------------------------------------------------------------

  /** Index of the first element equal to `x`, as `list.index` finds it. */
  function IndexOf<T(==)>(s: seq<T>, x: T): (i: nat)
    requires x in s
    ensures i < |s| && s[i] == x && x !in s[..i]
  {
    if s[0] == x then 0 else 1 + IndexOf(s[1..], x)
  }

  /** The first element whose key is `k`, as a loop that stops at the first match finds it. */
  function FirstWith<T, K(==)>(xs: seq<T>, key: T -> K, k: K): (r: Option<T>)
    ensures r.Some? ==> r.value in xs && key(r.value) == k
    ensures r.None? <==> forall i :: 0 <= i < |xs| ==> key(xs[i]) != k
  {
    if xs == [] then None else if key(xs[0]) == k then Some(xs[0]) else FirstWith(xs[1..], key, k)
  }

  /** The element at `n` is found when it has the key and none before it does. */
  lemma {:induction false} FirstWithAt<T, K>(xs: seq<T>, key: T -> K, k: K, n: nat)
    requires n < |xs| && key(xs[n]) == k && forall i :: 0 <= i < n ==> key(xs[i]) != k
    ensures FirstWith(xs, key, k) == Some(xs[n])
  {
    if n > 0 {
      FirstWithAt(xs[1..], key, k, n - 1);
    }
  }

  /** `list.remove(x)`: drops the first occurrence; `None` where Python raises `ValueError`. */
  function RemoveFirst<T(==)>(s: seq<T>, x: T): (r: Option<seq<T>>)
    ensures r.None? <==> x !in s
    ensures r.Some? ==> |r.value| + 1 == |s|
    ensures r.Some? ==> multiset(r.value) + multiset{x} == multiset(s)
    ensures r.Some? ==> var i := IndexOf(s, x); r.value == s[..i] + s[i + 1..]
  {
    if x !in s then None
    else
      var i := IndexOf(s, x);
      assert s == s[..i] + [s[i]] + s[i + 1..];
      Some(s[..i] + s[i + 1..])
  }

  /**
   * Appends each element of `xs` that is not yet present, checking against the
   * growing list, so the added part holds no duplicates.
   */
  function AppendNew<T(==,!new)>(acc: seq<T>, xs: seq<T>): (r: seq<T>)
    ensures |acc| <= |r| && r[..|acc|] == acc
    ensures forall x :: x in r <==> x in acc || x in xs
    ensures forall i :: |acc| <= i < |r| ==> r[i] !in acc
    ensures NoDup(r[|acc|..])
    ensures NoDup(acc) ==> NoDup(r)
    decreases |xs|
  {
    if xs == [] then acc
    else if xs[0] in acc then AppendNew(acc, xs[1..])
    else
      var r := AppendNew(acc + [xs[0]], xs[1..]);
      AppendNewStep(acc, xs[0], r);
      r
  }

  /** What one fresh element, appended before the rest, contributes to the facts `AppendNew` states. */
  lemma AppendNewStep<T>(acc: seq<T>, x: T, r: seq<T>)
    requires x !in acc
    requires |acc| + 1 <= |r| && r[..|acc| + 1] == acc + [x]
    requires forall i :: |acc| + 1 <= i < |r| ==> r[i] !in acc + [x]
    requires NoDup(r[|acc| + 1..])
    requires NoDup(acc + [x]) ==> NoDup(r)
    ensures r[..|acc|] == acc
    ensures forall i :: |acc| <= i < |r| ==> r[i] !in acc
    ensures NoDup(r[|acc|..])
    ensures NoDup(acc) ==> NoDup(r)
  {
    var acc' := acc + [x];
    assert r[..|acc|] == acc by { assert r[..|acc'|][..|acc|] == acc; }
    assert r[|acc|] == x by { assert r[..|acc'|][|acc|] == x; }
    assert r[|acc|..] == [x] + r[|acc'|..];
    forall i, j | 0 <= i < j < |r[|acc|..]| ensures r[|acc|..][i] != r[|acc|..][j] {
      if i == 0 { assert r[|acc| + j] !in acc'; }
      else { assert r[|acc|..][i] == r[|acc'|..][i - 1] && r[|acc|..][j] == r[|acc'|..][j - 1]; }
    }
    if NoDup(acc) { AppendFreshNoDup(acc, x); }
  }

  /** Every element of `d` occurs in `xs`, and `d` lists them in the order of their first occurrences there. */
  predicate InFirstOccurrenceOrder<T(==)>(d: seq<T>, xs: seq<T>)
  {
    && (forall i :: 0 <= i < |d| ==> d[i] in xs)
    && (forall i, j :: 0 <= i < j < |d| ==> IndexOf(xs, d[i]) < IndexOf(xs, d[j]))
  }

  /** An element of `xs` other than `x` is found one place later in `[x] + xs`. */
  lemma IndexOfCons<T>(x: T, xs: seq<T>, y: T)
    requires y in xs && y != x
    ensures IndexOf([x] + xs, y) == 1 + IndexOf(xs, y)
  {
    assert ([x] + xs)[1..] == xs;
  }

  /** Putting an element that `d` lacks in front of the input keeps the order. */
  lemma InOrderSkip<T>(d: seq<T>, x: T, xs: seq<T>)
    requires InFirstOccurrenceOrder(d, xs) && x !in d
    ensures InFirstOccurrenceOrder(d, [x] + xs)
  {
    forall i | 0 <= i < |d|
      ensures d[i] in [x] + xs
    {
      assert d[i] in xs;
    }
    forall i, j | 0 <= i < j < |d|
      ensures IndexOf([x] + xs, d[i]) < IndexOf([x] + xs, d[j])
    {
      var a, b := d[i], d[j];
      assert a in xs && b in xs && a != x && b != x;
      assert IndexOf(xs, a) < IndexOf(xs, b);
      IndexOfCons(x, xs, a);
      IndexOfCons(x, xs, b);
    }
  }

  /** Putting the same new element in front of both keeps the order. */
  lemma InOrderFront<T>(d: seq<T>, x: T, xs: seq<T>)
    requires InFirstOccurrenceOrder(d, xs) && x !in d
    ensures InFirstOccurrenceOrder([x] + d, [x] + xs)
  {
    var e, ys := [x] + d, [x] + xs;
    forall i | 0 <= i < |e|
      ensures e[i] in ys
    {
      if i > 0 { assert e[i] == d[i - 1] && d[i - 1] in xs; }
    }
    forall i, j | 0 <= i < j < |e|
      ensures IndexOf(ys, e[i]) < IndexOf(ys, e[j])
    {
      var b := d[j - 1];
      assert e[j] == b && b in xs && b != x;
      IndexOfCons(x, xs, b);
      if i > 0 {
        var a := d[i - 1];
        assert e[i] == a && a in xs && a != x;
        assert IndexOf(xs, a) < IndexOf(xs, b);
        IndexOfCons(x, xs, a);
      }
    }
  }

  /** The appended part lists its elements in the order of their first occurrences in `xs`. */
  lemma {:induction false} AppendedInOrder<T(!new)>(acc: seq<T>, xs: seq<T>)
    ensures InFirstOccurrenceOrder(AppendNew(acc, xs)[|acc|..], xs)
    decreases |xs|
  {
    var r := AppendNew(acc, xs);
    if xs != [] {
      assert xs == [xs[0]] + xs[1..];
      if xs[0] in acc {
        AppendedInOrder(acc, xs[1..]);
        assert xs[0] !in r[|acc|..];
        InOrderSkip(r[|acc|..], xs[0], xs[1..]);
      } else {
        var acc' := acc + [xs[0]];
        AppendedInOrder(acc', xs[1..]);
        assert r == AppendNew(acc', xs[1..]);
        var d' := r[|acc'|..];
        assert xs[0] !in d';
        assert r[|acc|..] == [xs[0]] + d' by { assert r[..|acc'|] == acc'; }
        InOrderFront(d', xs[0], xs[1..]);
      }
    }
  }

  /** Nothing is appended when every element is already present. */
  lemma {:induction false} AppendNewPresent<T(!new)>(acc: seq<T>, xs: seq<T>)
    requires forall x :: x in xs ==> x in acc
    ensures AppendNew(acc, xs) == acc
    decreases |xs|
  {
    if xs != [] {
      assert xs[0] in xs;
      AppendNewPresent(acc, xs[1..]);
    }
  }

  /** `[x for x in xs if x not in existing]`: duplicates inside `xs` survive. */
  function KeepAbsent<T(==,!new)>(xs: seq<T>, existing: seq<T>): (r: seq<T>)
    ensures |r| <= |xs|
    ensures forall x :: x in r <==> x in xs && x !in existing
    ensures forall x :: x !in existing ==> multiset(r)[x] == multiset(xs)[x]
  {
    if xs == [] then []
    else
      assert xs == [xs[0]] + xs[1..];
      (if xs[0] in existing then [] else [xs[0]]) + KeepAbsent(xs[1..], existing)
  }

  /** One step of the filter: the head survives exactly when it is not already present. */
  lemma KeepAbsentCons<T(!new)>(x: T, rest: seq<T>, existing: seq<T>)
    ensures KeepAbsent([x] + rest, existing) == (if x in existing then [] else [x]) + KeepAbsent(rest, existing)
  {
    var xs := [x] + rest;
    assert xs[0] == x && xs[1..] == rest;
  }

  /** Filtering keeps order: the survivors of a joined list are those of each part in turn. */
  lemma {:induction false} KeepAbsentConcat<T(!new)>(a: seq<T>, b: seq<T>, existing: seq<T>)
    ensures KeepAbsent(a + b, existing) == KeepAbsent(a, existing) + KeepAbsent(b, existing)
    ensures |a| == 1 ==> KeepAbsent(a, existing) == if a[0] in existing then [] else [a[0]]
  {
    if a == [] {
      assert a + b == b;
    } else {
      var t := a[1..];
      assert a == [a[0]] + t && a + b == [a[0]] + (t + b);
      KeepAbsentConcat(t, b, existing);
      KeepAbsentCons(a[0], t + b, existing);
      KeepAbsentCons(a[0], t, existing);
      var h := if a[0] in existing then [] else [a[0]];
      SeqAssoc(h, KeepAbsent(t, existing), KeepAbsent(b, existing));
      if |a| == 1 { assert t == []; }
    }
  }

  /** Concatenation is associative. */
  lemma SeqAssoc<T>(a: seq<T>, b: seq<T>, c: seq<T>)
    ensures a + (b + c) == (a + b) + c
  {
    assert |a + (b + c)| == |(a + b) + c|;
  }

  /** Number of elements of `s` equal to `x`. */
  function Count<T(==)>(s: seq<T>, x: T): nat
  {
    if s == [] then 0 else (if s[0] == x then 1 else 0) + Count(s[1..], x)
  }

  /**
   * Python's `s[lo:hi]` with negative bounds counted from the end and all
   * bounds clamped to the list.
   */
  function PyIndex(n: nat, i: int): (k: nat)
    ensures k <= n
  {
    if i < 0 then (if n + i < 0 then 0 else n + i) else if i > n then n else i
  }

  function PySlice<T>(s: seq<T>, lo: int, hi: int): (r: seq<T>)
    ensures 0 <= lo <= hi ==> r == s[Min(lo, |s|)..Min(hi, |s|)]
    ensures hi >= 0 && lo >= 0 ==> |r| <= Max(hi - lo, 0)
  {
    var a := PyIndex(|s|, lo);
    var b := PyIndex(|s|, hi);
    if a < b then s[a..b] else []
  }

  // ---------------------------------------------------------------------
  // Ordered dictionaries
  // ---------------------------------------------------------------------

  /**
   * A Python `dict` with string keys, as its entries in insertion order.
   * Dictionaries built with `Put` hold each key once.
   */
  type Dict<V> = seq<(string, V)>

  function Keys<V>(d: Dict<V>): (r: seq<string>)
    ensures |r| == |d| && forall i :: 0 <= i < |d| ==> r[i] == d[i].0
  {
    if d == [] then [] else [d[0].0] + Keys(d[1..])
  }

  /** `d.get(k)`: the value of the first entry with key `k`. */
  function Get<V>(d: Dict<V>, k: string): (r: Option<V>)
    ensures r.Some? <==> k in Keys(d)
  {
    if d == [] then None else if d[0].0 == k then Some(d[0].1) else Get(d[1..], k)
  }

  /** `d[k] = v`: an existing key keeps its place and takes the new value; a new key goes last. */
  function Put<V>(d: Dict<V>, k: string, v: V): (r: Dict<V>)
    ensures Keys(r) == if k in Keys(d) then Keys(d) else Keys(d) + [k]
    ensures Get(r, k) == Some(v)
    ensures forall x :: x != k ==> Get(r, x) == Get(d, x)
  {
    if d == [] then [(k, v)]
    else if d[0].0 == k then
      ConsEntry((k, v), d[1..]);
      ConsEntry(d[0], d[1..]);
      [(k, v)] + d[1..]
    else
      var rest := Put(d[1..], k, v);
      ConsEntry(d[0], rest);
      ConsEntry(d[0], d[1..]);
      [d[0]] + rest
  }

  /** The keys and lookups of a dictionary with one entry in front. */
  lemma ConsEntry<V>(e: (string, V), d: Dict<V>)
    ensures Keys([e] + d) == [e.0] + Keys(d)
    ensures forall x :: Get([e] + d, x) == if e.0 == x then Some(e.1) else Get(d, x)
  {
    assert ([e] + d)[1..] == d;
  }

  /** Assigning a key the value it already has changes nothing. */
  lemma {:induction false} PutPresent<V>(d: Dict<V>, k: string, v: V)
    requires Get(d, k) == Some(v)
    ensures Put(d, k, v) == d
  {
    if d[0].0 != k {
      PutPresent(d[1..], k, v);
    }
  }

  lemma PutKeepsNoDup<V>(d: Dict<V>, k: string, v: V)
    requires NoDup(Keys(d))
    ensures NoDup(Keys(Put(d, k, v)))
  {
  }

  /** `del d[k]` (for a key that is present): the other entries keep their values and their order. */
  function Delete<V>(d: Dict<V>, k: string): (r: Dict<V>)
    ensures Get(r, k) == None
    ensures forall x :: x != k ==> Get(r, x) == Get(d, x)
    ensures forall x :: x in Keys(r) <==> x in Keys(d) && x != k
    ensures NoDup(Keys(d)) ==> NoDup(Keys(r))
    ensures k !in Keys(d) ==> r == d
    ensures NoDup(Keys(d)) && k in Keys(d) ==> |r| + 1 == |d|
  {
    if d == [] then []
    else
      assert Keys(d) == [d[0].0] + Keys(d[1..]);
      assert NoDup(Keys(d)) ==> NoDup(Keys(d[1..])) && d[0].0 !in Keys(d[1..]) by {
        if NoDup(Keys(d)) {
          forall i | 0 <= i < |d| - 1 ensures Keys(d[1..])[i] != d[0].0 { assert Keys(d)[0] != Keys(d)[i + 1]; }
        }
      }
      var rest := Delete(d[1..], k);
      if d[0].0 == k then rest
      else
        assert Keys([d[0]] + rest) == [d[0].0] + Keys(rest);
        [d[0]] + rest
  }

  /** `list(d.values())`. */
  function Values<V>(d: Dict<V>): (r: seq<V>)
    ensures |r| == |d| && forall i :: 0 <= i < |d| ==> r[i] == d[i].1
  {
    seq(|d|, i requires 0 <= i < |d| => d[i].1)
  }

  /** The value of the last pair with key `k`: the one that wins when the pairs are assigned in order. */
  function LastValue<V>(ps: seq<(string, V)>, k: string): (r: Option<V>)
    ensures r.Some? <==> k in Keys(ps)
  {
    if ps == [] then None
    else if ps[|ps| - 1].0 == k then Some(ps[|ps| - 1].1)
    else
      assert Keys(ps) == Keys(ps[..|ps| - 1]) + [ps[|ps| - 1].0];
      LastValue(ps[..|ps| - 1], k)
  }

  /** A pair whose key no later pair repeats gives that key its last value. */
  lemma {:induction false} LastValueAt<V>(ps: seq<(string, V)>, i: nat)
    requires i < |ps| && forall j :: i < j < |ps| ==> ps[j].0 != ps[i].0
    ensures LastValue(ps, ps[i].0) == Some(ps[i].1)
  {
    var n := |ps| - 1;
    if i < n {
      var pre := ps[..n];
      assert ps[n].0 != ps[i].0;
      assert pre[i] == ps[i];
      LastValueAt(pre, i);
    }
  }

  /** `d.update(pairs)`: each pair assigned in turn. */
  function Update<V>(d: Dict<V>, ps: seq<(string, V)>): (r: Dict<V>)
    ensures forall x :: x in Keys(r) <==> x in Keys(d) || x in Keys(ps)
    ensures |Keys(d)| <= |Keys(r)| && Keys(r)[..|Keys(d)|] == Keys(d)
  {
    if ps == [] then d
    else
      var prev := Update(d, ps[..|ps| - 1]);
      var (k, v) := ps[|ps| - 1];
      KeysSnoc(ps);
      var r := Put(prev, k, v);
      assert forall x :: x in Keys(r) <==> x in Keys(prev) || x == k;
      assert Keys(r)[..|Keys(prev)|] == Keys(prev);
      PrefixOfPrefix(Keys(r), Keys(prev), |Keys(d)|);
      r
  }

  lemma KeysSnoc<V>(ps: seq<(string, V)>)
    requires |ps| > 0
    ensures Keys(ps) == Keys(ps[..|ps| - 1]) + [ps[|ps| - 1].0]
  {
    var a, b := Keys(ps), Keys(ps[..|ps| - 1]) + [ps[|ps| - 1].0];
    assert |a| == |b|;
    forall i | 0 <= i < |a| ensures a[i] == b[i] {
      if i < |ps| - 1 {
        assert b[i] == Keys(ps[..|ps| - 1])[i] == ps[..|ps| - 1][i].0;
      }
    }
  }

  lemma PrefixOfPrefix<T>(a: seq<T>, b: seq<T>, m: nat)
    requires |b| <= |a| && a[..|b|] == b && m <= |b|
    ensures a[..m] == b[..m]
  {
    assert forall i :: 0 <= i < m ==> a[..m][i] == a[..|b|][i];
  }

  lemma {:induction false} UpdateKeepsNoDup<V>(d: Dict<V>, ps: seq<(string, V)>)
    requires NoDup(Keys(d))
    ensures NoDup(Keys(Update(d, ps)))
  {
    if ps != [] {
      UpdateKeepsNoDup(d, ps[..|ps| - 1]);
      PutKeepsNoDup(Update(d, ps[..|ps| - 1]), ps[|ps| - 1].0, ps[|ps| - 1].1);
    }
  }

  /** After `d.update(ps)` a key carries its last value in `ps`, or its old value when `ps` lacks it. */
  lemma {:induction false} UpdateGet<V>(d: Dict<V>, ps: seq<(string, V)>, k: string)
    ensures Get(Update(d, ps), k) == if k in Keys(ps) then LastValue(ps, k) else Get(d, k)
  {
    if ps != [] {
      var pre := ps[..|ps| - 1];
      var (k', v') := ps[|ps| - 1];
      assert Keys(ps) == Keys(pre) + [k'];
      assert Update(d, ps) == Put(Update(d, pre), k', v');
      assert LastValue(ps, k) == if k' == k then Some(v') else LastValue(pre, k);
      UpdateGet(d, pre, k);
    }
  }

  /** Two updates in a row are one update with both pair lists. */
  lemma {:induction false} UpdateConcat<V>(d: Dict<V>, a: seq<(string, V)>, b: seq<(string, V)>)
    ensures Update(Update(d, a), b) == Update(d, a + b)
  {
    if b != [] {
      assert (a + b)[..|a + b| - 1] == a + b[..|b| - 1];
      assert (a + b)[|a + b| - 1] == b[|b| - 1];
      UpdateConcat(d, a, b[..|b| - 1]);
    } else {
      assert a + b == a;
    }
  }

  lemma {:induction false} GetAppend<V>(d: Dict<V>, e: (string, V), k: string)
    ensures Get(d + [e], k) == if k in Keys(d) then Get(d, k) else if e.0 == k then Some(e.1) else None
  {
    if d != [] {
      assert (d + [e])[1..] == d[1..] + [e];
      assert Keys(d) == [d[0].0] + Keys(d[1..]);
      GetAppend(d[1..], e, k);
    }
  }

  /** In a dictionary, where each key appears once, looking up the key of an entry finds that entry. */
  lemma {:induction false} GetAt<V>(d: Dict<V>, i: nat)
    requires i < |d| && NoDup(Keys(d))
    ensures Get(d, d[i].0) == Some(d[i].1)
  {
    if i > 0 {
      assert Keys(d)[0] != Keys(d)[i];
      assert Keys(d[1..]) == Keys(d)[1..];
      GetAt(d[1..], i - 1);
    }
  }

  /** In a dictionary, where each key appears once, the last value of a key is its only one. */
  lemma {:induction false} LastValueOfDict<V>(d: Dict<V>, k: string)
    requires NoDup(Keys(d))
    ensures LastValue(d, k) == Get(d, k)
  {
    if d != [] {
      var n := |d| - 1;
      assert d == d[..n] + [d[n]];
      assert Keys(d[..n]) == Keys(d)[..n];
      GetAppend(d[..n], d[n], k);
      if d[n].0 != k {
        LastValueOfDict(d[..n], k);
      } else {
        assert k !in Keys(d[..n]) by {
          forall i | 0 <= i < n ensures Keys(d[..n])[i] != k { assert Keys(d)[i] != Keys(d)[n]; }
        }
      }
    }
  }

  /** Assigning the entries of a dictionary one by one into an empty one finds each entry's value under its key. */
  lemma UpdateFreshGet<V>(ps: Dict<V>, i: nat)
    requires i < |ps| && NoDup(Keys(ps))
    ensures Get(Update([], ps), ps[i].0) == Some(ps[i].1)
  {
    var k := ps[i].0;
    assert Keys(ps)[i] == k;
    UpdateGet([], ps, k);
    LastValueOfDict(ps, k);
    GetAt(ps, i);
  }

  // ---------------------------------------------------------------------
  // URLs
  // ---------------------------------------------------------------------

  /** The two parts of `urlparse(url)` the backend looks at. */
  datatype UrlParts = UrlParts(scheme: string, netloc: string)

  predicate IsAsciiLetter(c: char) { 'a' <= c <= 'z' || 'A' <= c <= 'Z' }

  predicate IsSchemeChar(c: char)
  {
    IsAsciiLetter(c) || '0' <= c <= '9' || c == '+' || c == '-' || c == '.'
  }

  /** Index of the first `c` in `s`, or `|s|` when there is none. */
  function Find(s: string, c: char): (i: nat)
    ensures i <= |s| && c !in s[..i] && (i < |s| ==> s[i] == c)
  {
    if |s| == 0 then 0 else if s[0] == c then 0 else 1 + Find(s[1..], c)
  }

  /** Length of the netloc that starts `s`: it ends at the first `/`, `?` or `#`. */
  function NetlocEnd(s: string): (i: nat)
    ensures i <= |s|
    ensures forall k :: 0 <= k < i ==> s[k] != '/' && s[k] != '?' && s[k] != '#'
    ensures i < |s| ==> s[i] == '/' || s[i] == '?' || s[i] == '#'
  {
    if |s| == 0 || s[0] == '/' || s[0] == '?' || s[0] == '#' then 0 else 1 + NetlocEnd(s[1..])
  }

  /**
   * `urlparse`: a scheme is the text before the first `:` when it starts
   * with a letter and holds only scheme characters (it is lower-cased); a
   * netloc follows only when the rest starts with `//`.
   */
  function SplitUrl(url: string): (r: UrlParts)
    ensures r.scheme == Lower(r.scheme)
    ensures |r.netloc| > 0 ==> Contains(url, "//")
  {
    var i := Find(url, ':');
    var hasScheme := 0 < i < |url| && IsAsciiLetter(url[0])
                     && forall k :: 0 <= k < i ==> IsSchemeChar(url[k]);
    var scheme := if hasScheme then Lower(url[..i]) else "";
    var rest := if hasScheme then url[i + 1..] else url;
    assert Lower(scheme) == scheme by {
      forall k | 0 <= k < |scheme| ensures LowerChar(scheme[k]) == scheme[k] { }
    }
    if StartsWith(rest, "//") then
      var n := NetlocEnd(rest[2..]);
      var netloc := rest[2..][..n];
      assert |netloc| > 0 ==> Contains(url, "//") by {
        if |netloc| > 0 { SuffixContains(url, rest, "//"); }
      }
      UrlParts(scheme, netloc)
    else
      UrlParts(scheme, "")
  }

  /** A URL written as scheme, `://`, host and a path starting with `/` has that host as its netloc. */
  lemma NetlocOfParts(scheme: string, host: string, path: string)
    requires |scheme| > 0 && IsAsciiLetter(scheme[0]) && forall k :: 0 <= k < |scheme| ==> IsSchemeChar(scheme[k])
    requires forall k :: 0 <= k < |host| ==> host[k] != '/' && host[k] != '?' && host[k] != '#'
    requires |path| > 0 && path[0] == '/'
    ensures SplitUrl(scheme + "://" + host + path).netloc == host
  {
    var url := scheme + "://" + host + path;
    var i := |scheme|;
    assert url[i] == ':';
    assert ':' !in url[..i] by {
      assert url[..i] == scheme;
      forall k | 0 <= k < i ensures scheme[k] != ':' { assert IsSchemeChar(scheme[k]); }
    }
    assert Find(url, ':') == i;
    var tail := url[i + 3..];
    assert tail == host + path;
    assert tail[|host|] == '/';
    assert NetlocEnd(tail) == |host|;
    assert url[i + 1] == '/' && url[i + 2] == '/';
    var rest := url[i + 1..];
    assert StartsWith(rest, "//");
    assert rest[2..] == tail;
    assert tail[..|host|] == host;
  }

  lemma {:induction false} SuffixContains(s: string, suffix: string, needle: string)
    requires |suffix| <= |s| && s[|s| - |suffix|..] == suffix
    requires StartsWith(suffix, needle)
    ensures Contains(s, needle)
    decreases |s|
  {
    if |suffix| == |s| {
      assert s == suffix;
    } else {
      assert s[1..][|s[1..]| - |suffix|..] == suffix;
      SuffixContains(s[1..], suffix, needle);
    }
  }

  /** `urlparse(url).netloc or "unknown"`. */
  function ExtractDomain(url: string): (d: string)
    ensures |d| > 0
    ensures d == "unknown" || d == SplitUrl(url).netloc
  {
    var n := SplitUrl(url).netloc;
    if |n| > 0 then n else "unknown"
  }
}
