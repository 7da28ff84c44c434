/** Strings as sequences of characters, with the operations of Go's `strings`
    package that the modelled code relies on. Case mapping covers ASCII. */
module Text {
  datatype Option<+T> = None | Some(value: T)

  datatype Result<+T, +E> = Success(value: T) | Failure(error: E)

  /** `unicode.IsSpace` on the code points that have the White_Space property. */
  predicate IsSpace(c: char) {
    '\t' <= c <= '\r' || c in {' ', '\U{85}', '\U{A0}', '\U{1680}'} || '\U{2000}' <= c <= '\U{200A}'
    || c in {'\U{2028}', '\U{2029}', '\U{202F}', '\U{205F}', '\U{3000}'}
  }

  /** `unicode.IsControl`. */
  predicate IsControl(c: char) {
    c < ' ' || '\U{7F}' <= c <= '\U{9F}'
  }

  function LowerChar(c: char): char {
    if 'A' <= c <= 'Z' then (c as int + 32) as char else c
  }

  function UpperChar(c: char): char {
    if 'a' <= c <= 'z' then (c as int - 32) as char else c
  }

  function Lower(s: string): (r: string)
    ensures |r| == |s|
    ensures forall i :: 0 <= i < |s| ==> r[i] == LowerChar(s[i])
  {
    seq(|s|, i requires 0 <= i < |s| => LowerChar(s[i]))
  }

  function Upper(s: string): (r: string)
    ensures |r| == |s|
    ensures forall i :: 0 <= i < |s| ==> r[i] == UpperChar(s[i])
  {
    seq(|s|, i requires 0 <= i < |s| => UpperChar(s[i]))
  }

  function TrimLeft(s: string): string {
    if s != [] && IsSpace(s[0]) then TrimLeft(s[1..]) else s
  }

  function TrimRight(s: string): string {
    if s != [] && IsSpace(s[|s| - 1]) then TrimRight(s[..|s| - 1]) else s
  }

  function Trim(s: string): string {
    TrimRight(TrimLeft(s))
  }

  /** True of exactly the strings that `Trim` leaves alone; see `TrimmedIsFixed`. */
  predicate IsTrimmed(s: string) {
    s == [] || (!IsSpace(s[0]) && !IsSpace(s[|s| - 1]))
  }

  predicate HasSuffix(s: string, suffix: string) {
    |suffix| <= |s| && s[|s| - |suffix|..] == suffix
  }

  /** `strings.Contains`. */
  predicate Contains(s: string, part: string) {
    part <= s || (s != [] && Contains(s[1..], part))
  }

  predicate Excludes(s: string, cs: set<char>) {
    forall i :: 0 <= i < |s| ==> s[i] !in cs
  }

  /** Index of the first occurrence of `c`, or `|s|` when there is none. */
  function IndexOf(s: string, c: char): (i: nat)
    ensures i <= |s|
    ensures i < |s| ==> s[i] == c
    ensures c !in s[..i]
  {
    if s == [] || s[0] == c then 0 else 1 + IndexOf(s[1..], c)
  }

  /** `strings.Split` on a one-character separator: never empty. */
  function Split(s: string, sep: char): (parts: seq<string>)
    ensures parts != []
    decreases |s|
  {
    var i := IndexOf(s, sep);
    if i == |s| then [s] else [s[..i]] + Split(s[i + 1..], sep)
  }

  /** `strings.Join` with a one-character separator. */
  function Join(parts: seq<string>, sep: char): string {
    if parts == [] then ""
    else if |parts| == 1 then parts[0]
    else parts[0] + [sep] + Join(parts[1..], sep)
  }

  /** The first separator is the one that a text without it is put before. */
  lemma {:induction false} IndexOfFirst(left: string, right: string, c: char)
    requires c !in left
    ensures IndexOf(left + [c] + right, c) == |left|
  {
    if left != [] {
      assert (left + [c] + right)[1..] == left[1..] + [c] + right;
      IndexOfFirst(left[1..], right, c);
    }
  }

  lemma SplitAtSeparator(left: string, right: string, sep: char)
    requires sep !in left
    ensures Split(left + [sep] + right, sep) == [left] + Split(right, sep)
  {
    var s := left + [sep] + right;
    IndexOfFirst(left, right, sep);
    assert s[..|left|] == left && s[|left| + 1..] == right;
  }

  lemma {:induction false} SplitWithout(s: string, sep: char)
    requires sep !in s
    ensures IndexOf(s, sep) == |s| && Split(s, sep) == [s]
  {
    assert forall k :: 0 <= k < |s| ==> s[k] in s;
  }

  predicate IsDigit(c: char) {
    '0' <= c <= '9'
  }

  function DigitValue(c: char): nat
    requires IsDigit(c)
  {
    c as int - '0' as int
  }

  predicate AllDigits(s: string) {
    forall i :: 0 <= i < |s| ==> IsDigit(s[i])
  }

  function DigitsValue(s: string): nat
    requires AllDigits(s)
  {
    if s == [] then 0
    else
      assert IsDigit(s[|s| - 1]);
      10 * DigitsValue(s[..|s| - 1]) + DigitValue(s[|s| - 1])
  }

  /** `strconv.Atoi`, on unbounded integers. */
  function Atoi(s: string): Option<int> {
    var negative := s != [] && s[0] == '-';
    var digits := if s != [] && (s[0] == '-' || s[0] == '+') then s[1..] else s;
    if digits != [] && AllDigits(digits) then
      Some(if negative then 0 - DigitsValue(digits) else DigitsValue(digits) as int)
    else
      None
  }

  lemma TrimmedIsFixed(s: string)
    ensures IsTrimmed(s) <==> Trim(s) == s
  {
    if s != [] && IsSpace(s[0]) {
      TrimShortens(s);
    } else if s != [] && IsSpace(s[|s| - 1]) {
      TrimRightShortens(s[..|s| - 1]);
    }
  }

  lemma TrimIsTrimmed(s: string)
    ensures IsTrimmed(Trim(s)) && Trim(Trim(s)) == Trim(s)
  {
    TrimLeftStart(s);
    TrimRightEnd(TrimLeft(s));
    TrimmedIsFixed(Trim(s));
  }

  lemma TrimLeftStart(s: string)
    ensures TrimLeft(s) == [] || !IsSpace(TrimLeft(s)[0])
  {
  }

  lemma TrimRightEnd(s: string)
    ensures TrimRight(s) <= s
    ensures TrimRight(s) == [] || !IsSpace(TrimRight(s)[|TrimRight(s)| - 1])
  {
    TrimRightShortens(s);
  }

  lemma TrimRightShortens(s: string)
    ensures |TrimRight(s)| <= |s|
    ensures TrimRight(s) <= s
  {
    if s != [] && IsSpace(s[|s| - 1]) {
      TrimRightShortens(s[..|s| - 1]);
    }
  }

  lemma TrimLeftShortens(s: string)
    ensures |TrimLeft(s)| <= |s|
    ensures s != [] && IsSpace(s[0]) ==> |TrimLeft(s)| < |s|
  {
    if s != [] && IsSpace(s[0]) {
      TrimLeftShortens(s[1..]);
    }
  }

  lemma TrimShortens(s: string)
    requires s != [] && IsSpace(s[0])
    ensures |Trim(s)| < |s|
  {
    TrimLeftShortens(s);
    TrimRightShortens(TrimLeft(s));
  }

  // ---- Lexicographic order, as Go's `sort.Strings` compares (by code point) ----

  predicate Less(a: string, b: string) {
    b != [] && (a == [] || a[0] < b[0] || (a[0] == b[0] && Less(a[1..], b[1..])))
  }

  lemma {:induction false} LessIsTotal(a: string, b: string)
    ensures Less(a, b) || a == b || Less(b, a)
  {
    if a != [] && b != [] && a[0] == b[0] {
      LessIsTotal(a[1..], b[1..]);
      assert a == [a[0]] + a[1..] && b == [b[0]] + b[1..];
    }
  }

  lemma {:induction false} LessIsTransitive(a: string, b: string, c: string)
    requires Less(a, b) && Less(b, c)
    ensures Less(a, c)
  {
    if a != [] && a[0] == b[0] == c[0] {
      LessIsTransitive(a[1..], b[1..], c[1..]);
    }
  }

  predicate StrictlySorted(keys: seq<string>) {
    forall i, j :: 0 <= i < j < |keys| ==> Less(keys[i], keys[j])
  }

  predicate Distinct<T(==)>(xs: seq<T>) {
    forall i, j :: 0 <= i < j < |xs| ==> xs[i] != xs[j]
  }

  function Elements<T>(xs: seq<T>): set<T> {
    set x | x in xs
  }

  /** Places `key` at its sorted position. */
  method InsertSorted(keys: seq<string>, key: string) returns (out: seq<string>)
    requires StrictlySorted(keys)
    ensures StrictlySorted(out)
    ensures Elements(out) == Elements(keys) + {key}
  {
    var i := 0;
    while i < |keys| && Less(keys[i], key)
      invariant 0 <= i <= |keys|
      invariant forall k :: 0 <= k < i ==> Less(keys[k], key)
    {
      i := i + 1;
    }
    if i < |keys| && keys[i] == key {
      return keys;
    }
    if i < |keys| {
      LessIsTotal(keys[i], key);
      forall k | i < k < |keys| ensures Less(key, keys[k]) {
        LessIsTransitive(key, keys[i], keys[k]);
      }
    }
    out := keys[..i] + [key] + keys[i..];
  }

  /** The keys of a string-keyed map in ascending order. */
  method SortedKeys(keys: set<string>) returns (out: seq<string>)
    ensures StrictlySorted(out)
    ensures Elements(out) == keys
  {
    out := [];
    var rest := keys;
    while rest != {}
      invariant StrictlySorted(out)
      invariant Elements(out) + rest == keys
      decreases rest
    {
      var key :| key in rest;
      out := InsertSorted(out, key);
      rest := rest - {key};
    }
  }

  lemma ElementsOfNonEmpty<T>(xs: seq<T>)
    ensures xs != [] <==> Elements(xs) != {}
  {
    if xs != [] {
      assert xs[0] in Elements(xs);
    }
  }

  /** A strictly sorted listing of a set is unique. */
  lemma {:induction false} SortedListingUnique(a: seq<string>, b: seq<string>)
    requires StrictlySorted(a) && StrictlySorted(b) && Elements(a) == Elements(b)
    ensures a == b
  {
    if a == [] {
      ElementsOfNonEmpty(b);
    } else {
      assert a[0] in Elements(b);
      var j :| 0 <= j < |b| && b[j] == a[0];
      assert b[0] in Elements(a);
      var i :| 0 <= i < |a| && a[i] == b[0];
      if a[0] != b[0] {
        assert Less(a[0], a[i]) && Less(b[0], b[j]);
        LessIsTransitive(a[0], b[0], a[0]);
        LessIrreflexive(a[0]);
      }
      LessIrreflexive(a[0]);
      assert Elements(a[1..]) == Elements(a) - {a[0]};
      assert Elements(b[1..]) == Elements(b) - {a[0]};
      SortedListingUnique(a[1..], b[1..]);
      assert a == [a[0]] + a[1..] && b == [b[0]] + b[1..];
    }
  }

  lemma LessIrreflexive(a: string)
    ensures !Less(a, a)
  {
    if a != [] {
      LessIrreflexive(a[1..]);
    }
  }
}
