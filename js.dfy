/** The JavaScript built-ins the components rely on, stated over Dafny values:
    possibly-undefined strings and their truthiness, `a || b`, `toLowerCase`
    (ASCII letters only), `includes`, `trim`, `length` (UTF-16 code units),
    `Array.prototype.filter` and the decimal rendering of an integer inside a
    template literal. */
module Js {

  /** A value that may be `undefined` (or `null`). */
  datatype Option<+T> = None | Some(value: T)

  /** JavaScript truthiness of a string that may be undefined: `undefined`
      and the empty string are falsy, every other string is truthy. */
  predicate Truthy(v: Option<string>) {
    v.Some? && v.value != ""
  }

  /** `a || b`: the left operand when it is truthy, otherwise the right one. */
  function Or(a: Option<string>, b: Option<string>): (r: Option<string>)
    ensures Truthy(r) <==> Truthy(a) || Truthy(b)
    ensures Truthy(a) ==> r == a
    ensures !Truthy(a) ==> r == b
  {
    if Truthy(a) then a else b
  }

  // ---------------------------------------------------------------------
  // toLowerCase and includes

  function LowerChar(c: char): char {
    if 'A' <= c <= 'Z' then (c as int + 32) as char else c
  }

  /** `s.toLowerCase()`, restricted to the ASCII letters. */
  function Lower(s: string): (r: string)
    ensures |r| == |s|
    ensures forall i :: 0 <= i < |s| ==> r[i] == LowerChar(s[i])
  {
    seq(|s|, i requires 0 <= i < |s| => LowerChar(s[i]))
  }

  /** `s.includes(t)`: `t` occurs in `s` at some offset. */
  function Includes(s: string, t: string): (r: bool)
    ensures r <==> exists i :: 0 <= i <= |s| - |t| && t <= s[i..]
    decreases |s|
  {
    if |t| > |s| then false
    else if t <= s then
      assert s[0..] == s;
      true
    else
      var r := Includes(s[1..], t);
      assert forall i :: 1 <= i <= |s| ==> s[1..][i - 1..] == s[i..];
      r
  }

  /** Every string includes the empty string, so an empty search keeps everything. */
  lemma IncludesEmpty(s: string)
    ensures Includes(s, "")
  {
    assert "" <= s[0..];
  }

  // ---------------------------------------------------------------------
  // trim

  /** The characters `String.prototype.trim` removes: the ECMAScript
      WhiteSpace and LineTerminator code points. */
  predicate IsWhitespace(c: char) {
    || c == '\t' || c == '\n' || c == '\U{B}' || c == '\U{C}' || c == '\r' || c == ' '
    || c == '\U{A0}' || c == '\U{1680}' || ('\U{2000}' <= c <= '\U{200A}')
    || c == '\U{2028}' || c == '\U{2029}' || c == '\U{202F}' || c == '\U{205F}'
    || c == '\U{3000}' || c == '\U{FEFF}'
  }

  /** Drops the leading whitespace: the result is a suffix of `s`, everything
      dropped is whitespace, and the result does not start with whitespace. */
  function TrimStart(s: string): (r: string)
    ensures |r| <= |s| && r == s[|s| - |r|..]
    ensures forall i :: 0 <= i < |s| - |r| ==> IsWhitespace(s[i])
    ensures r != [] ==> !IsWhitespace(r[0])
    decreases |s|
  {
    if s != [] && IsWhitespace(s[0]) then TrimStart(s[1..]) else s
  }

  /** Drops the trailing whitespace: the result is a prefix of `s`, everything
      dropped is whitespace, and the result does not end with whitespace. */
  function TrimEnd(s: string): (r: string)
    ensures |r| <= |s| && r == s[..|r|]
    ensures forall i :: |r| <= i < |s| ==> IsWhitespace(s[i])
    ensures r != [] ==> !IsWhitespace(r[|r| - 1])
    decreases |s|
  {
    if s != [] && IsWhitespace(s[|s| - 1]) then TrimEnd(s[..|s| - 1]) else s
  }

  /** `s.trim()`. */
  function Trim(s: string): string {
    TrimEnd(TrimStart(s))
  }

  /** `r` is the slice of `s` starting at `i` with only `p` elements around
      it, and it neither begins nor ends with a `p` element. */
  ghost predicate Stripped<T>(s: seq<T>, r: seq<T>, i: nat, p: T -> bool) {
    && i + |r| <= |s| && r == s[i..i + |r|]
    && (forall j :: 0 <= j < i ==> p(s[j]))
    && (forall j :: i + |r| <= j < |s| ==> p(s[j]))
    && (r != [] ==> !p(r[0]) && !p(r[|r| - 1]))
  }

  /** `s.trim()` is the part of `s` from its first to its last character that
      is not whitespace: only whitespace lies around it, and it neither
      begins nor ends with whitespace. */
  lemma TrimShape(s: string)
    ensures Stripped(s, Trim(s), |s| - |TrimStart(s)|, IsWhitespace)
  {
    StripShape(s, TrimStart(s), Trim(s), IsWhitespace);
  }

  /** Dropping a run of `p` elements from the front of `s`, giving `t`, and
      then from the back of `t`, giving `r`, leaves `r` stripped out of `s`. */
  lemma StripShape<T>(s: seq<T>, t: seq<T>, r: seq<T>, p: T -> bool)
    requires |t| <= |s| && t == s[|s| - |t|..]
    requires forall j :: 0 <= j < |s| - |t| ==> p(s[j])
    requires t != [] ==> !p(t[0])
    requires |r| <= |t| && r == t[..|r|]
    requires forall j :: |r| <= j < |t| ==> p(t[j])
    requires r != [] ==> !p(r[|r| - 1])
    ensures Stripped(s, r, |s| - |t|, p)
  {
    var i := |s| - |t|;
    SliceOfSuffix(s, i, |r|);
    forall j | i + |r| <= j < |s|
      ensures p(s[j])
    {
      assert s[j] == t[j - i];
    }
    if r != [] {
      assert r[0] == t[0];
    }
  }

  /** A prefix of a suffix is a slice. */
  lemma SliceOfSuffix<T>(s: seq<T>, i: nat, n: nat)
    requires i + n <= |s|
    ensures s[i..][..n] == s[i..i + n]
  {
  }

  /** `s.trim()` is the empty string exactly when `s` consists of whitespace only. */
  lemma TrimEmptyIffBlank(s: string)
    ensures Trim(s) == "" <==> forall i :: 0 <= i < |s| ==> IsWhitespace(s[i])
  {
    var t := TrimStart(s);
    if Trim(s) == "" {
      forall i | 0 <= i < |s| ensures IsWhitespace(s[i]) {
        if i >= |s| - |t| {
          assert t[i - (|s| - |t|)] == s[i];
        }
      }
    } else {
      var r := Trim(s);
      assert r[0] == t[0];
      if t == s[|s| - |t|..] && |t| > 0 {
        assert s[|s| - |t|] == t[0];
        assert !IsWhitespace(s[|s| - |t|]);
      }
    }
  }

  // ---------------------------------------------------------------------
  // length

  /** The number of UTF-16 code units JavaScript uses for one character. */
  function Utf16Units(c: char): nat {
    if c as int > 0xFFFF then 2 else 1
  }

  /** `s.length`: counted in UTF-16 code units, so a character outside the
      Basic Multilingual Plane counts twice. */
  function Utf16Length(s: string): (n: nat)
    ensures |s| <= n <= 2 * |s|
    ensures (forall i :: 0 <= i < |s| ==> s[i] as int <= 0xFFFF) ==> n == |s|
    decreases |s|
  {
    if s == [] then 0 else Utf16Units(s[0]) + Utf16Length(s[1..])
  }

  // ---------------------------------------------------------------------
  // filter

  /** `r` is `s` with some elements left out, the rest in their original order. */
  predicate IsSubsequence<T(==)>(r: seq<T>, s: seq<T>)
    decreases |s|
  {
    if r == [] then true
    else if s == [] then false
    else if r[0] == s[0] then IsSubsequence(r[1..], s[1..])
    else IsSubsequence(r, s[1..])
  }

  function Indicator(b: bool): nat {
    if b then 1 else 0
  }

  /** The number of elements satisfying `p`, counted position by position
      (an element that occurs twice counts twice). */
  function CountWhere<T>(s: seq<T>, p: T -> bool): (n: nat)
    ensures n <= |s|
    decreases |s|
  {
    if s == [] then 0 else Indicator(p(s[0])) + CountWhere(s[1..], p)
  }

  /** `s.filter(p)`: the elements satisfying `p`, in their original order,
      each as often as it occurs in `s`. */
  function Filter<T(==)>(s: seq<T>, p: T -> bool): (r: seq<T>)
    ensures IsSubsequence(r, s)
    ensures forall i :: 0 <= i < |r| ==> r[i] in s && p(r[i])
    ensures forall i :: 0 <= i < |s| && p(s[i]) ==> s[i] in r
    ensures |r| == CountWhere(s, p)
    decreases |s|
  {
    if s == [] then []
    else if p(s[0]) then [s[0]] + Filter(s[1..], p)
    else Filter(s[1..], p)
  }

  /** A subsequence of elements satisfying `p` is no longer than the number
      of positions satisfying `p`. */
  lemma {:induction false} SubsequenceCount<T>(r: seq<T>, s: seq<T>, p: T -> bool)
    requires IsSubsequence(r, s)
    requires forall i :: 0 <= i < |r| ==> p(r[i])
    ensures |r| <= CountWhere(s, p)
    decreases |s|
  {
    if r != [] && s != [] {
      if r[0] == s[0] {
        SubsequenceCount(r[1..], s[1..], p);
      } else {
        SubsequenceCount(r, s[1..], p);
      }
    }
  }

  /** The contract of `Filter` determines its result: an ordered
      subsequence of elements satisfying `p`, as long as the number of
      positions satisfying `p`, is the filtered list. */
  lemma {:induction false} FilterDetermined<T>(s: seq<T>, p: T -> bool, r: seq<T>)
    requires IsSubsequence(r, s)
    requires forall i :: 0 <= i < |r| ==> p(r[i])
    requires |r| == CountWhere(s, p)
    ensures r == Filter(s, p)
    decreases |s|
  {
    if s != [] {
      if r != [] && r[0] == s[0] {
        assert p(r[0]);
        FilterDetermined(s[1..], p, r[1..]);
        assert r == [r[0]] + r[1..];
      } else {
        SubsequenceCount(r, s[1..], p);
        FilterDetermined(s[1..], p, r);
      }
    }
  }

  /** Filtering with a predicate that holds of every element keeps the list. */
  lemma {:induction false} FilterKeepsAll<T>(s: seq<T>, p: T -> bool)
    requires forall i :: 0 <= i < |s| ==> p(s[i])
    ensures Filter(s, p) == s
    decreases |s|
  {
    if s != [] {
      FilterKeepsAll(s[1..], p);
      assert s == [s[0]] + s[1..];
    }
  }

  /** Predicates that agree on the elements filter alike. */
  lemma FilterSamePredicate<T>(s: seq<T>, p: T -> bool, q: T -> bool)
    requires forall i :: 0 <= i < |s| ==> p(s[i]) == q(s[i])
    ensures Filter(s, p) == Filter(s, q)
    decreases |s|
  {
    if s != [] {
      FilterSamePredicate(s[1..], p, q);
    }
  }

  /** One step of the count, from position `k`. */
  lemma CountWhereStep<T>(s: seq<T>, k: nat, p: T -> bool)
    requires k < |s|
    ensures CountWhere(s[k..], p) == Indicator(p(s[k])) + CountWhere(s[k + 1..], p)
  {
    assert s[k..][1..] == s[k + 1..];
  }

  /** The length of a filtered eight-element list, entry by entry. */
  lemma FilterLength8<T>(s: seq<T>, p: T -> bool)
    requires |s| == 8
    ensures |Filter(s, p)| ==
              Indicator(p(s[0])) + Indicator(p(s[1])) + Indicator(p(s[2])) + Indicator(p(s[3]))
              + Indicator(p(s[4])) + Indicator(p(s[5])) + Indicator(p(s[6])) + Indicator(p(s[7]))
  {
    CountWhere8(s, p);
  }

  /** The count over an eight-element list, entry by entry. */
  lemma CountWhere8<T>(s: seq<T>, p: T -> bool)
    requires |s| == 8
    ensures CountWhere(s, p) ==
              Indicator(p(s[0])) + Indicator(p(s[1])) + Indicator(p(s[2])) + Indicator(p(s[3]))
              + Indicator(p(s[4])) + Indicator(p(s[5])) + Indicator(p(s[6])) + Indicator(p(s[7]))
  {
    CountWhereStep(s, 0, p);
    CountWhereStep(s, 1, p);
    CountWhereStep(s, 2, p);
    CountWhereStep(s, 3, p);
    CountWhereStep(s, 4, p);
    CountWhereStep(s, 5, p);
    CountWhereStep(s, 6, p);
    CountWhereStep(s, 7, p);
    assert s[0..] == s;
    assert s[8..] == [];
  }

  // ---------------------------------------------------------------------
  // integers in template literals

  function DigitChar(d: nat): char
    requires d < 10
  {
    "0123456789"[d]
  }

  /** The digits of `n` in base ten, as `${n}` renders a non-negative integer. */
  function Decimal(n: nat): (r: string)
    ensures r != []
    ensures forall i :: 0 <= i < |r| ==> '0' <= r[i] <= '9'
    ensures r[0] == '0' ==> n == 0
    decreases n
  {
    if n < 10 then [DigitChar(n)] else Decimal(n / 10) + [DigitChar(n % 10)]
  }

  /** The number a string of decimal digits denotes; the inverse of `Decimal`. */
  function DecimalValue(s: string): nat
    requires forall i :: 0 <= i < |s| ==> '0' <= s[i] <= '9'
    decreases |s|
  {
    if s == [] then 0
    else DecimalValue(s[..|s| - 1]) * 10 + (s[|s| - 1] as int - '0' as int)
  }

  /** Reading back the rendered digits gives the original status number. */
  lemma {:induction false} DecimalRoundTrip(n: nat)
    ensures DecimalValue(Decimal(n)) == n
    decreases n
  {
    var r := Decimal(n);
    if n < 10 {
      assert r[..|r| - 1] == [];
    } else {
      DecimalRoundTrip(n / 10);
      assert r[..|r| - 1] == Decimal(n / 10);
    }
  }
}
