/**
 * Shared vocabulary of the model: optional values, the text helpers the Go
 * and Python code borrow from their standard libraries (lower-casing,
 * substring search, splitting, whitespace fields, decimal parsing) and
 * order-independent sums over key sets, used wherever the source folds over
 * a map whose iteration order is unspecified.
 */
module Common {

  datatype Option<T> = None | Some(value: T)

  /** An octet of a file's contents. */
  newtype byte = b: int | 0 <= b < 256

  // ---------------------------------------------------------------------
  // Characters and case
  // ---------------------------------------------------------------------

  /** Lower-cases ASCII letters and leaves every other character alone. */
  function LowerChar(c: char): char
  {
    if 'A' <= c <= 'Z' then (c as int + 32) as char else c
  }

  function ToLower(s: string): (r: string)
    ensures |r| == |s|
    ensures forall i :: 0 <= i < |s| ==> r[i] == LowerChar(s[i])
  {
    if s == [] then [] else [LowerChar(s[0])] + ToLower(s[1..])
  }

  /** Lower-casing twice is lower-casing once. */
  lemma ToLowerIdempotent(s: string)
    ensures ToLower(ToLower(s)) == ToLower(s)
  {
    var once := ToLower(s);
    assert forall i :: 0 <= i < |s| ==> LowerChar(once[i]) == once[i];
  }

  // ---------------------------------------------------------------------
  // Substrings, prefixes and suffixes
  // ---------------------------------------------------------------------

  /** `sub` occurs somewhere in `s` (the empty string occurs everywhere). */
  predicate HasSubstring(s: string, sub: string)
  {
    exists i | 0 <= i <= |s| :: OccursAt(s, sub, i)
  }

  predicate OccursAt(s: string, sub: string, i: int)
  {
    0 <= i <= |s| - |sub| && s[i..i + |sub|] == sub
  }

  lemma OccursShift(s: string, sub: string, i: int)
    requires s != [] && OccursAt(s[1..], sub, i)
    ensures OccursAt(s, sub, i + 1)
  {
    assert s[1..][i..i + |sub|] == s[i + 1..i + 1 + |sub|];
  }

  predicate HasPrefix(s: string, p: string)
  {
    |p| <= |s| && s[..|p|] == p
  }

  predicate HasSuffix(s: string, p: string)
  {
    |p| <= |s| && s[|s| - |p|..] == p
  }

  /** Every occurrence of `pat` in `s` replaced by `rep`, scanning left to right. */
  function ReplaceAll(s: string, pat: string, rep: string): (r: string)
    requires |pat| > 0
    ensures !HasSubstring(s, pat) ==> r == s
    decreases |s|
  {
    if |s| < |pat| then s
    else if s[..|pat|] == pat then
      assert OccursAt(s, pat, 0);
      rep + ReplaceAll(s[|pat|..], pat, rep)
    else
      var r := [s[0]] + ReplaceAll(s[1..], pat, rep);
      assert HasSubstring(s[1..], pat) ==> HasSubstring(s, pat) by {
        if HasSubstring(s[1..], pat) {
          var i :| OccursAt(s[1..], pat, i);
          OccursShift(s, pat, i);
        }
      }
      r
  }

  // ---------------------------------------------------------------------
  // Splitting
  // ---------------------------------------------------------------------

  /** Go's `strings.Split(s, string(sep))`: always at least one piece. */
  function SplitOn(s: string, sep: char): (r: seq<string>)
    ensures |r| >= 1
    decreases |s|
  {
    if s == [] then [""]
    else
      var rest := SplitOn(s[1..], sep);
      if s[0] == sep then [""] + rest else [[s[0]] + rest[0]] + rest[1..]
  }

  function Join(parts: seq<string>, sep: char): string
  {
    if parts == [] then ""
    else if |parts| == 1 then parts[0]
    else parts[0] + [sep] + Join(parts[1..], sep)
  }

  /** Splitting and re-joining on the same separator gives the input back,
      and no piece contains the separator. */
  lemma {:induction false} SplitJoin(s: string, sep: char)
    ensures Join(SplitOn(s, sep), sep) == s
    ensures forall p :: p in SplitOn(s, sep) ==> sep !in p
    decreases |s|
  {
    if s != [] {
      var rest := SplitOn(s[1..], sep);
      SplitJoin(s[1..], sep);
      if s[0] == sep {
        assert SplitOn(s, sep) == [""] + rest;
        assert Join([""] + rest, sep) == "" + [sep] + Join(rest, sep);
        assert s == [s[0]] + s[1..];
      } else {
        var r := SplitOn(s, sep);
        assert r == [[s[0]] + rest[0]] + rest[1..];
        if |rest| == 1 {
          assert Join(r, sep) == [s[0]] + rest[0];
        } else {
          assert Join(rest, sep) == rest[0] + [sep] + Join(rest[1..], sep);
          assert Join(r, sep) == [s[0]] + rest[0] + [sep] + Join(rest[1..], sep);
        }
        assert s == [s[0]] + s[1..];
        forall p | p in r ensures sep !in p {
          if p == [s[0]] + rest[0] {
            assert rest[0] in rest;
          } else {
            assert p in rest;
          }
        }
      }
    }
  }

  /** Go's `unicode.IsSpace`: the Latin-1 spaces plus the Unicode White_Space set. */
  predicate IsSpace(c: char)
  {
    c == ' ' || c == '\t' || c == '\n' || c == '\U{000B}' || c == '\U{000C}' || c == '\r'
    || c == '\U{0085}' || c == '\U{00A0}' || c == '\U{1680}'
    || ('\U{2000}' <= c <= '\U{200A}') || c == '\U{2028}' || c == '\U{2029}'
    || c == '\U{202F}' || c == '\U{205F}' || c == '\U{3000}'
  }

  function DropSpaces(s: string): (t: string)
    ensures |t| <= |s| && t == s[|s| - |t|..]
    ensures t != [] ==> !IsSpace(t[0])
    ensures forall i :: 0 <= i < |s| - |t| ==> IsSpace(s[i])
  {
    if s != [] && IsSpace(s[0]) then DropSpaces(s[1..]) else s
  }

  function TakeWord(s: string): (w: string)
    ensures |w| <= |s| && w == s[..|w|]
    ensures s != [] && !IsSpace(s[0]) ==> |w| >= 1
    ensures forall c :: c in w ==> !IsSpace(c)
    ensures |w| < |s| ==> IsSpace(s[|w|])
  {
    if s == [] || IsSpace(s[0]) then [] else [s[0]] + TakeWord(s[1..])
  }

  /** A non-empty run of non-space characters. */
  predicate IsWord(w: string)
  {
    w != [] && forall c :: c in w ==> !IsSpace(c)
  }

  /** Go's `strings.Fields`: the maximal runs of non-space characters. */
  function Fields(s: string): (r: seq<string>)
    ensures forall f :: f in r ==> IsWord(f)
    decreases |s|
  {
    var t := DropSpaces(s);
    if t == [] then []
    else
      var w := TakeWord(t);
      assert IsWord(w);
      var rest := Fields(t[|w|..]);
      assert forall f :: f in [w] + rest ==> f == w || f in rest;
      [w] + rest
  }

  /** The three equations below determine `Fields` on every string, by
      splitting it at each space: a string of spaces has no field, a
      non-empty run without spaces is one field, and a space separates the
      fields before it from those after it, in order. */
  lemma FieldsOfBlank(s: string)
    requires forall c :: c in s ==> IsSpace(c)
    ensures Fields(s) == []
  {
  }

  lemma FieldsOfWord(w: string)
    requires w != [] && forall c :: c in w ==> !IsSpace(c)
    ensures Fields(w) == [w]
  {
    assert w[0] in w;
    assert DropSpaces(w) == w;
    TakeWordOfWord(w, []);
    assert w + [] == w;
    assert w[|w|..] == [];
  }

  lemma FieldsSplit(a: string, c: char, b: string)
    requires IsSpace(c)
    ensures Fields(a + [c] + b) == Fields(a) + Fields(b)
  {
    assert a + [c] + b == a + ([c] + b);
    FieldsSplitAt(a, [c] + b);
    FieldsDropSpace(c, b);
  }

  /** Splitting in front of a space: the fields of a, then those of t. */
  lemma {:induction false} FieldsSplitAt(a: string, t: string)
    requires t != [] && IsSpace(t[0])
    ensures Fields(a + t) == Fields(a) + Fields(t)
    decreases |a|
  {
    if a == [] {
      assert a + t == t;
      assert Fields(a) == [];
      EmptyAppend(Fields(t));
    } else if IsSpace(a[0]) {
      FieldsSplitSpace(a, t);
    } else {
      var w := TakeWord(a);
      if |w| == |a| {
        FieldsSplitWord(a, t);
      } else {
        FieldsSplitAt(a[|w|..], t);
        FieldsSplitLonger(a, t);
      }
    }
  }

  /** Dropping a prefix of the left operand of a concatenation. */
  lemma DropConcat(a: string, t: string, k: nat)
    requires k <= |a|
    ensures (a + t)[k..] == a[k..] + t
    ensures k < |a| ==> (a + t)[k] == a[k]
  {
  }

  /** The case of `FieldsSplitAt` where a starts with a space. */
  lemma {:induction false} FieldsSplitSpace(a: string, t: string)
    requires t != [] && IsSpace(t[0]) && a != [] && IsSpace(a[0])
    ensures Fields(a + t) == Fields(a) + Fields(t)
    decreases |a|, 0
  {
    DropConcat(a, t, 1);
    DropConcat(a, t, 0);
    assert a + t == [a[0]] + (a[1..] + t);
    assert a == [a[0]] + a[1..];
    FieldsDropSpace(a[0], a[1..] + t);
    FieldsDropSpace(a[0], a[1..]);
    FieldsSplitAt(a[1..], t);
  }

  /** The case of `FieldsSplitAt` where all of a is one word. */
  lemma FieldsSplitWord(a: string, t: string)
    requires t != [] && IsSpace(t[0]) && a != [] && |TakeWord(a)| == |a|
    ensures Fields(a + t) == Fields(a) + Fields(t)
  {
    assert TakeWord(a) == a;
    assert a[0] in a;
    FieldsOfWord(a);
    TakeWordOfWord(a, t);
    DropConcat(a, t, 0);
    FieldsUnfoldWord(a + t);
    DropConcat(a, t, |a|);
    assert a[|a|..] == [];
  }

  /** The case of `FieldsSplitAt` where a's first word ends inside a, given
      the split of what follows that word. */
  lemma FieldsSplitLonger(a: string, t: string)
    requires t != [] && IsSpace(t[0]) && a != [] && !IsSpace(a[0]) && |TakeWord(a)| < |a|
    requires Fields(a[|TakeWord(a)|..] + t) == Fields(a[|TakeWord(a)|..]) + Fields(t)
    ensures Fields(a + t) == Fields(a) + Fields(t)
  {
    FieldsConcatWord(a, t);
    FieldsUnfoldWord(a);
    ConsAppend(Fields(a + t), Fields(a), TakeWord(a), Fields(a[|TakeWord(a)|..]), Fields(t));
  }

  lemma EmptyAppend<T>(p: seq<T>)
    ensures [] + p == p
  {
  }

  /** Regrouping x = [w] + (p + q) around y = [w] + p. */
  lemma ConsAppend<T>(x: seq<T>, y: seq<T>, w: T, p: seq<T>, q: seq<T>)
    requires x == [w] + (p + q) && y == [w] + p
    ensures x == y + q
  {
  }

  /** a + t starts with a's first word when that word ends inside a. */
  lemma FieldsConcatWord(a: string, t: string)
    requires a != [] && !IsSpace(a[0]) && |TakeWord(a)| < |a|
    ensures Fields(a + t) == [TakeWord(a)] + Fields(a[|TakeWord(a)|..] + t)
  {
    var w := TakeWord(a);
    TakeWordPrefix(a, t);
    DropConcat(a, t, 0);
    FieldsUnfoldWord(a + t);
    DropConcat(a, t, |w|);
  }

  /** A string that starts with a non-space starts with its first field. */
  lemma FieldsUnfoldWord(x: string)
    requires x != [] && !IsSpace(x[0])
    ensures |TakeWord(x)| >= 1
    ensures Fields(x) == [TakeWord(x)] + Fields(x[|TakeWord(x)|..])
  {
    assert DropSpaces(x) == x;
  }

  /** A leading space changes no field. */
  lemma FieldsDropSpace(x: char, s: string)
    requires IsSpace(x)
    ensures Fields([x] + s) == Fields(s)
  {
    var y := [x] + s;
    assert DropSpaces(y) == DropSpaces(s) by {
      ConsParts(x, s);
    }
  }

  lemma ConsParts(x: char, s: string)
    ensures [x] + s != [] && ([x] + s)[0] == x && ([x] + s)[1..] == s
  {
  }

  /** A run without spaces followed by a space is taken whole. */
  lemma {:induction false} TakeWordOfWord(w: string, rest: string)
    requires forall c :: c in w ==> !IsSpace(c)
    requires rest != [] ==> IsSpace(rest[0])
    ensures TakeWord(w + rest) == w
  {
    if w == [] {
      assert w + rest == rest;
    } else {
      assert w[0] in w && (w + rest)[0] == w[0];
      assert (w + rest)[1..] == w[1..] + rest;
      assert forall c :: c in w[1..] ==> c in w;
      TakeWordOfWord(w[1..], rest);
    }
  }

  /** A word that ends before the end of x is not extended by what follows x. */
  lemma {:induction false} TakeWordPrefix(x: string, y: string)
    requires |TakeWord(x)| < |x|
    ensures TakeWord(x + y) == TakeWord(x)
  {
    if !IsSpace(x[0]) {
      assert (x + y)[0] == x[0] && (x + y)[1..] == x[1..] + y;
      TakeWordPrefix(x[1..], y);
    } else {
      assert (x + y)[0] == x[0];
    }
  }

  // ---------------------------------------------------------------------
  // Decimal numbers
  // ---------------------------------------------------------------------

  predicate IsDigit(c: char) { '0' <= c <= '9' }

  predicate AllDigits(s: string) { forall c :: c in s ==> IsDigit(c) }

  function DigitsValue(s: string): (n: nat)
    requires AllDigits(s)
    decreases |s|
  {
    if s == [] then 0
    else
      var last := s[|s| - 1];
      assert last in s;
      DigitsValue(s[..|s| - 1]) * 10 + (last as int - '0' as int)
  }

  function Pow10(k: nat): (p: nat)
    ensures p >= 1
  {
    if k == 0 then 1 else 10 * Pow10(k - 1)
  }

  /** The decimal text of a natural number, most significant digit first. */
  function NatToString(n: nat): (s: string)
    ensures s != [] && AllDigits(s)
    decreases n
  {
    var d := ['0' + (n % 10) as char];
    if n < 10 then d else NatToString(n / 10) + d
  }

  lemma {:induction false} NatToStringRoundTrip(n: nat)
    ensures DigitsValue(NatToString(n)) == n
    decreases n
  {
    var s := NatToString(n);
    if n >= 10 {
      NatToStringRoundTrip(n / 10);
      assert s[..|s| - 1] == NatToString(n / 10);
    }
  }

  function IndexOfChar(s: string, c: char): (i: nat)
    ensures i <= |s|
    ensures i < |s| ==> s[i] == c
    ensures c !in s[..i]
  {
    if s == [] then 0 else if s[0] == c then 0 else 1 + IndexOfChar(s[1..], c)
  }

  /** Digits with at most one decimal point and at least one digit. */
  function ParseUnsignedDecimal(s: string): (r: Option<real>)
    ensures r.Some? ==> r.value >= 0.0
  {
    var dot := IndexOfChar(s, '.');
    var whole := s[..dot];
    var frac := if dot < |s| then s[dot + 1..] else "";
    if AllDigits(whole) && AllDigits(frac) && |whole| + |frac| > 0 then
      Some(DigitsValue(whole) as real + DigitsValue(frac) as real / Pow10(|frac|) as real)
    else None
  }

  /** The decimal subset of Go's `strconv.ParseFloat(s, 64)`: an optional
      sign followed by digits with an optional fractional part. */
  function ParseFloat(s: string): (r: Option<real>)
    ensures s == [] ==> r.None?
  {
    if s != [] && s[0] == '-' then
      match ParseUnsignedDecimal(s[1..])
      case None => None
      case Some(v) => Some(-v)
    else if s != [] && s[0] == '+' then ParseUnsignedDecimal(s[1..])
    else ParseUnsignedDecimal(s)
  }

  /** A natural number's decimal text parses back to the number. */
  lemma ParseFloatOfNat(n: nat)
    ensures ParseFloat(NatToString(n)) == Some(n as real)
  {
    var s := NatToString(n);
    NatToStringRoundTrip(n);
    assert s[0] in s;
    assert '.' !in s;
    assert IndexOfChar(s, '.') == |s|;
    assert s[..|s|] == s;
  }

  const MinInt64: int := -0x8000_0000_0000_0000
  const MaxInt64: int := 0x7FFF_FFFF_FFFF_FFFF

  /** Go's `strconv.ParseInt(s, 10, 64)`: optional sign, decimal digits,
      and a range error outside 64 bits. */
  function ParseInt64(s: string): (r: Option<int>)
    ensures r.Some? ==> MinInt64 <= r.value <= MaxInt64
    ensures s == [] ==> r.None?
  {
    var neg := s != [] && s[0] == '-';
    var body := if s != [] && (s[0] == '-' || s[0] == '+') then s[1..] else s;
    if body == [] || !AllDigits(body) then None
    else
      var v := if neg then -(DigitsValue(body) as int) else DigitsValue(body) as int;
      if MinInt64 <= v <= MaxInt64 then Some(v) else None
  }

  /** The decimal text of a natural number reads back as that number
      exactly when it fits in 64 bits, and is a range error otherwise. */
  lemma ParseInt64OfNat(n: nat)
    ensures n <= MaxInt64 ==> ParseInt64(NatToString(n)) == Some(n)
    ensures n > MaxInt64 ==> ParseInt64(NatToString(n)) == None
  {
    var s := NatToString(n);
    NatToStringRoundTrip(n);
    assert s[0] in s;
  }

  /** A minus sign in front of that text reads back as the negated number,
      down to -2^63. */
  lemma ParseInt64OfNegated(n: nat)
    ensures n <= -MinInt64 ==> ParseInt64("-" + NatToString(n)) == Some(-(n as int))
    ensures n > -MinInt64 ==> ParseInt64("-" + NatToString(n)) == None
  {
    var t := NatToString(n);
    var s := "-" + t;
    NatToStringRoundTrip(n);
    assert s[1..] == t;
  }

  /** A fractional or exponent form is not an integer: a text with a '.'
      after the sign is rejected. */
  lemma ParseInt64RejectsFraction(s: string)
    requires '.' in s
    ensures ParseInt64(s) == None
  {
    var i :| 0 <= i < |s| && s[i] == '.';
    if s[0] == '-' || s[0] == '+' {
      assert s[1..][i - 1] in s[1..];
    } else {
      assert s[i] in s;
    }
  }

  // ---------------------------------------------------------------------
  // Order-independent sums over a finite set of keys
  // ---------------------------------------------------------------------

  /** Some element of a non-empty set, chosen arbitrarily. */
  method Choose<T>(s: set<T>) returns (x: T)
    requires s != {}
    ensures x in s
  {
    x :| x in s;
  }

  ghost function Sum<K>(keys: set<K>, f: K -> real): real
    decreases keys
  {
    if keys == {} then 0.0
    else var k :| k in keys; f(k) + Sum(keys - {k}, f)
  }

  /** Any element may be taken out first: the sum does not depend on the
      order in which the keys are visited. */
  lemma {:induction false} SumPick<K>(keys: set<K>, f: K -> real, y: K)
    requires y in keys
    ensures Sum(keys, f) == f(y) + Sum(keys - {y}, f)
    decreases keys
  {
    var k :| k in keys && Sum(keys, f) == f(k) + Sum(keys - {k}, f);
    if k != y {
      SumPick(keys - {k}, f, y);
      SumPick(keys - {y}, f, k);
      assert keys - {k} - {y} == keys - {y} - {k};
    }
  }

  /** Visiting one more key adds its value. */
  lemma SumAdd<K>(keys: set<K>, f: K -> real, y: K)
    requires y !in keys
    ensures Sum(keys + {y}, f) == Sum(keys, f) + f(y)
  {
    SumPick(keys + {y}, f, y);
    assert keys + {y} - {y} == keys;
  }

  /** A sum of positive terms over a non-empty set is positive. */
  lemma {:induction false} SumPositive<K>(keys: set<K>, f: K -> real)
    requires forall k :: k in keys ==> f(k) > 0.0
    ensures keys != {} ==> Sum(keys, f) > 0.0
    ensures Sum(keys, f) >= 0.0
    decreases keys
  {
    if keys != {} {
      var k :| k in keys;
      SumPick(keys, f, k);
      SumPositive(keys - {k}, f);
    }
  }

  /** Sums of pointwise-ordered terms are ordered. */
  lemma {:induction false} SumMonotone<K>(keys: set<K>, f: K -> real, g: K -> real)
    requires forall k :: k in keys ==> f(k) <= g(k)
    ensures Sum(keys, f) <= Sum(keys, g)
    decreases keys
  {
    if keys != {} {
      var k :| k in keys;
      SumPick(keys, f, k);
      SumPick(keys, g, k);
      SumMonotone(keys - {k}, f, g);
    }
  }

  /** The pointwise map k ↦ α·f(k) + β. */
  function Affine<K>(f: K -> real, alpha: real, beta: real): K -> real
  {
    k => alpha * f(k) + beta
  }

  /** α·t + n·β. */
  function Linear(alpha: real, t: real, beta: real, n: nat): real
  {
    alpha * t + n as real * beta
  }

  lemma AffineStep(s: real, s': real, t: real, t': real, y: real, alpha: real, beta: real, m: nat, n: nat)
    requires s == alpha * y + beta + s'
    requires t == y + t'
    requires s' == Linear(alpha, t', beta, m) && n == m + 1
    ensures s == Linear(alpha, t, beta, n)
  {
  }

  /** Sums are linear: Σ (α·f + β) == α·Σ f + n·β. */
  lemma {:induction false} SumAffine<K>(keys: set<K>, f: K -> real, alpha: real, beta: real)
    ensures Sum(keys, Affine(f, alpha, beta)) == Linear(alpha, Sum(keys, f), beta, |keys|)
    decreases keys
  {
    if keys != {} {
      var k :| k in keys;
      var rest, g := keys - {k}, Affine(f, alpha, beta);
      SumPick(keys, g, k);
      SumPick(keys, f, k);
      SumAffine(rest, f, alpha, beta);
      var total, restTotal, affine, restAffine, y := Sum(keys, f), Sum(rest, f), Sum(keys, g), Sum(rest, g), f(k);
      assert g(k) == alpha * y + beta;
      AffineStep(affine, restAffine, total, restTotal, y, alpha, beta, |rest|, |keys|);
    }
  }

  /** Only the values on the keys matter. */
  lemma {:induction false} SumCongruent<K>(keys: set<K>, f: K -> real, g: K -> real)
    requires forall k :: k in keys ==> f(k) == g(k)
    ensures Sum(keys, f) == Sum(keys, g)
    decreases keys
  {
    if keys != {} {
      var k :| k in keys;
      SumPick(keys, f, k);
      SumPick(keys, g, k);
      SumCongruent(keys - {k}, f, g);
    }
  }

  /** A sum of non-negative terms is non-negative. */
  lemma {:induction false} SumNonNegative<K>(keys: set<K>, f: K -> real)
    requires forall k :: k in keys ==> f(k) >= 0.0
    ensures Sum(keys, f) >= 0.0
    decreases keys
  {
    if keys != {} {
      var k :| k in keys;
      SumPick(keys, f, k);
      SumNonNegative(keys - {k}, f);
    }
  }

  /** Terms bounded by [lo, hi] give a sum bounded by |keys|·lo and |keys|·hi. */
  lemma SumBounds<K>(keys: set<K>, f: K -> real, lo: real, hi: real)
    requires forall k :: k in keys ==> lo <= f(k) <= hi
    ensures |keys| as real * lo <= Sum(keys, f) <= |keys| as real * hi
  {
    SumMonotone(keys, Affine(f, 0.0, lo), f);
    SumMonotone(keys, f, Affine(f, 0.0, hi));
    SumAffine(keys, f, 0.0, lo);
    SumAffine(keys, f, 0.0, hi);
  }

  /** Accumulates f over the keys, visiting them in an unspecified order,
      as a `for ... range` over a Go map does. */
  method SumOver<K>(keys: set<K>, f: K -> real) returns (s: real)
    ensures s == Sum(keys, f)
  {
    var pending := keys;
    s := 0.0;
    while pending != {}
      invariant pending <= keys
      invariant s + Sum(pending, f) == Sum(keys, f)
      decreases pending
    {
      var k :| k in pending;
      SumPick(pending, f, k);
      s := s + f(k);
      pending := pending - {k};
    }
  }

  ghost function SumInt<K>(keys: set<K>, f: K -> int): int
    decreases keys
  {
    if keys == {} then 0
    else var k :| k in keys; f(k) + SumInt(keys - {k}, f)
  }

  lemma {:induction false} SumIntPick<K>(keys: set<K>, f: K -> int, y: K)
    requires y in keys
    ensures SumInt(keys, f) == f(y) + SumInt(keys - {y}, f)
    decreases keys
  {
    var k :| k in keys && SumInt(keys, f) == f(k) + SumInt(keys - {k}, f);
    if k != y {
      SumIntPick(keys - {k}, f, y);
      SumIntPick(keys - {y}, f, k);
      assert keys - {k} - {y} == keys - {y} - {k};
    }
  }

  lemma SumIntAdd<K>(keys: set<K>, f: K -> int, y: K)
    requires y !in keys
    ensures SumInt(keys + {y}, f) == SumInt(keys, f) + f(y)
  {
    SumIntPick(keys + {y}, f, y);
    assert keys + {y} - {y} == keys;
  }

  // ---------------------------------------------------------------------
  // Small numeric helpers
  // ---------------------------------------------------------------------

  /** The sum of a sequence of reals, added from the left. */
  function SeqTotal(xs: seq<real>): real
  {
    if xs == [] then 0.0 else SeqTotal(xs[..|xs| - 1]) + xs[|xs| - 1]
  }

  /** `np.mean` of a non-empty sequence. */
  function SeqMean(xs: seq<real>): real
    requires xs != []
  {
    SeqTotal(xs) / |xs| as real
  }

  /** A part over a positive whole lies in [0, 1]; it is 1 exactly for the
      whole and 0 exactly for nothing. */
  lemma QuotientInUnitRange(part: real, whole: real)
    requires 0.0 <= part <= whole && 0.0 < whole
    ensures 0.0 <= part / whole <= 1.0
    ensures part / whole == 1.0 <==> part == whole
    ensures part / whole == 0.0 <==> part == 0.0
  {
    var q := part / whole;
    assert q * whole == part;
  }

  function Min(a: real, b: real): (r: real)
    ensures r <= a && r <= b && (r == a || r == b)
  {
    if a <= b then a else b
  }

  function Max(a: real, b: real): (r: real)
    ensures r >= a && r >= b && (r == a || r == b)
  {
    if a >= b then a else b
  }

  function Abs(x: real): (r: real)
    ensures r >= 0.0 && (r == x || r == -x)
  {
    if x < 0.0 then -x else x
  }

  /** `max(lo, min(hi, x))`. */
  function Clamp(x: real, lo: real, hi: real): (r: real)
    requires lo <= hi
    ensures lo <= r <= hi
    ensures lo <= x <= hi ==> r == x
  {
    if x < lo then lo else if x > hi then hi else x
  }
}
