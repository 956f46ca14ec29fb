/** The slice of JavaScript's value semantics that the detector depends on:
    the primitive values a field of an IP-data record can hold, truthiness
    (`x || d`, `a && b`, `!x`), strict equality, a relational comparison with
    a number, and the three string operations the detector calls:
    `toLowerCase`, `includes` and `split('/')[0]`. */
module JsSemantics {

  datatype Option<T> = None | Some(value: T)

  /** A primitive JavaScript value. Structural equality of this datatype is
      JavaScript's `===` (and `Array.prototype.includes`' SameValueZero) on
      these values: NaN and the infinities are not represented, and +0 and -0
      are the same real. */
  datatype JsValue = Undefined | Null | Bool(b: bool) | Num(n: real) | Str(s: string)

  /** ToBoolean: exactly undefined, null, false, 0 and "" are falsy. */
  function Truthy(v: JsValue): (r: bool)
    ensures !r <==> v in {Undefined, Null, Bool(false), Num(0.0), Str("")}
  {
    match v
    case Undefined => false
    case Null => false
    case Bool(b) => b
    case Num(n) => n != 0.0
    case Str(s) => s != ""
  }

  /** `a && b` evaluates to `a` itself when `a` is falsy and to `b` otherwise,
      so the value of a chain of `&&` is truthy exactly when every operand is. */
  function And(a: JsValue, b: JsValue): (r: JsValue)
    ensures Truthy(r) <==> Truthy(a) && Truthy(b)
    ensures r == a || r == b
  {
    if Truthy(a) then b else a
  }

  predicate IsDigit(c: char) { '0' <= c <= '9' }

  /** The natural number written by a string of decimal digits. */
  function DigitsValue(s: string): nat
    requires forall i :: 0 <= i < |s| ==> IsDigit(s[i])
  {
    if s == [] then 0
    else
      assert IsDigit(s[|s| - 1]);
      10 * DigitsValue(s[..|s| - 1]) + (s[|s| - 1] as int - '0' as int)
  }

  /** ToNumber, with None standing for NaN. Of the strings only the empty one
      (which converts to 0) and plain decimal digit strings are converted;
      every other string is taken to be NaN. A number converts to itself,
      only a number converts to a negative value, and a falsy value converts
      to 0 or to NaN. */
  function ToNumber(v: JsValue): (r: Option<real>)
    ensures v.Num? ==> r == Some(v.n)
    ensures r.Some? && !v.Num? ==> r.value >= 0.0
    ensures !Truthy(v) ==> r == None || r == Some(0.0)
  {
    match v
    case Undefined => None
    case Null => Some(0.0)
    case Bool(b) => Some(if b then 1.0 else 0.0)
    case Num(n) => Some(n)
    case Str(s) =>
      if forall i :: 0 <= i < |s| ==> IsDigit(s[i]) then Some(DigitsValue(s) as real)
      else None
  }

  /** `v > k` for a number `k`: `v` is converted with ToNumber, and a NaN
      compares false. On a number it is the comparison of reals, and a value
      that exceeds a non-negative limit is truthy. */
  function GreaterThan(v: JsValue, k: real): (r: bool)
    ensures v.Num? ==> (r <==> v.n > k)
    ensures k >= 0.0 && r ==> Truthy(v)
  {
    match ToNumber(v)
    case None => false
    case Some(x) => x > k
  }

  /** `String.prototype.toLowerCase` on one character (the ASCII letters). */
  function LowerChar(c: char): (r: char)
    ensures 'A' <= c <= 'Z' ==> 'a' <= r <= 'z' && r as int == c as int + 32
    ensures !('A' <= c <= 'Z') ==> r == c
  {
    if 'A' <= c <= 'Z' then (c as int + 32) as char else c
  }

  /** `String.prototype.toLowerCase`: the same length, every character lowered,
      and no upper-case ASCII letter left. */
  function ToLower(s: string): (r: string)
    ensures |r| == |s|
    ensures forall i :: 0 <= i < |s| ==> r[i] == LowerChar(s[i])
    ensures forall i :: 0 <= i < |r| ==> !('A' <= r[i] <= 'Z')
  {
    if s == [] then [] else [LowerChar(s[0])] + ToLower(s[1..])
  }

  /** Lower-casing twice is lower-casing once. */
  lemma {:induction false} ToLowerIdempotent(s: string)
    ensures ToLower(ToLower(s)) == ToLower(s)
  {
    var t := ToLower(s);
    var u := ToLower(t);
    assert |u| == |t|;
    forall i | 0 <= i < |t| ensures u[i] == t[i] {
      assert u[i] == LowerChar(t[i]);
      assert !('A' <= t[i] <= 'Z');
    }
  }

  /** `needle` occurs in `hay` starting at index `i`. */
  predicate OccursAt(hay: string, needle: string, i: int) {
    0 <= i && i + |needle| <= |hay| && hay[i..i + |needle|] == needle
  }

  /** `hay.includes(needle)`, searched from the left: a needle longer than
      the haystack is never found, and a prefix of the haystack always is. */
  function Includes(hay: string, needle: string): (r: bool)
    ensures r ==> |needle| <= |hay|
    ensures |needle| <= |hay| && hay[..|needle|] == needle ==> r
    decreases |hay|
  {
    if |needle| > |hay| then false
    else if hay[..|needle|] == needle then true
    else Includes(hay[1..], needle)
  }

  /** `includes` holds exactly when the needle occurs at some index; in
      particular the empty needle is found in every string. */
  lemma {:induction false} IncludesSpec(hay: string, needle: string)
    ensures Includes(hay, needle) <==> exists i :: OccursAt(hay, needle, i)
    decreases |hay|
  {
    if |needle| > |hay| {
      assert forall i :: !OccursAt(hay, needle, i);
    } else if hay[..|needle|] == needle {
      assert OccursAt(hay, needle, 0);
    } else {
      var tail := hay[1..];
      IncludesSpec(tail, needle);
      if Includes(hay, needle) {
        var j :| OccursAt(tail, needle, j);
        assert tail[j..j + |needle|] == hay[j + 1..j + 1 + |needle|];
        assert OccursAt(hay, needle, j + 1);
      }
      forall i | OccursAt(hay, needle, i) ensures OccursAt(tail, needle, i - 1) {
        assert hay[..|needle|] == hay[0..0 + |needle|];
        assert i != 0;
        assert tail[i - 1..i - 1 + |needle|] == hay[i..i + |needle|];
      }
    }
  }

  /** No non-empty needle is found in the empty string. */
  lemma EmptyIncludesOnlyEmpty(needle: string)
    ensures Includes("", needle) <==> needle == ""
  {
    IncludesSpec("", needle);
    if needle == "" {
      assert OccursAt("", needle, 0);
    }
  }

  /** `s.split('/')[0]`: the text before the first '/', or all of `s` when it
      has none. The three conditions determine the result. */
  function BeforeFirstSlash(s: string): (r: string)
    ensures |r| <= |s| && r == s[..|r|]
    ensures '/' !in r
    ensures |r| < |s| ==> s[|r|] == '/'
  {
    if s == [] then []
    else if s[0] == '/' then []
    else [s[0]] + BeforeFirstSlash(s[1..])
  }
}
