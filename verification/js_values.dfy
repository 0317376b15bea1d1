/**
 * The JavaScript values and built-in string operations that the deployer
 * core inspects. Options reach the core as untyped objects, so every field
 * that the core tests by truthiness, by strict equality or by `typeof` is a
 * `JsValue` here.
 */
module JsValues {

  /** A JavaScript value, as far as the deployer looks at it. Numbers are integers. */
  datatype JsValue = Undefined | Null | Bool(b: bool) | Num(n: int) | Str(s: string) | Obj

  /** ToBoolean: the test behind `!x`, `!!x` and `if (x)`. */
  predicate Truthy(v: JsValue)
  {
    match v
    case Undefined => false
    case Null => false
    case Bool(b) => b
    case Num(n) => n != 0
    case Str(s) => s != ""
    case Obj => true
  }

  predicate IsLowerAscii(c: char)
  {
    'a' <= c <= 'z'
  }

  /** The upper-case mapping of one character, restricted to ASCII letters. */
  function UpperChar(c: char): (u: char)
    ensures !IsLowerAscii(u)
    ensures IsLowerAscii(c) ==> u as int == c as int - 32
    ensures !IsLowerAscii(c) ==> u == c
  {
    if IsLowerAscii(c) then (c as int - 32) as char else c
  }

  /** `String.prototype.toUpperCase`, on ASCII letters: same length, every character mapped. */
  function ToUpperCase(s: string): (r: string)
    ensures |r| == |s|
    ensures forall i :: 0 <= i < |s| ==> r[i] == UpperChar(s[i])
  {
    if s == [] then [] else [UpperChar(s[0])] + ToUpperCase(s[1..])
  }

  /** True of a string that `ToUpperCase` leaves alone. */
  predicate IsUpperCase(s: string)
  {
    forall i :: 0 <= i < |s| ==> !IsLowerAscii(s[i])
  }

  /** Upper-casing produces no lower-case letter and leaves an upper-case string unchanged. */
  lemma ToUpperCaseNormalises(s: string)
    ensures IsUpperCase(ToUpperCase(s))
    ensures IsUpperCase(s) <==> ToUpperCase(s) == s
    ensures ToUpperCase(ToUpperCase(s)) == ToUpperCase(s)
  {
    var u := ToUpperCase(s);
    if IsUpperCase(s) {
      assert forall i :: 0 <= i < |s| ==> u[i] == s[i];
    }
    if u == s {
      assert forall i :: 0 <= i < |s| ==> !IsLowerAscii(s[i]) by {
        forall i | 0 <= i < |s| ensures !IsLowerAscii(s[i]) {
          assert s[i] == u[i];
        }
      }
    }
    var uu := ToUpperCase(u);
    assert forall i :: 0 <= i < |u| ==> uu[i] == u[i];
  }

  /**
   * `String.prototype.lastIndexOf` for one character: the position of the
   * last occurrence of `c`, or -1 when `c` does not occur.
   */
  function LastIndexOf(s: string, c: char): (k: int)
    ensures -1 <= k < |s|
    ensures k >= 0 ==> s[k] == c
    ensures forall j :: k < j < |s| ==> s[j] != c
  {
    if s == [] then -1
    else if s[|s| - 1] == c then |s| - 1
    else LastIndexOf(s[..|s| - 1], c)
  }
}
