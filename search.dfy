/**
 * The ordered searches the coordinator runs over option lists:
 * `Array.prototype.find` and the "preferred entry, else the first one" rule
 * that every default selection uses, plus the ASCII upper-casing used to
 * compare currency symbols and ids case-insensitively.
 */
module Search {
  import opened Wrappers

  /** `k` is the index of the first element of `s` that satisfies `p`. */
  ghost predicate FirstMatch<T>(s: seq<T>, p: T -> bool, k: nat)
  {
    k < |s| && p(s[k]) && forall j :: 0 <= j < k ==> !p(s[j])
  }

  /** `Array.prototype.findIndex`: the first index whose element satisfies `p`, None for -1. */
  function FindIndex<T>(s: seq<T>, p: T -> bool): (r: Option<nat>)
    ensures r.Some? ==> FirstMatch(s, p, r.value)
    ensures r.None? ==> forall j :: 0 <= j < |s| ==> !p(s[j])
  {
    if |s| == 0 then None
    else if p(s[0]) then Some(0)
    else
      match FindIndex(s[1..], p)
      case None => None
      case Some(i) => Some(i + 1)
  }

  /** `Array.prototype.find`: the first element satisfying `p`, None for `undefined`. */
  function Find<T>(s: seq<T>, p: T -> bool): (r: Option<T>)
    ensures forall k: nat :: FirstMatch(s, p, k) ==> r == Some(s[k])
    ensures (forall j :: 0 <= j < |s| ==> !p(s[j])) ==> r.None?
  {
    match FindIndex(s, p)
    case None => None
    case Some(i) => Some(s[i])
  }

  /**
   * `s.find(p) || s[0]`: the first element satisfying `p`, else the first
   * element, else None (`undefined`) for an empty list.
   */
  function PreferredOrFirst<T>(s: seq<T>, p: T -> bool): (r: Option<T>)
    ensures r.Some? <==> |s| > 0
    ensures r.Some? ==> r.value in s
    ensures forall k: nat :: FirstMatch(s, p, k) ==> r == Some(s[k])
    ensures (forall j :: 0 <= j < |s| ==> !p(s[j])) && |s| > 0 ==> r == Some(s[0])
  {
    match Find(s, p)
    case Some(x) => Some(x)
    case None => if |s| > 0 then Some(s[0]) else None
  }

  /** `String.prototype.indexOf` for one character: the first index of `c` in `s`, or `|s|` when absent. */
  function IndexOf(s: string, c: char): (k: nat)
    ensures k <= |s|
    ensures k < |s| ==> s[k] == c
    ensures forall j :: 0 <= j < k ==> s[j] != c
  {
    if s == [] then 0 else if s[0] == c then 0 else 1 + IndexOf(s[1..], c)
  }

  /** The index of `c` in `a + [c] + b` is `|a|` when `a` does not contain `c`. */
  lemma {:induction false} IndexOfAfter(a: string, c: char, b: string)
    requires c !in a
    ensures IndexOf(a + [c] + b, c) == |a|
  {
    var s := a + [c] + b;
    assert s[|a|] == c;
    assert forall j :: 0 <= j < |a| ==> s[j] == a[j];
  }

  /** `toUpperCase` on one character, for the ASCII letters. */
  function UpperChar(c: char): char
  {
    if 'a' <= c <= 'z' then (c as int - 32) as char else c
  }

  /** `toUpperCase` on a string, for the ASCII letters. */
  function AsciiUpper(s: string): (r: string)
    ensures |r| == |s|
  {
    if s == [] then [] else [UpperChar(s[0])] + AsciiUpper(s[1..])
  }

  /** The case-insensitive comparison `s.toUpperCase() === "USDC"` holds exactly for the sixteen spellings of usdc. */
  lemma {:induction false} UpperIsUsdc(s: string)
    ensures AsciiUpper(s) == "USDC" <==>
      |s| == 4 && s[0] in "Uu" && s[1] in "Ss" && s[2] in "Dd" && s[3] in "Cc"
  {
    if |s| == 4 {
      assert AsciiUpper(s) == [UpperChar(s[0]), UpperChar(s[1]), UpperChar(s[2]), UpperChar(s[3])] by {
        assert AsciiUpper(s[3..]) == [UpperChar(s[3])] + AsciiUpper(s[4..]);
        assert AsciiUpper(s[2..]) == [UpperChar(s[2])] + AsciiUpper(s[3..]);
        assert AsciiUpper(s[1..]) == [UpperChar(s[1])] + AsciiUpper(s[2..]);
      }
    }
  }

  /** The case-insensitive comparison `s.toUpperCase() === "USD"` holds exactly for the eight spellings of usd. */
  lemma {:induction false} UpperIsUsd(s: string)
    ensures AsciiUpper(s) == "USD" <==>
      |s| == 3 && s[0] in "Uu" && s[1] in "Ss" && s[2] in "Dd"
  {
    if |s| == 3 {
      assert AsciiUpper(s) == [UpperChar(s[0]), UpperChar(s[1]), UpperChar(s[2])] by {
        assert AsciiUpper(s[2..]) == [UpperChar(s[2])] + AsciiUpper(s[3..]);
        assert AsciiUpper(s[1..]) == [UpperChar(s[1])] + AsciiUpper(s[2..]);
      }
    }
  }
}
