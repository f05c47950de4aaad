/**
 * The scope set of a token request and the cache `target` string printed from it.
 * A target is the scopes joined by single spaces and lower-cased, so two requests
 * whose scopes differ only in letter case look up the same cached token.
 */
module Scopes {
  import opened Wrappers

  /** The scopes of one request, in the order the caller gave them. */
  datatype ScopeSet = ScopeSet(scopes: seq<string>)

  /** `new ScopeSet(request.scopes || [])`: absent scopes give the empty set. */
  function FromRequest(scopes: Option<seq<string>>): (s: ScopeSet)
    ensures scopes.None? ==> s.scopes == []
    ensures scopes.Some? ==> s.scopes == scopes.value
  {
    ScopeSet(scopes.GetOr([]))
  }

  /** Lower-cases one ASCII letter and leaves every other character as it is. */
  function LowerChar(c: char): (r: char)
    ensures !('A' <= r <= 'Z')
    ensures !('A' <= c <= 'Z') ==> r == c
  {
    if 'A' <= c <= 'Z' then (c as int - 'A' as int + 'a' as int) as char else c
  }

  /** `toLowerCase` over ASCII letters, character by character. */
  function ToLower(s: string): (r: string)
    ensures |r| == |s|
    ensures forall i :: 0 <= i < |s| ==> r[i] == LowerChar(s[i])
  {
    if s == [] then [] else [LowerChar(s[0])] + ToLower(s[1..])
  }

  /** The scopes joined by single spaces. */
  function Join(xs: seq<string>): string {
    if |xs| == 0 then ""
    else if |xs| == 1 then xs[0]
    else xs[0] + " " + Join(xs[1..])
  }

  function PrintScopes(s: ScopeSet): string {
    Join(s.scopes)
  }

  /** The cache `target` of a scope set. */
  function PrintScopesLowerCase(s: ScopeSet): string {
    ToLower(PrintScopes(s))
  }

  lemma ToLowerAppend(a: string, b: string)
    ensures ToLower(a + b) == ToLower(a) + ToLower(b)
  {
    var l, r := ToLower(a + b), ToLower(a) + ToLower(b);
    assert |l| == |r|;
    forall i | 0 <= i < |l| ensures l[i] == r[i] {
      if i < |a| {
        assert (a + b)[i] == a[i];
      } else {
        assert (a + b)[i] == b[i - |a|];
      }
    }
  }

  /** Two scope lists that agree scope by scope up to letter case. */
  ghost predicate SameUpToCase(xs: seq<string>, ys: seq<string>) {
    |xs| == |ys| && forall i :: 0 <= i < |xs| ==> ToLower(xs[i]) == ToLower(ys[i])
  }

  /**
   * Scope sets that differ only in the case of their letters print the same target,
   * so they select the same cached access token.
   */
  lemma {:induction false} CaseVariantsShareTarget(xs: seq<string>, ys: seq<string>)
    requires SameUpToCase(xs, ys)
    ensures PrintScopesLowerCase(ScopeSet(xs)) == PrintScopesLowerCase(ScopeSet(ys))
  {
    if |xs| > 1 {
      assert SameUpToCase(xs[1..], ys[1..]) by {
        forall i | 0 <= i < |xs| - 1 ensures ToLower(xs[1..][i]) == ToLower(ys[1..][i]) {
          assert ToLower(xs[i + 1]) == ToLower(ys[i + 1]);
        }
      }
      CaseVariantsShareTarget(xs[1..], ys[1..]);
      ToLowerAppend(xs[0] + " ", Join(xs[1..]));
      ToLowerAppend(xs[0], " ");
      ToLowerAppend(ys[0] + " ", Join(ys[1..]));
      ToLowerAppend(ys[0], " ");
      assert ToLower(xs[0]) == ToLower(ys[0]);
    } else if |xs| == 1 {
      assert ToLower(xs[0]) == ToLower(ys[0]);
    }
  }
}
