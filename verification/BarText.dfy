/** Keys that the program joins with bars. */
module BarText {
  predicate BarFree(s: string) {
    '|' !in s
  }

  /** Texts joined with a bar are equal exactly when their parts are, if the first parts have no bar. */
  lemma JoinedAlike(a: string, b: string, c: string, d: string)
    requires BarFree(a) && BarFree(c)
    ensures a + "|" + b == c + "|" + d <==> a == c && b == d
  {
    var s, t := a + "|" + b, c + "|" + d;
    if s == t {
      assert s[|a|] == '|' && t[|c|] == '|';
      assert forall i :: 0 <= i < |a| ==> s[i] == a[i] && a[i] in a;
      assert forall i :: 0 <= i < |c| ==> t[i] == c[i] && c[i] in c;
      assert |a| == |c|;
      assert s[..|a|] == a && t[..|a|] == c;
      assert s[|a| + 1..] == b && t[|c| + 1..] == d;
    }
  }

  lemma JoinedThreeAlike(a: string, b: string, c: string, d: string, e: string, f: string)
    requires BarFree(a) && BarFree(b) && BarFree(d) && BarFree(e)
    ensures a + "|" + b + "|" + c == d + "|" + e + "|" + f <==> a == d && b == e && c == f
  {
    assert a + "|" + b + "|" + c == a + "|" + (b + "|" + c);
    assert d + "|" + e + "|" + f == d + "|" + (e + "|" + f);
    JoinedAlike(a, b + "|" + c, d, e + "|" + f);
    JoinedAlike(b, c, e, f);
  }
}
