/**
  `isDesktop()`: the user agent, lower-cased, decides whether full screen may be toggled.
  Television browsers and Android devices without `mobile` in their user agent are not desktops.
*/
module Platform {
  import opened Text

  /** The three checks of `isDesktop`, in order, on `navigator.userAgent.toLowerCase()`. */
  predicate IsDesktop(userAgent: string) {
    var ua := Lower(userAgent);
    if Contains(ua, "android") && Contains(ua, "firetv") then false
    else if Contains(ua, "smarttv") || Contains(ua, "tv") then false
    else if Contains(ua, "android") && !Contains(ua, "mobile") then false
    else true
  }

  /** A string that contains `p` at `i` contains every part of `p`. */
  lemma OccursWithin(s: string, p: string, i: int, j: int, q: string)
    requires OccursAt(s, p, i)
    requires 0 <= j && j + |q| <= |p| && p[j..j + |q|] == q
    ensures OccursAt(s, q, i + j)
  {
    forall k | 0 <= k < |q| ensures s[i + j + k] == q[k] {
      assert s[i + j + k] == s[i..i + |p|][j + k];
      assert q[k] == p[j..j + |q|][k];
    }
    assert s[i + j..i + j + |q|] == q;
  }

  /** `firetv` and `smarttv` both contain `tv`. */
  lemma TelevisionContainsTv(s: string)
    requires Contains(s, "firetv") || Contains(s, "smarttv")
    ensures Contains(s, "tv")
  {
    if Contains(s, "firetv") {
      var i :| 0 <= i <= |s| - |"firetv"| && OccursAt(s, "firetv", i);
      OccursWithin(s, "firetv", i, 4, "tv");
    } else {
      var i :| 0 <= i <= |s| - |"smarttv"| && OccursAt(s, "smarttv", i);
      OccursWithin(s, "smarttv", i, 5, "tv");
    }
  }

  /**
    The separate `firetv` and `smarttv` checks are subsumed by the `tv` check: a user agent is a
    desktop exactly when, lower-cased, it contains no `tv` and is not an Android one without `mobile`.
  */
  lemma IsDesktopIff(userAgent: string)
    ensures IsDesktop(userAgent) <==>
              var ua := Lower(userAgent);
              !Contains(ua, "tv") && !(Contains(ua, "android") && !Contains(ua, "mobile"))
  {
    var ua := Lower(userAgent);
    if Contains(ua, "firetv") || Contains(ua, "smarttv") {
      TelevisionContainsTv(ua);
    }
  }
}
