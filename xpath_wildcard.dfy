/**
 * The two in-place xpath edits of cmgd/cmgd_db.h: appending a trailing
 * "all children" wildcard step and removing it again.
 *
 * The caller's `char *xpath` is an `array?<char>` holding a NUL-terminated
 * string, and `size_t *xpath_len` is an `Option<nat>` (None for a NULL
 * pointer) that each method returns updated. The string functions
 * `AppendWildcard` and `RemoveWildcard` give the logical effect on the path.
 */
module XpathWildcard {
  import opened Optional

  /** CMGD_MAX_XPATH_LEN. */
  const MaxXpathLen: nat := 1024

  const Nul: char := '\0'

  /** `strlen`: the index of the first NUL. */
  function StrLen(s: seq<char>): (n: nat)
    requires Nul in s
    ensures n < |s| && s[n] == Nul && Nul !in s[..n]
  {
    if s[0] == Nul then 0
    else
      assert s == [s[0]] + s[1..];
      var n := 1 + StrLen(s[1..]);
      assert s[..n] == [s[0]] + s[1..][..n - 1];
      n
  }

  /** What the helpers demand of `*xpath_len`: zero for "use strlen" (so a NUL must exist), else a length within the buffer. */
  predicate ValidLength(buf: seq<char>, len: nat)
  {
    if len == 0 then Nul in buf else len <= |buf|
  }

  /** The length the helpers work with once a zero `*xpath_len` has been replaced by `strlen`. */
  function EffectiveLen(buf: seq<char>, len: nat): (n: nat)
    requires ValidLength(buf, len)
    ensures n <= |buf|
    ensures len != 0 ==> n == len
  {
    if len == 0 then StrLen(buf) else len
  }

  /** The path after `cmgd_xpath_append_trail_wildcard`. */
  function AppendWildcard(p: string): string
  {
    if 2 < |p| < MaxXpathLen - 2 then
      if p[|p| - 1] == '/' then p + "*"
      else if p[|p| - 1] != '*' then p + "/*"
      else p
    else p
  }

  /** The path after `cmgd_xpath_remove_trail_wildcard`. */
  function RemoveWildcard(p: string): string
  {
    if |p| > 2 && p[|p| - 2] == '/' && p[|p| - 1] == '*' then p[..|p| - 2] else p
  }

  /** A path that both helpers treat as "a node": in range and ending in neither '/' nor '*'. */
  predicate PlainPath(p: string)
  {
    2 < |p| < MaxXpathLen - 2 && p[|p| - 1] != '/' && p[|p| - 1] != '*'
  }

  /**
   * `cmgd_xpath_append_trail_wildcard` on the buffer `xpath` with
   * `*xpath_len` given as `xpathLen` (None for a NULL pointer). The writes
   * reach at most index `*xpath_len + 2`, but the bound check against
   * CMGD_MAX_XPATH_LEN presumes a buffer of that many characters, so that
   * is what a caller must hand in.
   */
  method AppendTrailWildcard(xpath: array?<char>, xpathLen: Option<nat>) returns (lenOut: Option<nat>)
    requires xpath != null && xpathLen.Some? ==> xpath.Length >= MaxXpathLen && ValidLength(xpath[..], xpathLen.value)
    modifies xpath
    ensures xpath == null || xpathLen.None? ==> lenOut == xpathLen && (xpath != null ==> xpath[..] == old(xpath[..]))
    ensures xpath != null && xpathLen.Some? ==>
              var n := EffectiveLen(old(xpath[..]), xpathLen.value);
              var p := AppendWildcard(old(xpath[..])[..n]);
              lenOut == Some(|p|) &&
              xpath[..] == if |p| == n then old(xpath[..]) else p + [Nul] + old(xpath[..])[|p| + 1..]
  {
    if xpath == null || xpathLen.None? {
      return xpathLen;
    }
    ghost var buf := xpath[..];
    var len := xpathLen.value;
    if len == 0 {
      len := StrLen(xpath[..]);
    }
    if len > 2 && len < MaxXpathLen - 2 {
      if xpath[len - 1] == '/' {
        xpath[len] := '*';
        xpath[len + 1] := Nul;
        len := len + 1;
      } else if xpath[len - 1] != '*' {
        xpath[len] := '/';
        xpath[len + 1] := '*';
        xpath[len + 2] := Nul;
        len := len + 2;
      }
    }
    lenOut := Some(len);
    ghost var n := EffectiveLen(buf, xpathLen.value);
    ghost var p := AppendWildcard(buf[..n]);
    assert |p| == len;
    if |p| != n {
      assert xpath[..] == p + [Nul] + buf[|p| + 1..];
    }
  }

  /**
   * `cmgd_xpath_remove_trail_wildcard` on the buffer `xpath` with
   * `*xpath_len` given as `xpathLen` (None for a NULL pointer).
   */
  method RemoveTrailWildcard(xpath: array?<char>, xpathLen: Option<nat>) returns (lenOut: Option<nat>)
    requires xpath != null && xpathLen.Some? ==> ValidLength(xpath[..], xpathLen.value)
    modifies xpath
    ensures xpath == null || xpathLen.None? ==> lenOut == xpathLen && (xpath != null ==> xpath[..] == old(xpath[..]))
    ensures xpath != null && xpathLen.Some? ==>
              var n := EffectiveLen(old(xpath[..]), xpathLen.value);
              var p := RemoveWildcard(old(xpath[..])[..n]);
              lenOut == Some(|p|) &&
              xpath[..] == if |p| == n then old(xpath[..]) else old(xpath[..])[|p| := Nul]
  {
    if xpath == null || xpathLen.None? {
      return xpathLen;
    }
    var len := xpathLen.value;
    if len == 0 {
      len := StrLen(xpath[..]);
    }
    if len > 2 && xpath[len - 2] == '/' && xpath[len - 1] == '*' {
      xpath[len - 2] := Nul;
      len := len - 2;
    }
    lenOut := Some(len);
  }

  /** Appending only ever extends the path, by at most two characters, and then ends it in a slash followed by a star. */
  lemma AppendExtends(p: string)
    ensures var r := AppendWildcard(p);
            p <= r && |p| <= |r| <= |p| + 2 &&
            (r != p ==> r[|r| - 1] == '*' && r[|r| - 2] == '/' && r[..|r| - 2] <= p)
  {
  }

  /** The helper changes the path exactly when the length is in range and the path does not already end in '*'. */
  lemma AppendChangesIff(p: string)
    ensures AppendWildcard(p) != p <==> 2 < |p| < MaxXpathLen - 2 && p[|p| - 1] != '*'
    ensures AppendWildcard(p) != p && p[|p| - 1] == '/' ==> |AppendWildcard(p)| == |p| + 1
    ensures AppendWildcard(p) != p && p[|p| - 1] != '/' ==> |AppendWildcard(p)| == |p| + 2
  {
    var r := AppendWildcard(p);
    if 2 < |p| < MaxXpathLen - 2 && p[|p| - 1] != '*' {
      assert |r| > |p|;
    }
  }

  /** After a call in range the path ends in '*', so a second call changes nothing. */
  lemma AppendIdempotent(p: string)
    ensures AppendWildcard(AppendWildcard(p)) == AppendWildcard(p)
  {
    var r := AppendWildcard(p);
    if r != p {
      assert r[|r| - 1] == '*';
    }
  }

  /** Removing strips exactly a trailing slash-star when the path is longer than two and ends in them, and nothing otherwise. */
  lemma RemoveStripsIff(p: string)
    ensures RemoveWildcard(p) != p <==> |p| > 2 && p[|p| - 2..] == "/*"
    ensures RemoveWildcard(p) != p ==> RemoveWildcard(p) + "/*" == p
  {
    if |p| > 2 && p[|p| - 2..] == "/*" {
      assert p[|p| - 2] == '/' && p[|p| - 1] == '*';
      assert |RemoveWildcard(p)| < |p|;
    }
    if RemoveWildcard(p) != p {
      assert p == p[..|p| - 2] + p[|p| - 2..];
    }
  }

  /** Round trip: removing what was appended restores a plain path. */
  lemma RoundTrip(p: string)
    requires PlainPath(p)
    ensures AppendWildcard(p) == p + "/*"
    ensures RemoveWildcard(AppendWildcard(p)) == p
  {
    var r := p + "/*";
    assert r[..|r| - 2] == p;
  }

  /** The round trip fails for a path ending in '/': the slash is lost. */
  lemma RoundTripLosesTrailingSlash(p: string)
    requires 2 < |p| < MaxXpathLen - 2 && p[|p| - 1] == '/'
    ensures RemoveWildcard(AppendWildcard(p)) == p[..|p| - 1] != p
  {
    var r := p + "*";
    assert r[|r| - 2] == '/';
    assert r[..|r| - 2] == p[..|p| - 1];
  }
}
