/**
 * The per-thread error slot of lib/ferr.c (`ferr_get_last`, `ferr_clear`,
 * `ferr_set_va` and its two public wrappers) and the `$ERR` substitution of
 * `vty_print_error`.
 *
 * The thread-specific key holds, for one thread, at most one error record,
 * allocated on first use and then reused; the model shows that one thread's
 * slot as an object. Formatting with a variable argument list is foreign:
 * the text `vsnprintf` produces arrives as a parameter, or as a function
 * applied to the reference's format string.
 */
module ErrorInfo {
  import opened Optional
  import opened LogRefs

  /** `ferr_ok()`. */
  const FerrOk: int := 0
  /** What a failing `ferr_set_*` returns. */
  const FerrFail: int := -1
  /** `REPLACE`. */
  const Marker: string := "$ERR"
  const NoError: string := "(no error?)"
  /** `sizeof(tmpmsg)`. */
  const TmpSize: nat := 512

  /** A `struct ferr`. */
  class Ferr {
    var ref: LogRef?
    var errnoVal: int
    var pathname: string
    var message: string

    /** `XCALLOC` hands out a zeroed record. */
    constructor()
      ensures ref == null && errnoVal == 0 && pathname == "" && message == ""
    {
      ref := null;
      errnoVal := 0;
      pathname := "";
      message := "";
    }
  }

  /** The value of the thread-specific key `errkey` for the calling thread. */
  class ErrorSlot {
    var last: Ferr?

    constructor()
      ensures last == null
    {
      last := null;
    }

    /** `ferr_get_last`: the record only while it carries a reference. */
    function GetLast(): (r: Ferr?)
      reads this, last
      ensures r != null <==> last != null && last.ref != null
      ensures r != null ==> r == last
    {
      if last == null || last.ref == null then null else last
    }

    /** `ferr_clear`: forgets the reference and keeps the rest of the record. */
    method Clear() returns (r: int)
      modifies last
      ensures r == FerrOk && last == old(last)
      ensures last != null ==> last.ref == null && last.errnoVal == old(last.errnoVal) &&
                               last.pathname == old(last.pathname) && last.message == old(last.message)
      ensures GetLast() == null
    {
      if last != null {
        last.ref := null;
      }
      r := FerrOk;
    }

    /**
     * `ferr_set_va`: allocates the record on first use, then stores the
     * reference, the errno value, the path name ("" when absent) and the
     * formatted message.
     */
    method SetVa(ref: LogRef?, pathname: Option<string>, errnoVal: int, message: string) returns (r: int)
      modifies this, last
      ensures r == FerrFail
      ensures old(last) != null ==> last == old(last)
      ensures old(last) == null ==> fresh(last)
      ensures last != null && last.ref == ref && last.errnoVal == errnoVal
      ensures last.pathname == pathname.GetOr("") && last.message == message
      ensures GetLast() == (if ref == null then null else last)
    {
      var error := last;
      if error == null {
        error := new Ferr();
        last := error;
      }
      error.ref := ref;
      error.errnoVal := errnoVal;
      if pathname.Some? {
        error.pathname := pathname.value;
      } else {
        error.pathname := "";
      }
      error.message := message;
      r := FerrFail;
    }

    /** `ferr_set_internal`: no path name, errno 0, the reference's own format string. */
    method SetInternal(ref: LogRef, format: string -> string) returns (r: int)
      modifies this, last
      ensures r == FerrFail && last != null && GetLast() == last
      ensures last.ref == ref && last.errnoVal == 0 && last.pathname == "" && last.message == format(ref.fmtstring)
    {
      r := SetVa(ref, None, 0, format(ref.fmtstring));
    }

    /** `ferr_set_internal_ext`: as `ferr_set_internal`, with a path name and an errno value. */
    method SetInternalExt(ref: LogRef, pathname: Option<string>, errnoVal: int, format: string -> string) returns (r: int)
      modifies this, last
      ensures r == FerrFail && last != null && GetLast() == last
      ensures last.ref == ref && last.errnoVal == errnoVal && last.pathname == pathname.GetOr("")
      ensures last.message == format(ref.fmtstring)
    {
      r := SetVa(ref, pathname, errnoVal, format(ref.fmtstring));
    }

    /**
     * `vty_print_error`: the text `vsnprintf` produced, clipped to the
     * 512-byte buffer, with its first `$ERR` cut out in place and the last
     * error's message (or "(no error?)") printed in its stead; a text
     * without `$ERR` is printed unchanged. The line `vty_out` prints is the
     * result.
     */
    method PrintError(formatted: string) returns (out: string)
      ensures out == ErrorText(Clip(formatted), if GetLast() == null then None else Some(GetLast().message))
    {
      var lastError := GetLast();
      var tmpmsg := new char[TmpSize];
      ClipInto(tmpmsg, formatted);
      var text := CStr(tmpmsg[..]);
      var replacepos := FindSub(text, Marker);
      if replacepos.None? {
        out := text + "\n";
      } else {
        var i := replacepos.value;
        ghost var before := tmpmsg[..];
        tmpmsg[i] := '\0';
        CutAt(before, i, tmpmsg[..]);
        var message := if lastError != null then lastError.message else NoError;
        out := CStr(tmpmsg[..]) + message + CStr(tmpmsg[i + |Marker|..]) + "\n";
      }
    }
  }

  /** What `vsnprintf` leaves in `buf`: at most `buf.Length - 1` characters of the text, then NUL. */
  method ClipInto(buf: array<char>, formatted: string)
    requires buf.Length == TmpSize
    modifies buf
    ensures CStr(buf[..]) == Clip(formatted)
  {
    var n := if |formatted| < TmpSize - 1 then |formatted| else TmpSize - 1;
    for i := 0 to n
      invariant buf[..i] == formatted[..i]
    {
      buf[i] := formatted[i];
    }
    buf[n] := '\0';
    assert buf[..] == formatted[..n] + ['\0'] + buf[n + 1..];
    CStrCut(formatted[..n], buf[n + 1..]);
    assert formatted[..n] == if |formatted| < TmpSize - 1 then formatted else formatted[..TmpSize - 1];
  }

  // ---- C strings ----

  /** A character buffer read as a C string: everything before the first NUL. */
  function CStr(s: seq<char>): (r: seq<char>)
    ensures r <= s && '\0' !in r
    ensures |r| < |s| ==> s[|r|] == '\0'
  {
    if s == [] || s[0] == '\0' then [] else [s[0]] + CStr(s[1..])
  }

  /** A C string read from a buffer with a NUL after a NUL-free head is that head. */
  lemma {:induction false} CStrHead(x: seq<char>, y: seq<char>)
    requires '\0' !in x
    ensures CStr(x + y) == x + CStr(y)
  {
    if x != [] {
      assert x[0] in x;
      assert (x + y)[0] == x[0] && (x + y)[1..] == x[1..] + y;
      assert '\0' !in x[1..] by {
        assert forall c :: c in x[1..] ==> c in x;
      }
      CStrHead(x[1..], y);
      calc {
        CStr(x + y);
        [x[0]] + CStr(x[1..] + y);
        [x[0]] + (x[1..] + CStr(y));
        { assert [x[0]] + x[1..] == x; }
        x + CStr(y);
      }
    } else {
      assert x + y == y && x + CStr(y) == CStr(y);
    }
  }

  /** Writing NUL after a text cuts the C string there. */
  lemma CStrCut(x: seq<char>, y: seq<char>)
    ensures CStr(x + ['\0'] + y) == CStr(x)
  {
    if '\0' in x {
      CStrCutEarly(x, ['\0'] + y);
      assert x + ['\0'] + y == x + (['\0'] + y);
    } else {
      CStrHead(x, ['\0'] + y);
      CStrHead(x, []);
      assert x + ['\0'] + y == x + (['\0'] + y);
      assert x + [] == x;
    }
  }

  lemma {:induction false} CStrCutEarly(x: seq<char>, y: seq<char>)
    requires '\0' in x
    ensures CStr(x + y) == CStr(x)
  {
    if x[0] != '\0' {
      assert (x + y)[1..] == x[1..] + y;
      CStrCutEarly(x[1..], y);
    }
  }

  /** The text `vsnprintf` leaves in the 512-byte buffer, read as a C string. */
  function Clip(formatted: string): (r: string)
    ensures |r| < TmpSize && '\0' !in r && r <= formatted
  {
    CStr(if |formatted| < TmpSize - 1 then formatted else formatted[..TmpSize - 1])
  }

  // ---- strstr ----

  predicate MatchAt(s: string, pat: string, j: nat)
  {
    j + |pat| <= |s| && s[j..j + |pat|] == pat
  }

  /** `strstr`: the first position where `pat` occurs in `s`. */
  function FindSub(s: string, pat: string): (r: Option<nat>)
    ensures r.Some? ==> MatchAt(s, pat, r.value) && forall j :: 0 <= j < r.value ==> !MatchAt(s, pat, j)
    ensures r.None? ==> forall j :: 0 <= j ==> !MatchAt(s, pat, j)
  {
    FindFrom(s, pat, 0)
  }

  function FindFrom(s: string, pat: string, k: nat): (r: Option<nat>)
    requires forall j :: 0 <= j < k ==> !MatchAt(s, pat, j)
    ensures r.Some? ==> k <= r.value && MatchAt(s, pat, r.value) && forall j :: 0 <= j < r.value ==> !MatchAt(s, pat, j)
    ensures r.None? ==> forall j :: 0 <= j ==> !MatchAt(s, pat, j)
    decreases |s| - k
  {
    if k + |pat| > |s| then None
    else if s[k..k + |pat|] == pat then Some(k)
    else FindFrom(s, pat, k + 1)
  }

  // ---- the printed line ----

  /** The line `vty_print_error` prints for a clipped text and the last error's message, if any. */
  function ErrorText(text: string, last: Option<string>): (out: string)
    ensures (forall j :: 0 <= j ==> !MatchAt(text, Marker, j)) ==> out == text + "\n"
  {
    match FindSub(text, Marker)
    case None => text + "\n"
    case Some(i) => text[..i] + last.GetOr(NoError) + text[i + |Marker|..] + "\n"
  }

  /** Cutting the buffer at a marker inside its C string leaves the head and the tail as C strings. */
  lemma CutAt(before: seq<char>, i: nat, after: seq<char>)
    requires MatchAt(CStr(before), Marker, i)
    requires after == before[i := '\0']
    ensures CStr(after) == CStr(before)[..i]
    ensures CStr(after[i + |Marker|..]) == CStr(before)[i + |Marker|..]
  {
    var text := CStr(before);
    assert after == text[..i] + ['\0'] + after[i + 1..];
    CStrCut(text[..i], after[i + 1..]);
    CStrCut(text[..i], []);
    assert text[..i] + ['\0'] + [] == text[..i] + ['\0'];
    CStrHead(text[..i], ['\0']);
    CutTail(before, text, i + |Marker|);
    assert after[i + |Marker|..] == before[i + |Marker|..];
  }

  lemma CutTail(before: seq<char>, text: seq<char>, k: nat)
    requires text == CStr(before) && k <= |text|
    ensures CStr(before[k..]) == text[k..]
  {
    var rest := before[|text|..];
    assert before == text + rest;
    assert before[k..] == text[k..] + rest;
    CStrHead(text[k..], rest);
    if rest != [] {
      assert rest == ['\0'] + rest[1..];
      CStrCut([], rest[1..]);
    }
  }

  /** Puts the marker back in place of a message of length `n` spliced in at `i`, and drops the newline. */
  function Restore(out: string, i: nat, n: nat): string
    requires i + n < |out|
  {
    out[..i] + Marker + out[i + n..|out| - 1]
  }

  /**
   * The substitution replaces exactly the first marker: the text before it
   * is kept, the message follows, the splice can be undone, and no marker
   * lies wholly inside the part printed before the message.
   */
  lemma ErrorTextRestores(text: string, m: string, i: nat)
    requires FindSub(text, Marker) == Some(i)
    ensures Restore(ErrorText(text, Some(m)), i, |m|) == text
    ensures |ErrorText(text, Some(m))| == |text| - |Marker| + |m| + 1
    ensures ErrorText(text, Some(m))[..i] == text[..i] && ErrorText(text, Some(m))[i..i + |m|] == m
    ensures forall j: nat :: j + |Marker| <= i ==> !MatchAt(ErrorText(text, Some(m)), Marker, j)
  {
    var out := ErrorText(text, Some(m));
    assert out == text[..i] + m + text[i + |Marker|..] + "\n";
    assert out[..i] == text[..i];
    assert out[i..i + |m|] == m;
    assert out[i + |m|..|out| - 1] == text[i + |Marker|..];
    assert text == text[..i] + Marker + text[i + |Marker|..];
    forall j: nat | j + |Marker| <= i
      ensures !MatchAt(out, Marker, j)
    {
      assert !MatchAt(text, Marker, j);
      assert out[j..j + |Marker|] == text[..i][j..j + |Marker|] == text[j..j + |Marker|];
    }
  }
}
