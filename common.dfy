/** Small value types and the string helpers that several components share:
    the optional value, a browser `File` as the handlers see it, and the
    whitespace rules of JavaScript's `String.prototype.trim`. */
module Common {

  datatype Option<+T> = None | Some(value: T) {
    function GetOr(default: T): T {
      match this
      case Some(v) => v
      case None => default
    }
  }

  /** A selected or dropped file: its name, its MIME type (`file.type`) and its size in bytes. */
  datatype File = File(name: string, mimeType: string, size: nat)

  /** The first file of a `FileList`, if there is one (`files?.[0]`). */
  function FirstFile(files: seq<File>): (r: Option<File>)
    ensures r.None? <==> files == []
    ensures r.Some? ==> r.value == files[0]
  {
    if |files| > 0 then Some(files[0]) else None
  }

  /** The characters `trim` removes: the WhiteSpace and LineTerminator
      code points of ECMAScript (tab, vertical tab, form feed, space,
      no-break space, byte order mark, the Zs separators, LF, CR, LS, PS). */
  predicate IsWhitespace(c: char) {
    || c == '\t' || c == '\n' || c == '\U{000B}' || c == '\U{000C}' || c == '\r'
    || c == ' ' || c == '\U{00A0}' || c == '\U{1680}'
    || ('\U{2000}' <= c <= '\U{200A}')
    || c == '\U{2028}' || c == '\U{2029}' || c == '\U{202F}' || c == '\U{205F}'
    || c == '\U{3000}' || c == '\U{FEFF}'
  }

  /** Every character is whitespace (the empty string included). */
  predicate IsBlank(s: string) {
    forall i :: 0 <= i < |s| ==> IsWhitespace(s[i])
  }

  /** `s` without its leading whitespace. */
  function TrimStart(s: string): (r: string)
    ensures |r| <= |s|
  {
    if |s| > 0 && IsWhitespace(s[0]) then TrimStart(s[1..]) else s
  }

  /** `s` without its trailing whitespace. */
  function TrimEnd(s: string): (r: string)
    ensures |r| <= |s|
  {
    if |s| > 0 && IsWhitespace(s[|s| - 1]) then TrimEnd(s[..|s| - 1]) else s
  }

  /** `s.trim()`: `s` without its leading and trailing whitespace. */
  function Trim(s: string): (r: string)
    ensures |r| <= |s|
  {
    TrimEnd(TrimStart(s))
  }

  /** `TrimStart` keeps a suffix that does not start with whitespace, and
      what it removes is all whitespace. */
  lemma {:induction false} TrimStartShape(s: string)
    ensures var r := TrimStart(s);
            && r == s[|s| - |r|..]
            && (r != [] ==> !IsWhitespace(r[0]))
            && IsBlank(s[..|s| - |r|])
  {
    if |s| > 0 && IsWhitespace(s[0]) {
      var r := TrimStart(s[1..]);
      TrimStartShape(s[1..]);
      assert s[1..][..|s| - 1 - |r|] == s[1..|s| - |r|];
    }
  }

  /** `TrimEnd` keeps a prefix that does not end with whitespace, and
      what it removes is all whitespace. */
  lemma {:induction false} TrimEndShape(s: string)
    ensures var r := TrimEnd(s);
            && r == s[..|r|]
            && (r != [] ==> !IsWhitespace(r[|r| - 1]))
            && IsBlank(s[|r|..])
  {
    if |s| > 0 && IsWhitespace(s[|s| - 1]) {
      var r := TrimEnd(s[..|s| - 1]);
      TrimEndShape(s[..|s| - 1]);
      assert s[..|s| - 1][|r|..] == s[|r|..|s| - 1];
    }
  }

  /** `trim` keeps a contiguous part of `s` that neither starts nor ends
      with whitespace, removing only whitespace around it. */
  lemma TrimShape(s: string)
    ensures exists lo, hi :: 0 <= lo <= hi <= |s| && Trim(s) == s[lo..hi]
              && IsBlank(s[..lo]) && IsBlank(s[hi..])
    ensures Trim(s) != [] ==> !IsWhitespace(Trim(s)[0]) && !IsWhitespace(Trim(s)[|Trim(s)| - 1])
  {
    var t := TrimStart(s);
    TrimStartShape(s);
    TrimEndShape(t);
    var lo := |s| - |t|;
    var hi := lo + |TrimEnd(t)|;
    assert Trim(s) == s[lo..hi];
    assert s[hi..] == t[|TrimEnd(t)|..];
  }

  /** `trim` leaves nothing exactly when the string is all whitespace, so
      the falsy test `!s.trim()` is the blank test. */
  lemma {:induction false} TrimEmptyIffBlank(s: string)
    ensures Trim(s) == [] <==> IsBlank(s)
  {
    var t := TrimStart(s);
    var k := |s| - |t|;
    TrimStartShape(s);
    if !IsBlank(s) {
      var i :| 0 <= i < |s| && !IsWhitespace(s[i]);
      assert i >= k;
      assert t != [];
      assert !IsWhitespace(t[0]);
      TrimEndShape(t);
    }
  }
}
