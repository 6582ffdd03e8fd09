/** The string operations the handlers apply to user names and labels. */
module Text {

  /**
   * The characters Python's `str.strip()` removes (those for which `str.isspace()` holds):
   * tab to carriage return, the four information separators, space, next line, no-break
   * space, and the Unicode space separators.
   */
  predicate IsSpace(c: char)
  {
    || '\t' <= c <= '\r'
    || '\U{1C}' <= c <= ' '
    || c == '\U{85}' || c == '\U{A0}' || c == '\U{1680}'
    || '\U{2000}' <= c <= '\U{200A}'
    || c == '\U{2028}' || c == '\U{2029}' || c == '\U{202F}' || c == '\U{205F}' || c == '\U{3000}'
  }

  predicate Blank(s: string)
  {
    forall i :: 0 <= i < |s| ==> IsSpace(s[i])
  }

  function TrimLeft(s: string): (r: string)
    ensures |r| <= |s|
  {
    if s != [] && IsSpace(s[0]) then TrimLeft(s[1..]) else s
  }

  lemma {:induction false} TrimLeftShape(s: string)
    ensures TrimLeft(s) == s[|s| - |TrimLeft(s)|..]
    ensures TrimLeft(s) == [] || !IsSpace(TrimLeft(s)[0])
    ensures Blank(s[..|s| - |TrimLeft(s)|])
  {
    if s != [] && IsSpace(s[0]) {
      TrimLeftShape(s[1..]);
      var r := TrimLeft(s);
      var d := |s| - |r|;
      assert s[1..][..d - 1] == s[1..d];
      assert forall k :: 0 <= k < d ==> IsSpace(s[..d][k]) by {
        forall k | 0 <= k < d ensures IsSpace(s[..d][k]) {
          if k > 0 { assert s[..d][k] == s[1..][..d - 1][k - 1]; }
        }
      }
    }
  }

  function TrimRight(s: string): (r: string)
    ensures |r| <= |s|
  {
    if s != [] && IsSpace(s[|s| - 1]) then TrimRight(s[..|s| - 1]) else s
  }

  lemma {:induction false} TrimRightShape(s: string)
    ensures TrimRight(s) == s[..|TrimRight(s)|]
    ensures TrimRight(s) == [] || !IsSpace(TrimRight(s)[|TrimRight(s)| - 1])
    ensures Blank(s[|TrimRight(s)|..])
  {
    if s != [] && IsSpace(s[|s| - 1]) {
      var n := |s| - 1;
      TrimRightShape(s[..n]);
      var r := TrimRight(s);
      assert s[..n][..|r|] == s[..|r|];
      assert forall k :: |r| <= k < |s| ==> IsSpace(s[k]) by {
        forall k | |r| <= k < |s| ensures IsSpace(s[k]) {
          if k < n { assert s[..n][|r|..][k - |r|] == s[k]; }
        }
      }
      assert forall k :: 0 <= k < |s| - |r| ==> s[|r|..][k] == s[|r| + k];
    }
  }

  /** Python's `s.strip()`. */
  function Strip(s: string): (r: string)
    ensures |r| <= |s|
  {
    TrimRight(TrimLeft(s))
  }

  /** What `strip` leaves has no whitespace at either end. */
  lemma StripShape(s: string)
    ensures Strip(s) == [] || (!IsSpace(Strip(s)[0]) && !IsSpace(Strip(s)[|Strip(s)| - 1]))
  {
    TrimLeftShape(s);
    TrimRightShape(TrimLeft(s));
  }

  /** A string strips to nothing exactly when it is blank. */
  lemma StripEmptyIffBlank(s: string)
    ensures Strip(s) == [] <==> Blank(s)
  {
    TrimLeftShape(s);
    var l := TrimLeft(s);
    TrimRightShape(l);
    var off := |s| - |l|;
    assert l != [] ==> l[0] == s[off];
    if !Blank(s) {
      var i :| 0 <= i < |s| && !IsSpace(s[i]);
      assert forall k :: 0 <= k < off ==> IsSpace(s[k]) by {
        forall k | 0 <= k < off ensures IsSpace(s[k]) { assert s[..off][k] == s[k]; }
      }
      assert l[i - off] == s[i];
      var r := TrimRight(l);
      assert forall k :: |r| <= k < |l| ==> IsSpace(l[k]) by {
        forall k | |r| <= k < |l| ensures IsSpace(l[k]) { assert l[|r|..][k - |r|] == l[k]; }
      }
    }
  }

  function LowerChar(c: char): char
  {
    if 'A' <= c <= 'Z' then (c as int + 32) as char else c
  }

  /** Python's `s.lower()` on ASCII letters. */
  function Lower(s: string): (r: string)
    ensures |r| == |s|
  {
    seq(|s|, i requires 0 <= i < |s| => LowerChar(s[i]))
  }

  /** `s.strip().lower()`: how a user name is compared with a staff id. */
  function Normalize(s: string): string
  {
    Lower(Strip(s))
  }
}
