/**
 * The quote escaping that the payroll router and the user-reset script apply to every
 * string they splice into a SQL literal: each single quote is doubled.
 */
module SqlEscape {
  import opened Common

  const Quote: char := '\''

  /** Number of single quotes in `s`. */
  function Quotes(s: string): nat
  {
    if s == [] then 0 else (if s[0] == Quote then 1 else 0) + Quotes(s[1..])
  }

  /** The characters of `s` other than quotes, in order. */
  function Unquoted(s: string): string
  {
    if s == [] then [] else (if s[0] == Quote then [] else [s[0]]) + Unquoted(s[1..])
  }

  /** Every quote in `r` stands in an adjacent pair, so `'` + r + `'` is one SQL literal. */
  predicate WellEscaped(r: string)
    decreases |r|
  {
    if r == [] then true
    else if r[0] != Quote then WellEscaped(r[1..])
    else |r| >= 2 && r[1] == Quote && WellEscaped(r[2..])
  }

  /** `s.replace("'", "''")`. */
  function Escape(s: string): (r: string)
    ensures |r| == |s| + Quotes(s)
    ensures Quotes(r) == 2 * Quotes(s)
    ensures Unquoted(r) == Unquoted(s)
    ensures WellEscaped(r)
  {
    if s == [] then []
    else
      var rest := Escape(s[1..]);
      if s[0] == Quote then
        var r := [Quote, Quote] + rest;
        assert r[1..] == [Quote] + rest && r[2..] == rest;
        assert r[1..][1..] == rest;
        r
      else
        var r := [s[0]] + rest;
        assert r[1..] == rest;
        r
  }

  /** `_esc(s)` in the payroll router: `(s or "").replace("'", "''")`. */
  function EscapeOptional(s: Option<string>): (r: string)
    ensures s.None? ==> r == ""
    ensures s.Some? ==> |r| == |s.value| + Quotes(s.value) && WellEscaped(r)
    ensures s.Some? ==> r == Escape(s.value) && Unescape(r) == s.value
  {
    UnescapeEscape(s.GetOr(""));
    Escape(s.GetOr(""))
  }

  /** How the SQL engine reads the body of a quoted literal back. */
  function Unescape(r: string): string
    decreases |r|
  {
    if r == [] then []
    else if |r| >= 2 && r[0] == Quote && r[1] == Quote then [Quote] + Unescape(r[2..])
    else [r[0]] + Unescape(r[1..])
  }

  /** Escaping loses nothing: the literal the store parses is the original string. */
  lemma {:induction false} UnescapeEscape(s: string)
    ensures Unescape(Escape(s)) == s
  {
    if s != [] {
      UnescapeEscape(s[1..]);
      var r := Escape(s);
      if s[0] == Quote {
        assert r[2..] == Escape(s[1..]);
      } else {
        assert r[1..] == Escape(s[1..]);
      }
    }
  }

  /** Escaping is injective, so two different names never meet as one literal. */
  lemma EscapeInjective(s: string, t: string)
    requires Escape(s) == Escape(t)
    ensures s == t
  {
    UnescapeEscape(s);
    UnescapeEscape(t);
  }
}
