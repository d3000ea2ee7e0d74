/**
 * Values shared by both chat panels: an optional value (the `null` and
 * `undefined` of the source), the two canned assistant texts their timers
 * append, and the whitespace test the send handlers apply to the input box
 * before anything else happens.
 */
module Common {

  datatype Option<+T> = None | Some(value: T) {
    function GetOr(default: T): T {
      match this
      case Some(v) => v
      case None => default
    }
  }

  /** The text of the message the second timer of a turn appends. */
  const InterimText: string :=
    "I need to add the missing annual values for the operating expenses section. "
    + "I'll add the formulas to calculate annual values based on the monthly figures in column C."

  /** The text of the final message the last timer of a turn appends. */
  const FinalText: string :=
    "Let me make a few final adjustments to complete the green color scheme in our financial model. "
    + "I'll enhance the title and add formatting to some key totals to make them stand out better."

  /** The characters `String.prototype.trim` strips: ECMAScript WhiteSpace
      (tab, vertical tab, form feed, space, no-break space, byte order mark
      and the Unicode space separators) and LineTerminator. */
  predicate IsJsWhitespace(c: char) {
    || c == '\t' || c == '\U{000B}' || c == '\U{000C}' || c == ' '
    || c == '\U{00A0}' || c == '\U{FEFF}' || c == '\U{1680}'
    || ('\U{2000}' <= c <= '\U{200A}')
    || c == '\U{202F}' || c == '\U{205F}' || c == '\U{3000}'
    || c == '\n' || c == '\r' || c == '\U{2028}' || c == '\U{2029}'
  }

  /** Every character of `s` is whitespace (the empty string included). */
  predicate IsBlank(s: string) {
    forall i | 0 <= i < |s| :: IsJsWhitespace(s[i])
  }

  function TrimStart(s: string): (r: string)
    ensures |r| <= |s|
  {
    if s != [] && IsJsWhitespace(s[0]) then TrimStart(s[1..]) else s
  }

  function TrimEnd(s: string): (r: string)
    ensures |r| <= |s|
  {
    if s != [] && IsJsWhitespace(s[|s| - 1]) then TrimEnd(s[..|s| - 1]) else s
  }

  /** `s.trim()`: both ends stripped of whitespace. */
  function Trim(s: string): string {
    TrimEnd(TrimStart(s))
  }

  lemma {:induction false} TrimStartOfBlank(s: string)
    requires IsBlank(s)
    ensures TrimStart(s) == []
  {
    if s != [] {
      assert IsBlank(s[1..]) by {
        forall i | 0 <= i < |s[1..]| ensures IsJsWhitespace(s[1..][i]) {
          assert s[1..][i] == s[i + 1];
        }
      }
      TrimStartOfBlank(s[1..]);
    }
  }

  lemma {:induction false} TrimEndEmptyOnlyIfBlank(s: string)
    ensures TrimEnd(s) == [] ==> IsBlank(s)
  {
    if s != [] && IsJsWhitespace(s[|s| - 1]) {
      var p := s[..|s| - 1];
      TrimEndEmptyOnlyIfBlank(p);
      if TrimEnd(p) == [] {
        forall i | 0 <= i < |s| ensures IsJsWhitespace(s[i]) {
          if i < |s| - 1 { assert s[i] == p[i]; }
        }
      }
    }
  }

  /** The falsy test `!s.trim()` holds exactly when `s` is blank. */
  lemma TrimEmptyIffBlank(s: string)
    ensures Trim(s) == [] <==> IsBlank(s)
  {
    if IsBlank(s) {
      TrimStartOfBlank(s);
    } else {
      TrimEndEmptyOnlyIfBlank(TrimStart(s));
      if Trim(s) == [] {
        TrimStartBlankTail(s);
      }
    }
  }

  /** If what `TrimStart` leaves is blank, the whole string was blank. */
  lemma {:induction false} TrimStartBlankTail(s: string)
    requires IsBlank(TrimStart(s))
    ensures IsBlank(s)
  {
    if s != [] && IsJsWhitespace(s[0]) {
      TrimStartBlankTail(s[1..]);
      forall i | 0 <= i < |s| ensures IsJsWhitespace(s[i]) {
        if i > 0 { assert s[i] == s[1..][i - 1]; }
      }
    }
  }
}
