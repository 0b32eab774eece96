/** Upper-casing of signal labels and ticker symbols (JavaScript's
    `toUpperCase`, Python's `str.upper`), restricted to ASCII letters. */
module Text {

  predicate IsLower(ch: char) {
    'a' <= ch <= 'z'
  }

  function UpperChar(ch: char): (u: char)
    ensures !IsLower(u)
    ensures IsLower(ch) ==> u as int == ch as int - 32
    ensures !IsLower(ch) ==> u == ch
  {
    if IsLower(ch) then (ch as int - 32) as char else ch
  }

  function ToUpper(s: string): (u: string)
    ensures |u| == |s|
    ensures forall i :: 0 <= i < |s| ==> u[i] == UpperChar(s[i])
  {
    seq(|s|, i requires 0 <= i < |s| => UpperChar(s[i]))
  }

  /** Upper-casing a second time changes nothing. */
  lemma ToUpperIdempotent(s: string)
    ensures ToUpper(ToUpper(s)) == ToUpper(s)
  {
    var u := ToUpper(s);
    assert forall i :: 0 <= i < |u| ==> UpperChar(u[i]) == u[i];
  }

  /** Two characters that upper-case alike are the same letter, ignoring case. */
  function SameIgnoringCase(ch: char, upper: char): bool {
    ch == upper || (IsLower(ch) && ch as int == upper as int + 32)
  }

  /** `ToUpper(s) == t` for an upper-case target t holds exactly when s spells
      t letter by letter in either case. */
  lemma ToUpperMatches(s: string, t: string)
    requires forall i :: 0 <= i < |t| ==> !IsLower(t[i])
    ensures ToUpper(s) == t <==>
              |s| == |t| && forall i :: 0 <= i < |s| ==> SameIgnoringCase(s[i], t[i])
  {
    if |s| == |t| && forall i :: 0 <= i < |s| ==> SameIgnoringCase(s[i], t[i]) {
      forall i | 0 <= i < |s| ensures ToUpper(s)[i] == t[i] {
        if IsLower(s[i]) && s[i] != t[i] {
          assert (s[i] as int - 32) as char == t[i];
        }
      }
    }
  }
}
