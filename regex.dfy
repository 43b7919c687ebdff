/** `re.match` for the patterns the client uses: a fixed sequence of
    one-character atoms. `re.match` anchors only at the start of the text, so
    whatever follows the matched part is ignored. */
module Regex {
  import opened PyStr

  /** One position of a pattern: a literal character, or `\d`. */
  datatype Atom = Char(c: char) | Digit

  predicate AtomMatches(a: Atom, c: char)
  {
    match a
    case Char(x) => c == x
    case Digit => IsDigit(c)
  }

  /** True when `re.match(pattern, s)` finds a match. */
  function Match(pattern: seq<Atom>, s: string): (r: bool)
    ensures pattern == [] ==> r
    ensures r ==> |s| >= |pattern|
  {
    if pattern == [] then true
    else s != [] && AtomMatches(pattern[0], s[0]) && Match(pattern[1..], s[1..])
  }

  /** The pattern matches exactly when every atom matches the character at its
      own position; characters past the pattern's length are not looked at. */
  lemma {:induction false} MatchAt(pattern: seq<Atom>, s: string)
    ensures Match(pattern, s) <==>
      |s| >= |pattern| && forall i | 0 <= i < |pattern| :: AtomMatches(pattern[i], s[i])
  {
    if pattern != [] && s != [] {
      MatchAt(pattern[1..], s[1..]);
      if Match(pattern, s) {
        forall i | 0 <= i < |pattern| ensures AtomMatches(pattern[i], s[i]) {
          if i > 0 { assert pattern[1..][i - 1] == pattern[i]; }
        }
      } else if AtomMatches(pattern[0], s[0]) && |s| >= |pattern| {
        var j :| 0 <= j < |pattern[1..]| && !AtomMatches(pattern[1..][j], s[1..][j]);
        assert !AtomMatches(pattern[j + 1], s[j + 1]);
      }
    }
  }

  /** Appending text after a match keeps it a match. */
  lemma MatchExtends(pattern: seq<Atom>, s: string, t: string)
    requires Match(pattern, s)
    ensures Match(pattern, s + t)
  {
    MatchAt(pattern, s);
    MatchAt(pattern, s + t);
    assert forall i | 0 <= i < |s| :: (s + t)[i] == s[i];
  }
}
