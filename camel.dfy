/** `Contact._camelize`: `str.title()` followed by a substitution that drops
    each underscore standing between two alphanumerics and upper-cases the
    character after it. */
module Camel {
  import opened PyStr

  /** `re.sub(r'[A-Za-z0-9]_[A-Za-z0-9]', f, s)` where `f` keeps the first
      character of the match and upper-cases the last: the leftmost match is
      replaced and the scan resumes after it, so matches do not overlap. */
  function SubUnderscores(s: string): string
  {
    if |s| >= 3 && IsAlnum(s[0]) && s[1] == '_' && IsAlnum(s[2]) then
      [s[0], UpperChar(s[2])] + SubUnderscores(s[3..])
    else if s == [] then []
    else [s[0]] + SubUnderscores(s[1..])
  }

  /** `Contact._camelize` */
  function Camelize(s: string): string
  {
    SubUnderscores(Title(s))
  }

  /** The substitution never lengthens the text and keeps its first character. */
  lemma {:induction false} SubUnderscoresShape(s: string)
    ensures |SubUnderscores(s)| <= |s|
    ensures |s| > 0 ==> |SubUnderscores(s)| > 0 && SubUnderscores(s)[0] == s[0]
  {
    if |s| >= 3 && IsAlnum(s[0]) && s[1] == '_' && IsAlnum(s[2]) {
      SubUnderscoresShape(s[3..]);
    } else if s != [] {
      SubUnderscoresShape(s[1..]);
    }
  }

  /** `_camelize` never lengthens a name, and upper-cases its first character. */
  lemma CamelizeShape(s: string)
    ensures |Camelize(s)| <= |s|
    ensures |s| > 0 ==> |Camelize(s)| > 0 && Camelize(s)[0] == UpperChar(s[0])
  {
    SubUnderscoresShape(Title(s));
  }

  /** One word of a snake_case attribute name: at least two characters, all
      lower-case letters except that the last may be a digit (`address1`). */
  predicate IsWord(w: string)
  {
    && |w| >= 2
    && (forall c | c in w[..|w| - 1] :: IsLower(c))
    && (IsLower(w[|w| - 1]) || IsDigit(w[|w| - 1]))
  }

  predicate AllWords(ws: seq<string>)
  {
    forall w | w in ws :: IsWord(w)
  }

  /** The word with its first character upper-cased. */
  function Capitalized(w: string): string
  {
    if w == [] then [] else [UpperChar(w[0])] + w[1..]
  }

  /** The words capitalized and run together: `["first", "name"]` gives `FirstName`. */
  function CamelCase(ws: seq<string>): string
  {
    if ws == [] then "" else Capitalized(ws[0]) + CamelCase(ws[1..])
  }

  function CapitalizedAll(ws: seq<string>): (cs: seq<string>)
    ensures |cs| == |ws|
  {
    seq(|ws|, i requires 0 <= i < |ws| => Capitalized(ws[i]))
  }

  predicate AllAlnum(s: string) { forall i | 0 <= i < |s| :: IsAlnum(s[i]) }

  lemma WordChars(w: string)
    requires IsWord(w)
    ensures IsLower(w[0])
    ensures forall i | 0 <= i < |w| - 1 :: IsLower(w[i])
    ensures forall i | 0 <= i < |w| :: IsAlnum(w[i])
  {
    assert w[0] == w[..|w| - 1][0];
    forall i | 0 <= i < |w| - 1 ensures IsLower(w[i]) {
      assert w[i] == w[..|w| - 1][i];
    }
  }

  lemma CapitalizedWord(w: string)
    requires IsWord(w)
    ensures Capitalized(w) == [UpperChar(w[0])] + w[1..]
    ensures IsUpper(Capitalized(w)[0])
    ensures |Capitalized(w)| >= 2 && AllAlnum(Capitalized(w)) && '_' !in Capitalized(w)
    ensures AllAlnum(w[1..]) && '_' !in w[1..]
  {
    WordChars(w);
    var x := Capitalized(w);
    forall i | 0 <= i < |x| ensures IsAlnum(x[i]) {
      if i > 0 { assert x[i] == w[i]; }
    }
    forall i | 0 <= i < |w[1..]| ensures IsAlnum(w[1..][i]) {
      assert w[1..][i] == w[i + 1];
    }
  }

  lemma {:induction false} SubUnderscoresIdentity(s: string)
    requires '_' !in s
    ensures SubUnderscores(s) == s
  {
    if s != [] {
      SubUnderscoresIdentity(s[1..]);
      assert [s[0]] + s[1..] == s;
    }
  }

  /** The leftmost match sits on the first underscore. */
  lemma {:induction false} SubUnderscoresAt(x: string, y: string)
    requires |x| >= 1 && AllAlnum(x)
    requires |y| >= 1 && IsAlnum(y[0])
    ensures SubUnderscores(x + "_" + y) == x + [UpperChar(y[0])] + SubUnderscores(y[1..])
  {
    var s := x + "_" + y;
    if |x| == 1 {
      assert s[3..] == y[1..];
    } else {
      assert s[1] == x[1];
      assert s[1..] == x[1..] + "_" + y;
      SubUnderscoresAt(x[1..], y);
      assert [x[0]] + x[1..] == x;
    }
  }

  lemma {:induction false} TitleAroundUnderscore(a: string, b: string)
    ensures Title(a + "_" + b) == Title(a) + "_" + Title(b)
  {
    var s := a + "_" + b;
    var t := Title(a) + "_" + Title(b);
    forall i | 0 <= i < |s| ensures Title(s)[i] == t[i] {
      if i > |a| + 1 {
        assert s[i] == b[i - |a| - 1] && s[i - 1] == b[i - |a| - 2];
      }
    }
  }

  lemma TitleOfWord(w: string)
    requires IsWord(w)
    ensures Title(w) == Capitalized(w)
  {
    WordChars(w);
    forall i | 0 < i < |w| ensures TitleChar(w, i) == w[i] {
      if IsLetter(w[i]) { assert IsLower(w[i - 1]); }
    }
  }

  lemma WordsTail(ws: seq<string>)
    requires |ws| >= 1 && AllWords(ws)
    ensures IsWord(ws[0]) && AllWords(ws[1..])
  {
  }

  lemma {:induction false} TitleOfSnakeCase(ws: seq<string>)
    requires |ws| >= 1 && AllWords(ws)
    ensures Title(Join(ws, '_')) == Join(CapitalizedAll(ws), '_')
  {
    WordsTail(ws);
    TitleOfWord(ws[0]);
    if |ws| > 1 {
      TitleAroundUnderscore(ws[0], Join(ws[1..], '_'));
      TitleOfSnakeCase(ws[1..]);
      assert CapitalizedAll(ws)[1..] == CapitalizedAll(ws[1..]);
    }
  }

  /** A capitalized word: alphanumeric, at least two characters, and left
      alone by upper-casing its first. */
  predicate IsPiece(c: string)
  {
    |c| >= 2 && AllAlnum(c) && UpperChar(c[0]) == c[0]
  }

  function Concat(cs: seq<string>): string
  {
    if cs == [] then "" else cs[0] + Concat(cs[1..])
  }

  lemma AlnumWithoutUnderscore(s: string)
    requires AllAlnum(s)
    ensures '_' !in s
  {
    forall i | 0 <= i < |s| ensures s[i] != '_' {
      assert IsAlnum(s[i]);
    }
  }

  lemma PieceTail(c: string)
    requires IsPiece(c)
    ensures |c[1..]| >= 1 && AllAlnum(c[1..]) && '_' !in c[1..]
    ensures [UpperChar(c[0])] + c[1..] == c
  {
    var tail := c[1..];
    forall i | 0 <= i < |tail| ensures IsAlnum(tail[i]) {
      assert tail[i] == c[i + 1];
    }
    AlnumWithoutUnderscore(tail);
  }

  lemma SubUnderscoresLastPiece(x: string, c: string)
    requires |x| >= 1 && AllAlnum(x) && IsPiece(c)
    ensures SubUnderscores(x + "_" + c) == x + c
  {
    PieceTail(c);
    var u := [UpperChar(c[0])];
    assert u + c[1..] == c;
    assert x + u + c[1..] == x + c;
    SubUnderscoresIdentity(c[1..]);
    SubUnderscoresAt(x, c);
  }

  /** After an alphanumeric `x`, the substitution removes every underscore of
      the joined pieces. */
  lemma {:induction false} SubUnderscoresJoined(x: string, cs: seq<string>)
    requires |x| >= 1 && AllAlnum(x)
    requires |cs| >= 1 && forall c | c in cs :: IsPiece(c)
    decreases cs
    ensures SubUnderscores(x + "_" + Join(cs, '_')) == x + Concat(cs)
  {
    var c := cs[0];
    assert IsPiece(c);
    var tail := c[1..];
    PieceTail(c);
    if |cs| == 1 {
      SubUnderscoresLastPiece(x, c);
    } else {
      var more, u := Join(cs[1..], '_'), [UpperChar(c[0])];
      var y := c + "_" + more;
      assert Join(cs, '_') == y;
      assert y[0] == c[0] && y[1..] == tail + "_" + more;
      SubUnderscoresJoined(tail, cs[1..]);
      SubUnderscoresAt(x, y);
      assert c == u + tail && Concat(cs) == c + Concat(cs[1..]);
      assert x + u + (tail + Concat(cs[1..])) == x + Concat(cs);
    }
  }

  /** The substitution runs the joined pieces together, when every piece has
      two or more characters. */
  lemma SubUnderscoresOfPieces(cs: seq<string>)
    requires |cs| >= 1 && forall c | c in cs :: IsPiece(c)
    ensures SubUnderscores(Join(cs, '_')) == Concat(cs)
  {
    var c := cs[0];
    assert IsPiece(c);
    if |cs| == 1 {
      AlnumWithoutUnderscore(c);
      SubUnderscoresIdentity(c);
    } else {
      assert Join(cs, '_') == c + "_" + Join(cs[1..], '_');
      SubUnderscoresJoined(c, cs[1..]);
    }
  }

  /** Capitalizing each word gives the pieces `CamelCase` runs together. */
  lemma {:induction false} CamelCasePieces(ws: seq<string>)
    requires AllWords(ws)
    ensures forall c | c in CapitalizedAll(ws) :: IsPiece(c)
    ensures CamelCase(ws) == Concat(CapitalizedAll(ws))
  {
    var cs := CapitalizedAll(ws);
    forall c | c in cs ensures IsPiece(c) {
      var i :| 0 <= i < |cs| && cs[i] == c;
      assert ws[i] in ws;
      CapitalizedWord(ws[i]);
    }
    if ws != [] {
      CamelCasePieces(ws[1..]);
      assert cs[1..] == CapitalizedAll(ws[1..]);
    }
  }

  /** `_camelize` turns a snake_case name into its words, capitalized and run
      together, when every word has two or more characters. */
  lemma CamelizeSnakeCase(ws: seq<string>)
    requires |ws| >= 1 && AllWords(ws)
    ensures Camelize(Join(ws, '_')) == CamelCase(ws)
  {
    TitleOfSnakeCase(ws);
    CamelCasePieces(ws);
    SubUnderscoresOfPieces(CapitalizedAll(ws));
  }

  /** With one-letter words the matches of the substitution would overlap, so
      the second underscore stays: `a_b_c` becomes `AB_C`, not `ABC`. */
  lemma CamelizeOneLetterWords()
    ensures Camelize("a_b_c") == "AB_C"
    ensures CamelCase(["a", "b", "c"]) == "ABC"
  {
    var t := Title("a_b_c");
    assert t == "A_B_C";
    var rest := t[3..];
    assert rest == "_C" && rest[1..] == "C";
    assert SubUnderscores(rest[1..][1..]) == [];
    assert SubUnderscores(rest[1..]) == "C";
    assert SubUnderscores(rest) == "_C";
    assert SubUnderscores(t) == [t[0], UpperChar(t[2])] + SubUnderscores(rest);
  }

  /** A single lower-case word of two or more characters only has its first
      letter upper-cased. */
  lemma CamelizeWord(w: string)
    requires IsWord(w)
    ensures Camelize(w) == Capitalized(w)
  {
    CamelizeSnakeCase([w]);
  }

  /** A name without underscores only changes case. */
  lemma CamelizeWithoutUnderscore(s: string)
    requires '_' !in s
    ensures Camelize(s) == Title(s)
  {
    assert forall i | 0 <= i < |s| :: Title(s)[i] != '_';
    SubUnderscoresIdentity(Title(s));
  }

  /** A name that starts with an underscore keeps it. */
  lemma CamelizeLeadingUnderscore(s: string)
    requires |s| > 0 && s[0] == '_'
    ensures |Camelize(s)| > 0 && Camelize(s)[0] == '_'
  {
    assert Title(s)[0] == '_';
  }
}
