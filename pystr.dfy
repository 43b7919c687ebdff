/** The Python string builtins the client relies on, over ASCII text:
    `str.upper`, `str.title`, `str.split`, `str.join`, and `int()` / `str()`
    on decimal integers. */
module PyStr {
  import opened Wrappers

  predicate IsLower(c: char) { 'a' <= c <= 'z' }
  predicate IsUpper(c: char) { 'A' <= c <= 'Z' }
  predicate IsLetter(c: char) { IsLower(c) || IsUpper(c) }
  predicate IsDigit(c: char) { '0' <= c <= '9' }
  predicate IsAlnum(c: char) { IsLetter(c) || IsDigit(c) }

  function UpperChar(c: char): char { if IsLower(c) then (c as int - 32) as char else c }
  function LowerChar(c: char): char { if IsUpper(c) then (c as int + 32) as char else c }

  /** `s.upper()` */
  function Upper(s: string): (r: string)
    ensures |r| == |s|
  {
    seq(|s|, i requires 0 <= i < |s| => UpperChar(s[i]))
  }

  /** No lower-case letter is left; a lower-case letter's partner gives it
      back, and every other character is kept. */
  lemma UpperCase(s: string)
    ensures var r := Upper(s);
      && (forall i | 0 <= i < |s| :: !IsLower(r[i]))
      && (forall i | 0 <= i < |s| :: if IsLower(s[i]) then LowerChar(r[i]) == s[i] else r[i] == s[i])
  {
  }

  /** The character at `i` of `s.title()`: a letter becomes upper case when the
      character before it is not a letter (or there is none), lower case otherwise;
      every other character is kept. */
  function TitleChar(s: string, i: nat): char
    requires i < |s|
  {
    if !IsLetter(s[i]) then s[i]
    else if i > 0 && IsLetter(s[i - 1]) then LowerChar(s[i])
    else UpperChar(s[i])
  }

  /** `s.title()` */
  function Title(s: string): (r: string)
    ensures |r| == |s|
  {
    seq(|s|, i requires 0 <= i < |s| => TitleChar(s, i))
  }

  /** Only the case of a letter changes: letters stay the same letters and
      nothing else changes; a letter is upper case exactly when it begins a
      run of letters. */
  lemma TitleCase(s: string)
    ensures var r := Title(s);
      && (forall i | 0 <= i < |s| :: LowerChar(r[i]) == LowerChar(s[i]))
      && (forall i | 0 <= i < |s| :: IsLetter(r[i]) <==> IsLetter(s[i]))
      && (forall i | 0 <= i < |s| && !IsLetter(s[i]) :: r[i] == s[i])
      && (forall i | 0 <= i < |s| && IsLetter(s[i]) ::
            IsUpper(r[i]) <==> (i == 0 || !IsLetter(s[i - 1])))
  {
  }

  /** `sep.join(ws)` for a one-character separator. */
  function Join(ws: seq<string>, sep: char): string
  {
    if ws == [] then ""
    else if |ws| == 1 then ws[0]
    else ws[0] + [sep] + Join(ws[1..], sep)
  }

  /** `s.split(sep)` for a one-character separator: the pieces between the
      occurrences of `sep`, empty pieces included. */
  function Split(s: string, sep: char): (pieces: seq<string>)
    ensures |pieces| >= 1
    ensures forall p | p in pieces :: sep !in p
  {
    if s == [] then [""]
    else
      var rest := Split(s[1..], sep);
      if s[0] == sep then [""] + rest
      else [[s[0]] + rest[0]] + rest[1..]
  }

  /** The number of occurrences of `c` in `s`. */
  function Count(s: string, c: char): nat
  {
    if s == [] then 0 else (if s[0] == c then 1 else 0) + Count(s[1..], c)
  }

  /** Joining the pieces of a split gives back the original text. */
  lemma {:induction false} JoinSplit(s: string, sep: char)
    ensures Join(Split(s, sep), sep) == s
  {
    if s != [] {
      var rest := Split(s[1..], sep);
      JoinSplit(s[1..], sep);
      if s[0] == sep {
        assert Join([""] + rest, sep) == "" + [sep] + Join(rest, sep);
      } else if |rest| == 1 {
        assert Split(s, sep) == [[s[0]] + rest[0]];
      } else {
        var pieces := Split(s, sep);
        assert pieces[1..] == rest[1..];
        assert Join(pieces, sep) == [s[0]] + (rest[0] + [sep] + Join(rest[1..], sep));
      }
    }
  }

  /** The first piece of a split is the text up to the first separator, or
      all of it; the other pieces are the split of what follows that
      separator. */
  lemma {:induction false} SplitFirst(s: string, sep: char)
    ensures var p := Split(s, sep)[0];
      && |p| <= |s| && s[..|p|] == p && (|p| == |s| || s[|p|] == sep)
      && (|p| == |s| ==> |Split(s, sep)| == 1)
      && (|p| < |s| ==> Split(s, sep)[1..] == Split(s[|p| + 1..], sep))
  {
    if s != [] && s[0] != sep {
      var rest := Split(s[1..], sep);
      SplitFirst(s[1..], sep);
      var q := rest[0];
      var p := [s[0]] + q;
      assert Split(s, sep)[0] == p && Split(s, sep)[1..] == rest[1..];
      assert s[..|p|] == [s[0]] + s[1..][..|q|];
      if |p| < |s| {
        assert s[1..][|q| + 1..] == s[|p| + 1..];
      }
    }
  }

  /** A split yields one more piece than there are separators. */
  lemma {:induction false} SplitCount(s: string, sep: char)
    ensures |Split(s, sep)| == Count(s, sep) + 1
  {
    if s != [] {
      SplitCount(s[1..], sep);
    }
  }

  /** A character occurs no times exactly when it is absent. */
  lemma {:induction false} CountZero(s: string, c: char)
    ensures Count(s, c) == 0 <==> c !in s
  {
    if s != [] {
      CountZero(s[1..], c);
      assert s == [s[0]] + s[1..];
    }
  }

  lemma {:induction false} SplitWithoutSeparator(a: string, sep: char)
    requires sep !in a
    ensures Split(a, sep) == [a]
  {
    if a != [] {
      assert a[0] != sep;
      SplitWithoutSeparator(a[1..], sep);
      assert [a[0]] + a[1..] == a;
    }
  }

  lemma {:induction false} SplitAfterPiece(a: string, b: string, sep: char)
    requires sep !in a
    ensures Split(a + [sep] + b, sep) == [a] + Split(b, sep)
  {
    var s := a + [sep] + b;
    if a == [] {
      assert s[1..] == b;
    } else {
      assert s[1..] == a[1..] + [sep] + b;
      SplitAfterPiece(a[1..], b, sep);
      assert [a[0]] + a[1..] == a;
    }
  }

  /** Splitting a join gives back the joined strings when none of them holds
      the separator (and there is at least one: `"".split(sep)` is `[""]`). */
  lemma {:induction false} SplitJoin(ws: seq<string>, sep: char)
    requires |ws| >= 1
    requires forall w | w in ws :: sep !in w
    ensures Split(Join(ws, sep), sep) == ws
  {
    if |ws| == 1 {
      SplitWithoutSeparator(ws[0], sep);
    } else {
      SplitJoin(ws[1..], sep);
      SplitAfterPiece(ws[0], Join(ws[1..], sep), sep);
      assert [ws[0]] + ws[1..] == ws;
    }
  }

  predicate AllDigits(s: string) { forall i | 0 <= i < |s| :: IsDigit(s[i]) }

  /** The value of a string of decimal digits. */
  function DecimalValue(ds: string): nat
    requires AllDigits(ds)
  {
    if ds == [] then 0
    else DecimalValue(ds[..|ds| - 1]) * 10 + (ds[|ds| - 1] as int - '0' as int)
  }

  /** `int(s)` for an optional sign followed by decimal digits; None where
      Python raises ValueError. */
  function ParseInt(s: string): Option<int>
  {
    if |s| > 1 && (s[0] == '+' || s[0] == '-') && AllDigits(s[1..]) then
      var v: int := DecimalValue(s[1..]);
      Some(if s[0] == '-' then -v else v)
    else if |s| > 0 && AllDigits(s) then Some(DecimalValue(s))
    else None
  }

  /** Only text that starts with a digit or a sign is an integer literal, and
      its value has the sign written. */
  lemma ParseIntSign(s: string)
    ensures ParseInt(s).Some? ==> |s| > 0 && (IsDigit(s[0]) || s[0] == '+' || s[0] == '-')
    ensures ParseInt(s).Some? && s[0] == '-' ==> ParseInt(s).value <= 0
    ensures ParseInt(s).Some? && s[0] != '-' ==> ParseInt(s).value >= 0
  {
  }

  /** The decimal digits of `n`, without leading zeros. */
  function Decimal(n: nat): (ds: string)
    ensures |ds| > 0 && AllDigits(ds)
    ensures ds[0] != '0' || n == 0
  {
    if n < 10 then [('0' as int + n) as char]
    else Decimal(n / 10) + [('0' as int + n % 10) as char]
  }

  /** `str(n)` for an integer. */
  function IntToString(n: int): string
  {
    if n < 0 then "-" + Decimal(-n) else Decimal(n)
  }

  lemma {:induction false} DecimalValueOfDecimal(n: nat)
    ensures DecimalValue(Decimal(n)) == n
  {
    if n >= 10 {
      var ds := Decimal(n);
      DecimalValueOfDecimal(n / 10);
      assert ds[..|ds| - 1] == Decimal(n / 10);
    }
  }

  /** `int(str(n)) == n` */
  lemma ParseIntToString(n: int)
    ensures ParseInt(IntToString(n)) == Some(n)
  {
    if n < 0 {
      DecimalValueOfDecimal(-n);
      assert IntToString(n)[1..] == Decimal(-n);
    } else {
      DecimalValueOfDecimal(n);
    }
  }
}
