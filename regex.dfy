/**
  The three regular expressions the validators hand to `re.fullmatch`, and what matching them means.

  Every pattern used is a concatenation of pieces `atom{n}` where an atom is `\d`, `\s` or one literal
  character, so a pattern matches exactly the strings whose positions, in order, satisfy its atoms.
  The anchors `^` and `$` that some of the source patterns carry change nothing under `fullmatch`:
  the match has to cover the whole string either way. `\d` is the ASCII digits and `\s` the ASCII
  whitespace (see module Python).
 */
module Regex {
  import opened Python

  datatype Atom = Digit | Space | Lit(c: char)

  /** `atom{count}` */
  datatype Piece = Piece(atom: Atom, count: nat)

  predicate AtomMatches(a: Atom, c: char) {
    match a
    case Digit => IsDigit(c)
    case Space => IsSpace(c)
    case Lit(l) => c == l
  }

  /** The pattern `p` matches `s[k..]` completely. */
  predicate MatchFrom(p: seq<Piece>, s: string, k: nat)
    decreases |p|
  {
    if p == [] then k == |s|
    else
      && k + p[0].count <= |s|
      && (forall i :: k <= i < k + p[0].count ==> AtomMatches(p[0].atom, s[i]))
      && MatchFrom(p[1..], s, k + p[0].count)
  }

  /** `re.fullmatch(p, s) is not None` */
  predicate FullMatch(p: seq<Piece>, s: string) {
    MatchFrom(p, s, 0)
  }

  /** Number of characters every match of `p` has. */
  function Width(p: seq<Piece>): nat {
    if p == [] then 0 else p[0].count + Width(p[1..])
  }

  /** A match from position `k` ends at the end of the string, `Width(p)` characters later. */
  lemma {:induction false} MatchFromLength(p: seq<Piece>, s: string, k: nat)
    requires MatchFrom(p, s, k)
    ensures |s| == k + Width(p)
    decreases |p|
  {
    if p != [] {
      MatchFromLength(p[1..], s, k + p[0].count);
    }
  }

  /** A string that fully matches `p` is exactly `Width(p)` characters long. */
  lemma FullMatchLength(p: seq<Piece>, s: string)
    requires FullMatch(p, s)
    ensures |s| == Width(p)
  {
    MatchFromLength(p, s, 0);
  }

  // ------------------------------------------------------------- the patterns

  /** `\d{2}\.\d{2}\.\d{4}` */
  const BirthdayPattern: seq<Piece> :=
    [Piece(Digit, 2), Piece(Lit('.'), 1), Piece(Digit, 2), Piece(Lit('.'), 1), Piece(Digit, 4)]

  /** `\d{4} \d{6} \d{2}\.\d{2}\.\d{4}` when `sep` is `Lit(' ')`, and the same with `\s` for `Space`. */
  function PassportPattern(sep: Atom): seq<Piece> {
    [Piece(Digit, 4), Piece(sep, 1), Piece(Digit, 6), Piece(sep, 1)] + BirthdayPattern
  }

  /** `\+7\(\d{3}\)\d{3}-\d{2}-\d{2}` */
  const PhonePattern: seq<Piece> :=
    [Piece(Lit('+'), 1), Piece(Lit('7'), 1), Piece(Lit('('), 1), Piece(Digit, 3), Piece(Lit(')'), 1),
     Piece(Digit, 3), Piece(Lit('-'), 1), Piece(Digit, 2), Piece(Lit('-'), 1), Piece(Digit, 2)]

  // ------------------------------------------------ the shapes, position by position

  predicate DigitsIn(s: string, lo: nat, hi: nat)
    requires lo <= hi <= |s|
  {
    forall i :: lo <= i < hi ==> IsDigit(s[i])
  }

  /** `DD.MM.YYYY` starting at position `k` of `s`, reaching its end. */
  predicate IsDateAt(s: string, k: nat) {
    && |s| == k + 10
    && DigitsIn(s, k, k + 2) && s[k + 2] == '.'
    && DigitsIn(s, k + 3, k + 5) && s[k + 5] == '.'
    && DigitsIn(s, k + 6, k + 10)
  }

  /** Ten characters: two digits, a dot, two digits, a dot, four digits. */
  predicate IsBirthday(s: string) {
    IsDateAt(s, 0)
  }

  /** Twenty-two characters: four digits, a separator, six digits, a separator, then a birthday. */
  predicate IsPassport(s: string, sep: Atom) {
    && |s| == 22
    && DigitsIn(s, 0, 4) && AtomMatches(sep, s[4])
    && DigitsIn(s, 5, 11) && AtomMatches(sep, s[11])
    && IsDateAt(s, 12)
  }

  /** Sixteen characters: `+7(`, three digits, `)`, three digits, `-`, two digits, `-`, two digits. */
  predicate IsPhone(s: string) {
    && |s| == 16
    && s[0] == '+' && s[1] == '7' && s[2] == '('
    && DigitsIn(s, 3, 6) && s[6] == ')'
    && DigitsIn(s, 7, 10) && s[10] == '-'
    && DigitsIn(s, 11, 13) && s[13] == '-'
    && DigitsIn(s, 14, 16)
  }

  /** One literal character at position `k`. */
  lemma MatchLit(p: seq<Piece>, s: string, k: nat, c: char)
    requires p != [] && p[0] == Piece(Lit(c), 1)
    ensures MatchFrom(p, s, k) <==> k < |s| && s[k] == c && MatchFrom(p[1..], s, k + 1)
  {
  }

  /** `n` digits from position `k`. */
  lemma MatchDigits(p: seq<Piece>, s: string, k: nat, n: nat)
    requires p != [] && p[0] == Piece(Digit, n)
    ensures MatchFrom(p, s, k) <==> k + n <= |s| && DigitsIn(s, k, k + n) && MatchFrom(p[1..], s, k + n)
  {
  }

  /** The date tail of the patterns, from any position. */
  lemma {:induction false} DateMatch(s: string, k: nat)
    ensures MatchFrom(BirthdayPattern, s, k) <==> IsDateAt(s, k)
  {
    var p := BirthdayPattern;
    MatchDigits(p, s, k, 2);
    MatchLit(p[1..], s, k + 2, '.');
    MatchDigits(p[2..], s, k + 3, 2);
    MatchLit(p[3..], s, k + 5, '.');
    MatchDigits(p[4..], s, k + 6, 4);
    assert p[1..][1..] == p[2..] && p[2..][1..] == p[3..] && p[3..][1..] == p[4..] && p[4..][1..] == [];
  }

  /** `re.fullmatch(r"\d{2}\.\d{2}\.\d{4}", s)` succeeds exactly on the birthday shape. */
  lemma BirthdayMatch(s: string)
    ensures FullMatch(BirthdayPattern, s) <==> IsBirthday(s)
  {
    DateMatch(s, 0);
  }

  /** The passport regular expression succeeds exactly on the passport shape with that separator. */
  lemma {:induction false} PassportMatch(s: string, sep: Atom)
    ensures FullMatch(PassportPattern(sep), s) <==> IsPassport(s, sep)
  {
    var p := PassportPattern(sep);
    MatchDigits(p, s, 0, 4);
    assert p[1..][0] == Piece(sep, 1);
    assert MatchFrom(p[1..], s, 4) <==> 4 < |s| && AtomMatches(sep, s[4]) && MatchFrom(p[2..], s, 5) by {
      assert p[1..][1..] == p[2..];
    }
    MatchDigits(p[2..], s, 5, 6);
    assert p[3..][0] == Piece(sep, 1);
    assert MatchFrom(p[3..], s, 11) <==> 11 < |s| && AtomMatches(sep, s[11]) && MatchFrom(p[4..], s, 12) by {
      assert p[3..][1..] == p[4..];
    }
    assert p[2..][1..] == p[3..] && p[4..] == BirthdayPattern;
    DateMatch(s, 12);
  }

  /** `re.fullmatch(r"\+7\(\d{3}\)\d{3}-\d{2}-\d{2}", s)` succeeds exactly on the phone shape. */
  lemma {:induction false} PhoneMatch(s: string)
    ensures FullMatch(PhonePattern, s) <==> IsPhone(s)
  {
    var p := PhonePattern;
    MatchLit(p, s, 0, '+');
    MatchLit(p[1..], s, 1, '7');
    MatchLit(p[2..], s, 2, '(');
    MatchDigits(p[3..], s, 3, 3);
    MatchLit(p[4..], s, 6, ')');
    MatchDigits(p[5..], s, 7, 3);
    MatchLit(p[6..], s, 10, '-');
    MatchDigits(p[7..], s, 11, 2);
    MatchLit(p[8..], s, 13, '-');
    MatchDigits(p[9..], s, 14, 2);
    assert p[1..][1..] == p[2..] && p[2..][1..] == p[3..] && p[3..][1..] == p[4..];
    assert p[4..][1..] == p[5..] && p[5..][1..] == p[6..] && p[6..][1..] == p[7..];
    assert p[7..][1..] == p[8..] && p[8..][1..] == p[9..] && p[9..][1..] == [];
  }

  lemma BirthdayWidth()
    ensures Width(BirthdayPattern) == 10
  {
    var b := BirthdayPattern;
    assert b[4..][1..] == [];
    assert Width(b[4..]) == 4;
    assert b[3..][1..] == b[4..];
    assert Width(b[3..]) == 5;
    assert b[2..][1..] == b[3..];
    assert Width(b[2..]) == 7;
    assert b[1..][1..] == b[2..];
    assert Width(b[1..]) == 8;
    assert Width(b) == 10;
  }

  lemma PassportWidth()
    ensures Width(PassportPattern(Lit(' '))) == 22
  {
    BirthdayWidth();
    var q := PassportPattern(Lit(' '));
    assert q[4..] == BirthdayPattern;
    assert q[3..][1..] == q[4..];
    assert Width(q[3..]) == 11;
    assert q[2..][1..] == q[3..];
    assert Width(q[2..]) == 17;
    assert q[1..][1..] == q[2..];
    assert Width(q[1..]) == 18;
  }

  lemma PhoneWidth()
    ensures Width(PhonePattern) == 16
  {
    var f := PhonePattern;
    assert f[9..][1..] == [];
    assert Width(f[9..]) == 2;
    assert f[8..][1..] == f[9..];
    assert Width(f[8..]) == 3;
    assert f[7..][1..] == f[8..];
    assert Width(f[7..]) == 5;
    assert f[6..][1..] == f[7..];
    assert Width(f[6..]) == 6;
    assert f[5..][1..] == f[6..];
    assert Width(f[5..]) == 9;
    assert f[4..][1..] == f[5..];
    assert Width(f[4..]) == 10;
    assert f[3..][1..] == f[4..];
    assert Width(f[3..]) == 13;
    assert f[2..][1..] == f[3..];
    assert Width(f[2..]) == 14;
    assert f[1..][1..] == f[2..];
    assert Width(f[1..]) == 15;
    assert Width(f) == 16;
  }

  /** The patterns pin down the lengths the solution.py validators also test. */
  lemma PatternWidths()
    ensures Width(BirthdayPattern) == 10
    ensures Width(PassportPattern(Lit(' '))) == 22
    ensures Width(PhonePattern) == 16
  {
    BirthdayWidth();
    PassportWidth();
    PhoneWidth();
  }
}
