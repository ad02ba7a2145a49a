/** The damage formula of a weapon or vehicle: text of the form `X+DSY` or
    `X+NDSY`, giving a flat base and a number of Symmetry dice. */
module Formula {
  import opened Common

  datatype DamageFormula = DamageFormula(base: nat, dsyCount: nat)

  /** The characters matched by `\s` in a JavaScript regular expression. */
  predicate IsSpace(c: char)
  {
    c == '\t' || c == '\n' || c == '\U{000B}' || c == '\U{000C}' || c == '\r' || c == ' '
    || c == '\U{00A0}' || c == '\U{1680}' || ('\U{2000}' <= c <= '\U{200A}')
    || c == '\U{2028}' || c == '\U{2029}' || c == '\U{202F}' || c == '\U{205F}'
    || c == '\U{3000}' || c == '\U{FEFF}'
  }

  /** `replace(/\s+/g, "")`: the text with every white-space character
      removed. A single character is dropped exactly when it is white space,
      text without white space is kept as it is (StripSpaceNoSpace), and (StripSpaceAppend) the
      removal works piece by piece, so every other character stays, in order. */
  function StripSpace(s: string): (r: string)
    ensures |r| <= |s|
    ensures forall i :: 0 <= i < |r| ==> !IsSpace(r[i])
    ensures |s| == 1 ==> r == (if IsSpace(s[0]) then [] else s)
  {
    if s == [] then []
    else if IsSpace(s[0]) then StripSpace(s[1..])
    else [s[0]] + StripSpace(s[1..])
  }

  lemma {:induction false} StripSpaceNoSpace(s: string)
    requires forall i :: 0 <= i < |s| ==> !IsSpace(s[i])
    ensures StripSpace(s) == s
  {
    if s != [] {
      StripSpaceNoSpace(s[1..]);
    }
  }

  /** Upper case of one character for the purpose of matching: ASCII letters,
      and U+017F (long s), whose upper case is 'S'. */
  function UpperChar(c: char): (u: char)
    ensures 'a' <= c <= 'z' ==> u as int == c as int - 32
    ensures !('a' <= c <= 'z') && c != '\U{017F}' ==> u == c
  {
    if 'a' <= c <= 'z' then (c as int - 32) as char
    else if c == '\U{017F}' then 'S'
    else c
  }

  function Upper(s: string): (r: string)
    ensures |r| == |s|
    ensures forall i :: 0 <= i < |s| ==> r[i] == UpperChar(s[i])
  {
    if s == [] then [] else [UpperChar(s[0])] + Upper(s[1..])
  }

  /** The text the pattern is matched against: white space removed, upper-cased. */
  function Normalize(s: string): string
  {
    Upper(StripSpace(s))
  }

  predicate IsDigit(c: char)
  {
    '0' <= c <= '9'
  }

  predicate AllDigits(s: string)
  {
    forall i :: 0 <= i < |s| ==> IsDigit(s[i])
  }

  /** `Number(...)` of a string of decimal digits. */
  function DigitsValue(s: string): nat
    requires AllDigits(s)
  {
    if s == [] then 0
    else 10 * DigitsValue(s[..|s| - 1]) + (s[|s| - 1] as int - '0' as int)
  }

  /** Position of the first '+', or |t| when there is none. */
  function FirstPlus(t: string): (k: nat)
    ensures k <= |t|
    ensures forall i :: 0 <= i < k ==> t[i] != '+'
    ensures k < |t| ==> t[k] == '+'
  {
    if t == [] then 0
    else if t[0] == '+' then 0
    else 1 + FirstPlus(t[1..])
  }

  /** The formula that the two captured groups of `^(\d+)\+(\d*)DSY$` denote:
      an empty count means one die. */
  function Denote(head: string, count: string): DamageFormula
    requires AllDigits(head) && AllDigits(count)
  {
    DamageFormula(DigitsValue(head), if count == [] then 1 else DigitsValue(count))
  }

  /** `t` is exactly `head`, '+', `count`, "DSY", with the groups' shapes. */
  predicate FormulaText(t: string, head: string, count: string)
  {
    |head| > 0 && AllDigits(head) && AllDigits(count) && t == head + "+" + count + "DSY"
  }

  /** Matching of `^(\d+)\+(\d*)DSY$` on already normalised text. Digits are
      never '+', so the first '+' is the one the pattern needs. */
  function Match(t: string): (r: Option<DamageFormula>)
    ensures r.Some? ==> FirstPlus(t) + 4 <= |t|
    ensures r.Some? ==> FormulaText(t, HeadGroup(t), CountGroup(t))
                        && r.value == Denote(HeadGroup(t), CountGroup(t))
  {
    var k := FirstPlus(t);
    if k == |t| then None
    else
      var head := t[..k];
      var rest := t[k + 1..];
      if |head| > 0 && AllDigits(head) && |rest| >= 3 && rest[|rest| - 3..] == "DSY"
         && AllDigits(rest[..|rest| - 3])
      then
        var count := rest[..|rest| - 3];
        assert t == head + "+" + count + "DSY";
        Some(Denote(head, count))
      else None
  }

  /** The text before the first '+': the first group when the pattern matches. */
  function HeadGroup(t: string): string
  {
    t[..FirstPlus(t)]
  }

  /** The text between the first '+' and the last three characters: the
      second group when the pattern matches. */
  function CountGroup(t: string): string
    requires FirstPlus(t) + 4 <= |t|
  {
    t[FirstPlus(t) + 1..|t| - 3]
  }

  /** `_parseDamageFormula`: None stands for the `null` the source returns.
      A formula is only ever read off text of the pattern's shape; that every
      such text is accepted is ParseCharacterization. */
  function Parse(s: string): (r: Option<DamageFormula>)
    ensures s == [] ==> r.None?
    ensures r.Some? ==> FirstPlus(Normalize(s)) + 4 <= |Normalize(s)|
    ensures r.Some? ==> FormulaText(Normalize(s), HeadGroup(Normalize(s)), CountGroup(Normalize(s)))
                        && r.value == Denote(HeadGroup(Normalize(s)), CountGroup(Normalize(s)))
  {
    Match(Normalize(s))
  }

  lemma MatchComplete(head: string, count: string)
    requires |head| > 0 && AllDigits(head) && AllDigits(count)
    ensures Match(head + "+" + count + "DSY") == Some(Denote(head, count))
  {
    var t := head + "+" + count + "DSY";
    assert t[|head|] == '+';
    assert forall i :: 0 <= i < |head| ==> t[i] == head[i];
    var k := FirstPlus(t);
    assert k == |head|;
    assert t[..k] == head;
    var rest := t[k + 1..];
    assert rest == count + "DSY";
    assert rest[|rest| - 3..] == "DSY";
    assert rest[..|rest| - 3] == count;
  }

  /** The parser succeeds exactly on text that, once white space is removed and
      it is upper-cased, reads digits, '+', optional digits, "DSY"; the result
      is what the captured digits denote. */
  lemma ParseCharacterization(s: string, f: DamageFormula)
    ensures Parse(s) == Some(f) <==>
            exists head, count :: FormulaText(Normalize(s), head, count) && f == Denote(head, count)
  {
    var t := Normalize(s);
    if exists head, count :: FormulaText(t, head, count) && f == Denote(head, count) {
      var head, count :| FormulaText(t, head, count) && f == Denote(head, count);
      MatchComplete(head, count);
    }
  }

  /** Decimal text of a natural number, as a template literal prints it. */
  function Decimal(n: nat): (r: string)
    ensures |r| > 0 && AllDigits(r)
  {
    if n < 10 then [('0' as int + n) as char]
    else Decimal(n / 10) + [('0' as int + n % 10) as char]
  }

  lemma {:induction false} DecimalValue(n: nat)
    ensures DigitsValue(Decimal(n)) == n
  {
    var r := Decimal(n);
    if n < 10 {
      assert r[..|r| - 1] == [];
    } else {
      assert r[..|r| - 1] == Decimal(n / 10);
      DecimalValue(n / 10);
    }
  }

  /** The formula as the damage card prints it: `X+DSY` for one die, `X+NDSY` otherwise. */
  function Label(f: DamageFormula): string
  {
    Decimal(f.base) + "+" + (if f.dsyCount == 1 then "" else Decimal(f.dsyCount)) + "DSY"
  }

  lemma UpperNoLower(s: string)
    requires forall i :: 0 <= i < |s| ==> !('a' <= s[i] <= 'z') && s[i] != '\U{017F}'
    ensures Upper(s) == s
  {
  }

  /** Round trip: the printed label of any formula parses back to it. */
  lemma ParseLabel(f: DamageFormula)
    ensures Parse(Label(f)) == Some(f)
  {
    var count := if f.dsyCount == 1 then "" else Decimal(f.dsyCount);
    var t := Label(f);
    assert forall i :: 0 <= i < |t| ==> t[i] == '+' || t[i] == 'D' || t[i] == 'S' || t[i] == 'Y' || IsDigit(t[i]);
    StripSpaceNoSpace(t);
    UpperNoLower(t);
    MatchComplete(Decimal(f.base), count);
    DecimalValue(f.base);
    if f.dsyCount != 1 {
      DecimalValue(f.dsyCount);
    }
  }

  lemma {:induction false} StripSpaceAppend(a: string, b: string)
    ensures StripSpace(a + b) == StripSpace(a) + StripSpace(b)
  {
    if a == [] {
      assert a + b == b;
    } else {
      assert (a + b)[0] == a[0];
      assert (a + b)[1..] == a[1..] + b;
      StripSpaceAppend(a[1..], b);
    }
  }

  /** Text without white space or lower-case letters is its own normal form. */
  lemma NormalizeCanonical(t: string)
    requires forall i :: 0 <= i < |t| ==> !IsSpace(t[i]) && !('a' <= t[i] <= 'z') && t[i] != '\U{017F}'
    ensures Normalize(t) == t
  {
    StripSpaceNoSpace(t);
    UpperNoLower(t);
  }

  lemma NormalizeLowerCase()
    ensures Normalize("0+dsy") == "0+DSY"
  {
    StripSpaceNoSpace("0+dsy");
    var u := Upper("0+dsy");
    assert u[0] == '0' && u[1] == '+' && u[2] == 'D' && u[3] == 'S' && u[4] == 'Y';
  }

  lemma StripSpaced()
    ensures StripSpace("3 + 2DSY") == "3+2DSY"
  {
    var t := "3 + 2DSY";
    assert t[1..] == " + 2DSY" && t[2..] == "+ 2DSY" && t[3..] == " 2DSY" && t[4..] == "2DSY";
    StripSpaceNoSpace("2DSY");
  }

  lemma NormalizeSpaced()
    ensures Normalize("3 + 2DSY") == "3+2DSY"
  {
    StripSpaced();
    var u := Upper("3+2DSY");
    assert u[0] == '3' && u[1] == '+' && u[2] == '2' && u[3] == 'D' && u[4] == 'S' && u[5] == 'Y';
  }

  /** A text whose normal form has the pattern's shape parses to what its
      groups denote. */
  lemma ParseOfShape(s: string, head: string, count: string, f: DamageFormula)
    requires |head| > 0 && AllDigits(head) && AllDigits(count) && f == Denote(head, count)
    requires Normalize(s) == head + "+" + count + "DSY"
    ensures Parse(s) == Some(f)
  {
    MatchComplete(head, count);
  }

  lemma NormalizeZeroCount()
    ensures Normalize("2+0DSY") == "2+0DSY"
  {
    NormalizeCanonical("2+0DSY");
  }

  /** Worked case: an empty count is one die, and case does not matter. */
  lemma ParseEmptyCount()
    ensures Parse("0+dsy") == Some(DamageFormula(0, 1))
  {
    NormalizeLowerCase();
    assert "0+DSY" == "0" + "+" + "" + "DSY";
    assert Denote("0", "") == DamageFormula(0, 1);
    ParseOfShape("0+dsy", "0", "", DamageFormula(0, 1));
  }

  /** Worked case: white space anywhere is ignored. */
  lemma ParseSpaced()
    ensures Parse("3 + 2DSY") == Some(DamageFormula(3, 2))
  {
    NormalizeSpaced();
    assert "3+2DSY" == "3" + "+" + "2" + "DSY";
    assert Denote("3", "2") == DamageFormula(3, 2);
    ParseOfShape("3 + 2DSY", "3", "2", DamageFormula(3, 2));
  }

  /** Worked case: a zero count is accepted and rolls no dice. */
  lemma ParseZeroCount()
    ensures Parse("2+0DSY") == Some(DamageFormula(2, 0))
  {
    NormalizeZeroCount();
    assert "2+0DSY" == "2" + "+" + "0" + "DSY";
    assert Denote("2", "0") == DamageFormula(2, 0);
    ParseOfShape("2+0DSY", "2", "0", DamageFormula(2, 0));
  }

  /** Worked cases: a sign, or a missing suffix, is rejected. */
  lemma ParseRejects()
    ensures Parse("-1+DSY") == None
    ensures Parse("1+D") == None
  {
    NormalizeCanonical("-1+DSY");
    NormalizeCanonical("1+D");
    assert FirstPlus("-1+DSY") == 2;
    assert FirstPlus("1+D") == 1;
  }
}
