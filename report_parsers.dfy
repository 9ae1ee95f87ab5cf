/**
 * The cell parsers and the header normalisation of the current financial
 * report reader (backend/scripts/process_report.py, read_and_clean_data).
 * Every parser turns a cell into a number or into a missing value; none fails.
 */
module ReportParsers {
  import opened Wrappers
  import opened Text
  import opened Numbers
  import opened Cells

  // ---------------------------------------------------------------------
  // Header normalisation

  const Degree: char := '\U{B0}'
  const CCedilla: char := '\U{E7}'
  const ATilde: char := '\U{E3}'
  const EAcute: char := '\U{E9}'

  /** Lower-case, strip, spaces to '_', "n°" to "numero", then ç, ã, é to c, a, e. */
  function NormalizeHeader(c: string): string
  {
    Unaccent(Numbered(c))
  }

  predicate LowerFixed(c: char) { LowerChar(c) == c }

  /** The three accent replacements that end the normalisation. */
  function Unaccent(s: string): string
  {
    ReplaceChar(ReplaceChar(ReplaceChar(s, CCedilla, 'c'), ATilde, 'a'), EAcute, 'e')
  }

  /** The normalisation up to the "n°" replacement. */
  function Spaced(c: string): string { ReplaceChar(Strip(Lower(c)), ' ', '_') }

  function Numbered(c: string): string { Replace(Spaced(c), ['n', Degree], "numero") }

  /** A normalised header holds no space, no ç, ã or é, no "n°", no upper-case letter and no whitespace at either end. */
  lemma NormalizeHeaderClean(c: string)
    ensures var r := NormalizeHeader(c);
      ' ' !in r && CCedilla !in r && ATilde !in r && EAcute !in r &&
      !Contains(r, ['n', Degree]) && AllChars(r, LowerFixed) && NoEdgeSpace(r)
  {
    NumberedNoSpace(c);
    UnaccentFacts(Numbered(c));
    NumeroPairFree(Spaced(c));
    NoPairNotContains(NormalizeHeader(c), 'n', Degree);
    NumberedLower(c);
    NumberedEnds(c);
  }

  lemma NumberedNoSpace(c: string)
    ensures ' ' !in Numbered(c)
  {
    ReplaceCharRemoves(Strip(Lower(c)), ' ', '_');
    ReplaceKeepsAbsent(Spaced(c), ['n', Degree], "numero", ' ');
  }

  lemma NumberedLower(c: string)
    ensures AllChars(Numbered(c), LowerFixed)
  {
    SpacedLower(c);
    assert AllChars("numero", LowerFixed);
    ReplaceKeepsChars(Spaced(c), ['n', Degree], "numero", LowerFixed);
  }

  lemma SpacedLower(c: string)
    ensures AllChars(Spaced(c), LowerFixed)
  {
    LowerAllFixed(c);
    StripKeepsChars(Lower(c), LowerFixed);
    ReplaceCharKeepsChars(Strip(Lower(c)), ' ', '_', LowerFixed);
  }

  lemma LowerAllFixed(c: string)
    ensures AllChars(Lower(c), LowerFixed)
  {
  }

  lemma NumberedEnds(c: string)
    ensures NoEdgeSpace(Numbered(c))
  {
    SpacedEnds(c);
    ReplaceKeepsEdges(Spaced(c), ['n', Degree], "numero");
  }

  lemma SpacedEnds(c: string)
    ensures NoEdgeSpace(Spaced(c))
  {
    var st := Strip(Lower(c));
    assert NoEdgeSpace(st);
  }

  /** The accent replacements remove ç, ã, é, add no space, no "n°" and no upper-case letter, and keep clean ends. */
  lemma UnaccentFacts(s: string)
    ensures var r := Unaccent(s);
      CCedilla !in r && ATilde !in r && EAcute !in r &&
      (' ' !in s ==> ' ' !in r) &&
      (NoPair(s, 'n', Degree) ==> NoPair(r, 'n', Degree)) &&
      (AllChars(s, LowerFixed) ==> AllChars(r, LowerFixed)) &&
      (NoEdgeSpace(s) ==> NoEdgeSpace(r))
  {
    var r1 := ReplaceChar(s, CCedilla, 'c');
    var r2 := ReplaceChar(r1, ATilde, 'a');
    AccentStep(s, CCedilla, 'c');
    AccentStep(r1, ATilde, 'a');
    AccentStep(r2, EAcute, 'e');
    StaysAbsent(r1, ATilde, 'a', CCedilla);
    StaysAbsent(r2, EAcute, 'e', CCedilla);
    StaysAbsent(r2, EAcute, 'e', ATilde);
  }

  /** One accent replacement: a plain lower-case letter other than 'n' for an accented one. */
  lemma AccentStep(s: string, a: char, b: char)
    requires a != b && b != ' ' && b != 'n' && b != Degree && LowerFixed(b) && !IsSpace(b)
    ensures var r := ReplaceChar(s, a, b);
      a !in r &&
      (' ' !in s ==> ' ' !in r) &&
      (NoPair(s, 'n', Degree) ==> NoPair(r, 'n', Degree)) &&
      (AllChars(s, LowerFixed) ==> AllChars(r, LowerFixed)) &&
      (NoEdgeSpace(s) ==> NoEdgeSpace(r))
  {
    ReplaceCharRemoves(s, a, b);
    if ' ' !in s {
      StaysAbsent(s, a, b, ' ');
    }
    if NoPair(s, 'n', Degree) {
      AccentNoPair(s, a, b);
    }
    if AllChars(s, LowerFixed) {
      ReplaceCharKeepsChars(s, a, b, LowerFixed);
    }
    if NoEdgeSpace(s) {
      AccentEnds(s, a, b);
    }
  }

  lemma AccentNoPair(s: string, a: char, b: char)
    requires b != 'n' && b != Degree && NoPair(s, 'n', Degree)
    ensures NoPair(ReplaceChar(s, a, b), 'n', Degree)
  {
    var r := ReplaceChar(s, a, b);
    forall i | 0 <= i < |r| - 1 ensures !(r[i] == 'n' && r[i + 1] == Degree) {
      assert r[i] == 'n' ==> s[i] == 'n';
    }
  }

  lemma AccentEnds(s: string, a: char, b: char)
    requires !IsSpace(b) && NoEdgeSpace(s)
    ensures NoEdgeSpace(ReplaceChar(s, a, b))
  {
    var r := ReplaceChar(s, a, b);
    if r != [] {
      var first, last := r[0], r[|r| - 1];
      assert first == b || first == s[0];
      assert last == b || last == s[|s| - 1];
    }
  }

  lemma StaysAbsent(s: string, a: char, b: char, x: char)
    requires x != b && x !in s
    ensures x !in ReplaceChar(s, a, b)
  {
    var r := ReplaceChar(s, a, b);
    forall i | 0 <= i < |r| ensures r[i] != x { }
  }

  /** After replacing "n°" with "numero", no "n°" is left, and changing c, a, e for ç, ã, é creates none. */
  lemma {:induction false} NumeroPairFree(s: string)
    ensures NoPair(Replace(s, ['n', Degree], "numero"), 'n', Degree)
    decreases |s|
  {
    var pat := ['n', Degree];
    if |s| < |pat| {
    } else if s[..|pat|] == pat {
      var t := Replace(s[|pat|..], pat, "numero");
      NumeroPairFree(s[|pat|..]);
      var r := "numero" + t;
      forall i | 0 <= i < |r| - 1 ensures !(r[i] == 'n' && r[i + 1] == Degree) {
        if i >= 6 { assert r[i] == t[i - 6] && r[i + 1] == t[i - 5]; }
      }
    } else {
      var t := Replace(s[1..], pat, "numero");
      NumeroPairFree(s[1..]);
      var r := [s[0]] + t;
      if s[0] == 'n' && |s[1..]| > 0 {
        ReplaceHead(s[1..], pat, "numero");
      }
      forall i | 0 <= i < |r| - 1 ensures !(r[i] == 'n' && r[i + 1] == Degree) {
        if i >= 1 { assert r[i] == t[i - 1] && r[i + 1] == t[i]; }
      }
    }
  }

  /** Normalising a normalised header changes nothing. */
  lemma NormalizeHeaderIdempotent(c: string)
    ensures NormalizeHeader(NormalizeHeader(c)) == NormalizeHeader(c)
  {
    var r := NormalizeHeader(c);
    NormalizeHeaderClean(c);
    assert Lower(r) == r;
    StripClean(r);
    ReplaceCharAbsent(r, ' ', '_');
    ReplaceAbsent(r, ['n', Degree], "numero");
    ReplaceCharAbsent(r, CCedilla, 'c');
    ReplaceCharAbsent(r, ATilde, 'a');
    ReplaceCharAbsent(r, EAcute, 'e');
  }

  /** The financial report must have at least one of these columns after normalisation. */
  const RequiredAny: seq<string> := ["numero_pedido", "pedido_id_completo", "valor_dos_itens", "total_do_pedido"]

  /** The sheet looks like a financial report: some column of RequiredAny is present. */
  predicate LooksFinancial(columns: seq<string>)
  {
    exists i | 0 <= i < |RequiredAny| :: RequiredAny[i] in columns
  }

  // ---------------------------------------------------------------------
  // Money: parse_as_decimal

  /** A parse result as a cell: the number, or None where float() raised. */
  function FloatCell(r: Option<Decimal>): (c: Cell)
    ensures r.None? <==> c.Null?
    ensures r.Some? ==> c.Num? && c.n == r.value
  {
    match r
    case None => Null
    case Some(d) => Num(d)
  }

  /** 'R$' removed, stripped, every '.' deleted and ',' turned into '.'. */
  function BrazilianText(s: string): string
  {
    ReplaceChar(DeleteChar(Strip(Replace(s, "R$", "")), '.'), ',', '.')
  }

  /**
   * parse_as_decimal: missing cells give None, numbers pass through, strings
   * are read the Brazilian way, and anything that float() refuses gives None.
   */
  function ParseAsDecimal(v: Cell): (r: Cell)
    ensures r.Null? || (r.Num? && Canonical(r.n))
    ensures IsMissing(v) ==> r.Null?
    ensures v.Num? ==> r == NumCell(v.n)
  {
    match v
    case Num(d) => NumCell(d)
    case Str(s) => FloatCell(ParseFloat(BrazilianText(s)))
    case _ => Null
  }

  /** Text of digits, '.' and ',' only. */
  predicate AmountChars(s: string) { forall i | 0 <= i < |s| :: IsDigit(s[i]) || s[i] == '.' || s[i] == ',' }

  /** An amount text with no 'R$' and no whitespace at the ends passes the first two cleaning steps unchanged. */
  lemma AmountPrefix(s: string)
    requires AmountChars(s) && |s| > 0 && IsDigit(s[0]) && IsDigit(s[|s| - 1])
    ensures Strip(Replace(s, "R$", "")) == s
  {
    if Contains(s, "R$") {
      ContainsFirst(s, "R$");
    }
    ReplaceAbsent(s, "R$", "");
    StripClean(s);
  }

  /** Digits around a comma read as one number with as many decimals as follow the comma ('126,00' is 126). */
  lemma CommaAmount(ab: string, c: string)
    requires AllDigits(ab) && AllDigits(c) && |ab| > 0 && |c| > 0
    ensures AllDigits(ab + c)
    ensures ParseAsDecimal(Str(ab + "," + c)) == NumCell(Decimal(DigitsValue(ab + c), |c|))
  {
    CommaText(ab, c);
    PointRead(ab, c);
  }

  lemma CommaText(ab: string, c: string)
    requires AllDigits(ab) && AllDigits(c) && |ab| > 0 && |c| > 0
    ensures BrazilianText(ab + "," + c) == ab + "." + c
  {
    var s := ab + "," + c;
    CommaAmountChars(ab, c);
    AmountPrefix(s);
    DigitsNoChar(ab, '.');
    DigitsNoChar(c, '.');
    DeleteCharAbsent(s, '.');
    CommaReplaced(ab, c);
  }

  lemma CommaAmountChars(ab: string, c: string)
    requires AllDigits(ab) && AllDigits(c)
    ensures AmountChars(ab + "," + c)
  {
    var s := ab + "," + c;
    forall i | 0 <= i < |s| ensures IsDigit(s[i]) || s[i] == '.' || s[i] == ',' {
      if i < |ab| { assert s[i] == ab[i]; }
      else if i > |ab| { assert s[i] == c[i - |ab| - 1]; }
    }
  }

  lemma CommaReplaced(ab: string, c: string)
    requires AllDigits(ab) && AllDigits(c)
    ensures ReplaceChar(ab + "," + c, ',', '.') == ab + "." + c
  {
    DigitsNoChar(ab, ',');
    DigitsNoChar(c, ',');
    ReplaceCharAbsent(ab, ',', '.');
    ReplaceCharAbsent(c, ',', '.');
  }

  /** "ab.c" with digits on both sides of the point parses to the digits with |c| decimals. */
  lemma PointRead(ab: string, c: string)
    requires AllDigits(ab) && AllDigits(c) && |ab| > 0 && |c| > 0
    ensures AllDigits(ab + c)
    ensures FloatCell(ParseFloat(ab + "." + c)) == NumCell(Decimal(DigitsValue(ab + c), |c|))
  {
    PointLiteral(ab, c);
    ParsesDigitsFirst(ab + "." + c);
  }

  /**
   * Dots are thousands separators: a + "." + b + "," + c reads as the digits
   * a b c with |c| decimals ('1.234,56' is 1234.56).
   */
  lemma BrazilianAmount(a: string, b: string, c: string)
    requires AllDigits(a) && AllDigits(b) && AllDigits(c) && |a| > 0 && |c| > 0
    ensures AllDigits(a + b + c)
    ensures ParseAsDecimal(Str(a + "." + b + "," + c)) == NumCell(Decimal(DigitsValue(a + b + c), |c|))
  {
    AllDigitsConcat(a, b);
    DottedText(a, b, c);
    PointRead(a + b, c);
  }

  lemma DottedText(a: string, b: string, c: string)
    requires AllDigits(a) && AllDigits(b) && AllDigits(c) && |a| > 0 && |c| > 0
    ensures BrazilianText(a + "." + b + "," + c) == a + b + "." + c
  {
    var s := a + "." + b + "," + c;
    DottedAmountChars(a, b, c);
    AmountPrefix(s);
    DottedDeleted(a, b, c);
    AllDigitsConcat(a, b);
    CommaReplaced(a + b, c);
  }

  lemma DottedAmountChars(a: string, b: string, c: string)
    requires AllDigits(a) && AllDigits(b) && AllDigits(c)
    ensures AmountChars(a + "." + b + "," + c)
  {
    var s := a + "." + b + "," + c;
    forall i | 0 <= i < |s| ensures IsDigit(s[i]) || s[i] == '.' || s[i] == ',' {
      if i < |a| { assert s[i] == a[i]; }
      else if i == |a| { }
      else if i < |a| + 1 + |b| { assert s[i] == b[i - |a| - 1]; }
      else if i == |a| + 1 + |b| { }
      else { assert s[i] == c[i - |a| - |b| - 2]; }
    }
  }

  /** A whole amount written with ",00" reads as that whole number. */
  lemma WholeBrazilianAmount(n: nat)
    ensures ParseAsDecimal(Str(NatStr(n) + ",00")) == Num(Decimal(n, 0))
  {
    var ab := NatStr(n);
    assert ParseAsDecimal(Str(ab + ",00")) == NumCell(Decimal(n * 100, 2)) by {
      assert ab + ",00" == ab + "," + "00";
      CommaAmount(ab, "00");
      HundredfoldDigits(n);
    }
    NormalizeTimesHundred(n);
  }

  lemma HundredfoldDigits(n: nat)
    ensures AllDigits(NatStr(n) + "00") && DigitsValue(NatStr(n) + "00") == n * 100
  {
    DigitsValueAppend(NatStr(n), "00");
    NatStrValue(n);
    assert DigitsValue("00") == 0 && Pow10(2) == 100;
  }

  // ---------------------------------------------------------------------
  // Order totals: parse_total_do_pedido

  /** Length of the last '.'-separated segment (len(s.split('.')[-1])). */
  function LastSegmentLength(s: string): nat
  {
    var parts := Split(s, '.');
    |parts[|parts| - 1]|
  }

  /**
   * parse_total_do_pedido on the text str(value): 'R$' is removed and the
   * text stripped, then read by TotalOfCleaned.
   */
  function ParseTotalText(raw: string): (r: Cell)
    ensures r.Null? || (r.Num? && Canonical(r.n))
  {
    TotalOfCleaned(Strip(Replace(raw, "R$", "")))
  }

  /**
   * The cases of parse_total_do_pedido on cleaned text: a comma means
   * Brazilian notation; otherwise a last '.'-segment of two characters means
   * a dot decimal; otherwise a whole number above 99 in absolute value is
   * taken as cents and divided by 100.  Anything float() refuses gives None.
   */
  function TotalOfCleaned(s: string): (r: Cell)
    ensures r.Null? || (r.Num? && Canonical(r.n))
  {
    if ',' in s then FloatCell(ParseFloat(ReplaceChar(DeleteChar(s, '.'), ',', '.')))
    else if '.' in s && LastSegmentLength(s) == 2 then FloatCell(ParseFloat(s))
    else
      match ParseFloat(s)
      case None => Null
      case Some(x) => if IsIntegral(x) && AbsAbove(x, 99) then NumCell(Div100(x)) else Num(x)
  }

  /** parse_total_do_pedido: missing cells give None, anything else is read from its str(). */
  function ParseTotal(v: Cell): (r: Cell)
    ensures r.Null? || (r.Num? && Canonical(r.n))
    ensures IsMissing(v) ==> r.Null?
  {
    if IsMissing(v) then Null else ParseTotalText(Show(v))
  }

  /**
   * total_do_pedido as the reader computes it: parse_as_decimal runs first
   * (the column is in the money columns), then parse_total_do_pedido on the number it produced.
   */
  function TotalAsWritten(v: Cell): Cell
  {
    ParseTotal(ParseAsDecimal(v))
  }

  /** total_do_pedido as its parser's own cases intend: parse_total_do_pedido on the cell as read. */
  function TotalCorrected(v: Cell): Cell
  {
    ParseTotal(v)
  }

  /** The printed form of a number: no 'R', no ',', clean ends, and a last segment as long as its decimals (at least one). */
  lemma PositionalText(n: Decimal)
    ensures var p := Positional(n);
      'R' !in p && ',' !in p && '.' in p && NoEdgeSpace(p) &&
      LastSegmentLength(p) == (if n.scale == 0 then 1 else n.scale)
  {
    var a := Abs(n.mant);
    var head := (if n.mant < 0 then "-" else "") + IntPart(a, n.scale);
    var fp := FracPart(a, n.scale);
    PositionalEdges(n);
    assert Positional(n) == head + "." + fp;
    PointText(head, fp);
  }

  lemma PositionalEdges(n: Decimal)
    ensures var p := Positional(n); |p| > 0 && NoEdgeSpace(p)
    ensures 'R' !in IntPart(Abs(n.mant), n.scale) && ',' !in IntPart(Abs(n.mant), n.scale) && '.' !in IntPart(Abs(n.mant), n.scale)
    ensures var fp := FracPart(Abs(n.mant), n.scale); 'R' !in fp && ',' !in fp && '.' !in fp
    ensures '%' !in Positional(n)
  {
    var a := Abs(n.mant);
    var ip, fp := IntPart(a, n.scale), FracPart(a, n.scale);
    DigitsNoChar(ip, '.');
    DigitsNoChar(fp, '.');
    DigitsNoChar(ip, 'R');
    DigitsNoChar(fp, 'R');
    DigitsNoChar(ip, ',');
    DigitsNoChar(fp, ',');
    DigitsNoChar(ip, '%');
    DigitsNoChar(fp, '%');
    var p := Positional(n);
    assert p == (if n.mant < 0 then "-" else "") + (ip + "." + fp);
    assert p[|p| - 1] == fp[|fp| - 1];
    assert p[0] == '-' || p[0] == ip[0];
  }

  /** Text with exactly one point splits into the parts around it. */
  lemma PointText(head: string, fp: string)
    requires '.' !in head && '.' !in fp && 'R' !in head && 'R' !in fp && ',' !in head && ',' !in fp
    ensures var p := head + "." + fp; 'R' !in p && ',' !in p && '.' in p && LastSegmentLength(p) == |fp|
  {
    var p := head + "." + fp;
    assert p[|head|] == '.';
    assert Join([head, fp], ".") == p;
    SplitJoin([head, fp], '.');
  }

  /** A number's printed form passes the 'R$' removal and the strip unchanged and parses back to the number. */
  lemma ShownNumber(n: Decimal)
    requires Canonical(n)
    ensures Strip(Replace(Show(Num(n)), "R$", "")) == Positional(n)
    ensures ParseFloat(Positional(n)) == Some(n)
  {
    var p := Positional(n);
    assert Show(Num(n)) == FloatStr(n);
    assert FloatStr(n) == p;
    PositionalText(n);
    if Contains(p, "R$") {
      ContainsFirst(p, "R$");
    }
    ReplaceAbsent(p, "R$", "");
    StripClean(p);
    FloatStrRoundTrip(n);
  }

  /**
   * On a number, parse_total_do_pedido keeps it, except that a whole number
   * above 99 in absolute value is divided by 100.
   */
  lemma TotalOfNumber(n: Decimal)
    requires Canonical(n)
    ensures ParseTotal(Num(n)) == if n.scale == 0 && Abs(n.mant) > 99 then NumCell(Div100(n)) else Num(n)
  {
    ShownNumber(n);
    PositionalText(n);
    TotalOfPrinted(Positional(n), n);
  }

  lemma TotalOfPrinted(p: string, n: Decimal)
    requires Canonical(n) && ParseFloat(p) == Some(n)
    requires ',' !in p && '.' in p && LastSegmentLength(p) == (if n.scale == 0 then 1 else n.scale)
    ensures TotalOfCleaned(p) == if n.scale == 0 && Abs(n.mant) > 99 then NumCell(Div100(n)) else Num(n)
  {
    CanonicalIntegral(n);
    assert Pow10(0) == 1;
  }

  /**
   * As written, an order total of a whole number of reais above 99 written
   * the Brazilian way ('126,00') is stored divided by 100 (1.26).
   */
  lemma TotalAsWrittenShrinksWholeAmounts(n: nat)
    requires n > 99
    ensures TotalAsWritten(Str(NatStr(n) + ",00")) == NumCell(Decimal(n, 2))
    ensures TotalAsWritten(Str(NatStr(n) + ",00")) != Num(Decimal(n, 0))
  {
    WholeBrazilianAmount(n);
    TotalOfNumber(Decimal(n, 0));
    assert Div100(Decimal(n, 0)) == Decimal(n, 2);
    HundredthsDiffer(n);
  }

  /** n hundredths is not n when n is not 0. */
  lemma HundredthsDiffer(n: nat)
    requires n > 0
    ensures NumCell(Decimal(n, 2)) != Num(Decimal(n, 0))
  {
    var r := Normalize(Decimal(n, 2));
    NormalizeSameValue(Decimal(n, 2));
    assert Pow10(2) == 100 && Pow10(0) == 1;
    assert r.scale == 0 ==> r.mant * 100 == n;
  }

  /** The corrected order total reads every amount with a comma exactly as parse_as_decimal does. */
  lemma TotalCorrectedReadsCommaAmounts(raw: string)
    requires ',' in Strip(Replace(raw, "R$", ""))
    ensures TotalCorrected(Str(raw)) == ParseAsDecimal(Str(raw))
  {
  }

  /** The corrected order total keeps whole Brazilian amounts ('126,00' is 126). */
  lemma TotalCorrectedWholeAmount(n: nat)
    ensures TotalCorrected(Str(NatStr(n) + ",00")) == Num(Decimal(n, 0))
  {
    var s := NatStr(n) + ",00";
    WholeAmountHasComma(n);
    TotalCorrectedReadsCommaAmounts(s);
    WholeBrazilianAmount(n);
  }

  lemma WholeAmountHasComma(n: nat)
    ensures ',' in Strip(Replace(NatStr(n) + ",00", "R$", ""))
  {
    assert AllDigits("00");
    assert NatStr(n) + ",00" == NatStr(n) + "," + "00";
    CommaKept(NatStr(n), "00");
  }

  /** Digits around a comma keep the comma through the first two cleaning steps. */
  lemma CommaKept(ab: string, c: string)
    requires AllDigits(ab) && AllDigits(c) && |ab| > 0 && |c| > 0
    ensures ',' in Strip(Replace(ab + "," + c, "R$", ""))
  {
    var s := ab + "," + c;
    CommaAmountChars(ab, c);
    assert s[0] == ab[0] && s[|s| - 1] == c[|c| - 1];
    AmountPrefix(s);
    assert s[|ab|] == ',';
  }

  /** The corrected order total still reads a bare whole number above 99 as cents ('12600' is 126). */
  lemma TotalCorrectedCents(n: nat)
    requires n > 99
    ensures TotalCorrected(Str(NatStr(n))) == NumCell(Div100(Decimal(n, 0)))
  {
    var s := NatStr(n);
    DigitsNoChar(s, 'R');
    DigitsNoChar(s, ',');
    DigitsNoChar(s, '.');
    if Contains(s, "R$") {
      ContainsFirst(s, "R$");
    }
    ReplaceAbsent(s, "R$", "");
    StripClean(s);
    ParsesDigitsFirst(s);
    NatStrValue(n);
  }

  // ---------------------------------------------------------------------
  // Percentages: parse_percent

  /** '%' removed, ',' turned into '.', then stripped. */
  function PercentText(s: string): string
  {
    Strip(ReplaceChar(DeleteChar(s, '%'), ',', '.'))
  }

  /**
   * The numeric half of parse_percent: a fraction in (0, 1] is taken as a
   * share and multiplied by 100, and the result is rounded to one decimal.
   */
  function PercentOfNumber(x: Decimal): (r: Decimal)
    ensures r.scale <= 1 && Canonical(r)
  {
    Normalize(Round1(if InUnitInterval(x) then Mul100(x) else x))
  }

  /**
   * parse_percent: text is cleaned and empty text gives None; a number is
   * read as a percentage; NaN stays NaN (float(nan) is nan and rounds to
   * nan); anything else float() refuses gives None.
   */
  function ParsePercent(v: Cell): (r: Cell)
    ensures r.Null? || r.NaN? || (r.Num? && r.n.scale <= 1 && Canonical(r.n))
    ensures r.NaN? <==> v.NaN?
    ensures v.Null? ==> r.Null?
  {
    match v
    case Str(s) =>
      var t := PercentText(s);
      if t == "" then Null
      else (match ParseFloat(t) case None => Null case Some(x) => Num(PercentOfNumber(x)))
    case Num(d) => Num(PercentOfNumber(d))
    case NaN => NaN
    case _ => Null
  }

  /** A share with two or three decimals becomes the percentage it denotes, exactly ('0.11' is 11, '0.115' is 11.5). */
  lemma PercentOfShare(x: Decimal)
    requires InUnitInterval(x) && 2 <= x.scale <= 3
    ensures PercentOfNumber(x) == Normalize(Decimal(x.mant, x.scale - 2))
  {
    var m := x.mant;
    if x.scale == 2 {
      assert Pow10(1) == 10;
      assert (m * 100) % 10 == 0 && (m * 100) / 10 == m * 10;
      assert Round1(Mul100(x)) == Decimal(m * 10, 1);
      NormalizeTimesTen(m);
    } else {
      assert Pow10(2) == 100;
      assert (m * 100) % 100 == 0 && (m * 100) / 100 == m;
      assert Round1(Mul100(x)) == Decimal(m, 1);
    }
  }

  /** A number outside (0, 1] with at most one decimal is its own percentage. */
  lemma PercentOfPercentage(x: Decimal)
    requires !InUnitInterval(x) && x.scale <= 1
    ensures PercentOfNumber(x) == Normalize(x)
  {
  }

  /** Parsing an already parsed percentage changes nothing, unless it lies in (0, 1]. */
  lemma ParsePercentIdempotent(v: Cell)
    requires var r := ParsePercent(v); r.Num? ==> !InUnitInterval(r.n)
    ensures ParsePercent(ParsePercent(v)) == ParsePercent(v)
  {
    var r := ParsePercent(v);
    if r.Num? {
      PercentOfPercentage(r.n);
    }
  }

  /** A percentage given as text reads as the number it prints ('11.5' and 11.5 give the same). */
  lemma PercentShownNumber(n: Decimal)
    requires Canonical(n)
    ensures ParsePercent(Str(FloatStr(n))) == ParsePercent(Num(n))
  {
    assert FloatStr(n) == Positional(n);
    PositionalEdges(n);
    PositionalText(n);
    ShownNumber(n);
    PercentOfPlainText(Positional(n), n);
  }

  /** Text without '%' or ',' and without edge spaces is read by float() as it stands. */
  lemma PercentOfPlainText(p: string, n: Decimal)
    requires '%' !in p && ',' !in p && |p| > 0 && NoEdgeSpace(p) && ParseFloat(p) == Some(n)
    ensures ParsePercent(Str(p)) == Num(PercentOfNumber(n))
  {
    DeleteCharAbsent(p, '%');
    ReplaceCharAbsent(p, ',', '.');
    StripClean(p);
    PercentOfText(p, p, n);
  }

  /** Text that cleans to a literal float() reads is that number's percentage. */
  lemma PercentOfText(s: string, t: string, x: Decimal)
    requires PercentText(s) == t && t != "" && ParseFloat(t) == Some(x)
    ensures ParsePercent(Str(s)) == Num(PercentOfNumber(x))
  {
  }

  /** Brazilian percentage text: digits, a comma, digits and a '%' ('11,5%' is 11.5). */
  lemma PercentCommaText(ab: string, c: string)
    requires AllDigits(ab) && AllDigits(c) && |ab| > 0 && |c| > 0
    ensures AllDigits(ab + c)
    ensures ParsePercent(Str(ab + "," + c + "%")) == Num(PercentOfNumber(Normalize(Decimal(DigitsValue(ab + c), |c|))))
  {
    var t := ab + "." + c;
    PercentCleaned(ab, c);
    PointLiteral(ab, c);
    ParsesDigitsFirst(t);
    PercentOfText(ab + "," + c + "%", t, Normalize(Decimal(DigitsValue(ab + c), |c|)));
  }

  lemma PercentCleaned(ab: string, c: string)
    requires AllDigits(ab) && AllDigits(c) && |ab| > 0 && |c| > 0
    ensures PercentText(ab + "," + c + "%") == ab + "." + c
  {
    var s := ab + "," + c;
    DigitsNoChar(ab, '%');
    DigitsNoChar(c, '%');
    PercentSignDeleted(s);
    CommaReplaced(ab, c);
    var t := ab + "." + c;
    assert t[0] == ab[0] && t[|t| - 1] == c[|c| - 1];
    StripClean(t);
  }

  lemma PercentSignDeleted(s: string)
    requires '%' !in s
    ensures DeleteChar(s + "%", '%') == s
  {
    DeleteCharAppend(s, "%", '%');
    DeleteCharAbsent(s, '%');
    assert DeleteChar("%", '%') == [];
    assert s + [] == s;
  }
}
