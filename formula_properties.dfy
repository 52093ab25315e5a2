/** Properties of the formula scanner: well-formed formulas parse to one record
    per token in input order, scanning composes over token boundaries, any
    unscannable token empties the whole result, and an invalid isotope raises. */
module FormulaProperties {
  import opened Strings
  import opened Formula

  /** A decimal written as digits, optionally a point and more digits;
      `fraction == []` means no point was written. */
  datatype Decimal = Decimal(whole: nat, fraction: string)

  /** A formula token as it is written: symbol, optional `[mass]`, optional
      abundance. */
  datatype Written = Written(symbol: string, isotope: Option<nat>, amount: Option<Decimal>)

  predicate IsSymbolShape(symbol: string) {
    (|symbol| == 1 && IsUpper(symbol[0]))
    || (|symbol| == 2 && IsUpper(symbol[0]) && IsLower(symbol[1]))
  }

  /** A token the grammar accepts: a known symbol with a valid or absent
      isotope, or the deuterium alias without an isotope. */
  predicate WellFormed(table: MassTable, t: Written) {
    && IsSymbolShape(t.symbol)
    && (t.amount.Some? ==> AllDigits(t.amount.value.fraction))
    && (t.symbol == Deuterium ==> t.isotope.None?)
    && (t.symbol != Deuterium ==>
          t.symbol in table && (t.isotope.Some? ==> t.isotope.value in table[t.symbol]))
  }

  function DecimalText(d: Decimal): string {
    NatToString(d.whole) + (if d.fraction == [] then "" else "." + d.fraction)
  }

  function DecimalValue(d: Decimal): real
    requires AllDigits(d.fraction)
  {
    d.whole as real + FractionValue(d.fraction)
  }

  function IsotopeText(isotope: Option<nat>): string {
    match isotope
    case None => ""
    case Some(m) => "[" + NatToString(m) + "]"
  }

  function AmountText(amount: Option<Decimal>): string {
    match amount
    case None => ""
    case Some(d) => DecimalText(d)
  }

  function TokenText(t: Written): string {
    t.symbol + IsotopeText(t.isotope) + AmountText(t.amount)
  }

  function FormulaText(ts: seq<Written>): string
    decreases |ts|
  {
    if ts == [] then "" else TokenText(ts[0]) + FormulaText(ts[1..])
  }

  /** The record a well-formed token stands for: the alias becomes H with mass
      number 2, an absent isotope is 0, an absent abundance is 1.0. */
  function Meaning(t: Written): Element
    requires t.amount.Some? ==> AllDigits(t.amount.value.fraction)
  {
    Element(
      if t.symbol == Deuterium then "H" else t.symbol,
      if t.symbol == Deuterium then DeuteriumMassNo else match t.isotope case None => 0 case Some(m) => m,
      AmountValue(t.amount))
  }

  function Meanings(table: MassTable, ts: seq<Written>): seq<Element>
    requires forall i | 0 <= i < |ts| :: WellFormed(table, ts[i])
    decreases |ts|
  {
    if ts == [] then []
    else
      assert WellFormed(table, ts[0]);
      [Meaning(ts[0])] + Meanings(table, ts[1..])
  }

  /** A character that cannot continue the token before it. */
  predicate Boundary(c: char) {
    !IsDigit(c) && !IsLower(c) && c != '[' && c != '.'
  }

  /** Prepends the records of a scanned prefix to the outcome of the rest. */
  function Prepend(es: seq<Element>, r: Scanned): Scanned {
    match r
    case Elements(more) => Elements(es + more)
    case other => other
  }

  // ---------------------------------------------------------------------------
  // Reading back what was written

  lemma IsotopeOfWritten(m: nat, rest: string)
    ensures ReadIsotope("[" + NatToString(m) + "]" + rest)
            == Explicit(m, |NatToString(m)| + 2)
  {
    var d := NatToString(m);
    var s := "[" + d + "]" + rest;
    assert s[1..] == d + ("]" + rest);
    LeadingDigitsOfNumeral(m, "]" + rest);
    assert s[1 + |d|] == ']';
    assert s[1..|d| + 1] == d;
  }

  lemma DecimalSlices(w: string, f: string, rest: string)
    ensures var s := w + ("." + f + rest);
            && s[..|w|] == w && s[|w|] == '.' && s[|w| + 1..] == f + rest
            && (f + rest)[..|f|] == f
  {
  }

  lemma WholeNumberOfWritten(w: string, rest: string)
    requires w != [] && AllDigits(w)
    requires rest == [] || IsUpper(rest[0])
    ensures ReadAbundance(w + rest) == Number(w, [], |w|)
  {
    var s := w + rest;
    AllDigitsRun(w);
    LeadingDigitsOfAppend(w, rest);
    assert s[..|w|] == w;
  }

  lemma FractionOfWritten(w: string, f: string, rest: string)
    requires w != [] && AllDigits(w) && f != [] && AllDigits(f)
    requires rest == [] || IsUpper(rest[0])
    ensures ReadAbundance(w + ("." + f + rest)) == Number(w, f, |w| + 1 + |f|)
  {
    var tail := "." + f + rest;
    DecimalSlices(w, f, rest);
    AllDigitsRun(w);
    LeadingDigitsOfAppend(w, tail);
    AllDigitsRun(f);
    LeadingDigitsOfAppend(f, rest);
  }

  lemma DecimalOfWritten(d: Decimal, rest: string)
    requires AllDigits(d.fraction)
    requires rest == [] || IsUpper(rest[0])
    ensures ReadAbundance(DecimalText(d) + rest)
            == Number(NatToString(d.whole), d.fraction, |DecimalText(d)|)
    ensures NumberValue(NatToString(d.whole), d.fraction) == DecimalValue(d)
  {
    var w := NatToString(d.whole);
    if d.fraction == [] {
      assert DecimalText(d) + rest == w + rest;
      WholeNumberOfWritten(w, rest);
    } else {
      assert DecimalText(d) + rest == w + ("." + d.fraction + rest);
      FractionOfWritten(w, d.fraction, rest);
    }
  }

  function AmountValue(amount: Option<Decimal>): real
    requires amount.Some? ==> AllDigits(amount.value.fraction)
  {
    if amount.Some? then DecimalValue(amount.value) else 1.0
  }

  lemma AmountOfWritten(symbol: string, massNo: nat, amount: Option<Decimal>, rest: string, used: nat)
    requires used > 0
    requires amount.Some? ==> AllDigits(amount.value.fraction)
    requires rest == [] || IsUpper(rest[0])
    ensures TokenAfter(symbol, massNo, AmountText(amount) + rest, used)
            == Token(Element(symbol, massNo, AmountValue(amount)), used + |AmountText(amount)|)
  {
    if amount.Some? {
      DecimalOfWritten(amount.value, rest);
    } else {
      assert AmountText(amount) + rest == rest;
    }
  }

  /** A symbol shape that is known (or the alias), followed by anything that
      is not a lower-case letter, reads back as exactly that symbol. */
  lemma SymbolAt(table: MassTable, symbol: string, after: string)
    requires IsSymbolShape(symbol) && (symbol == Deuterium || symbol in table)
    requires after == [] || !IsLower(after[0])
    ensures ReadSymbol(table, symbol + after) == |symbol|
    ensures (symbol + after)[..|symbol|] == symbol && (symbol + after)[|symbol|..] == after
  {
    SplitAppend(symbol, after);
    if |symbol| == 2 {
      assert (symbol + after)[..2] == symbol;
    }
  }

  lemma AmountTextStart(amount: Option<Decimal>)
    ensures AmountText(amount) == [] || IsDigit(AmountText(amount)[0])
  {
    if amount.Some? {
      assert AmountText(amount)[0] == NatToString(amount.value.whole)[0];
    }
  }

  /** A known symbol (or the alias) with no isotope: the abundance is read
      right after the symbol, with the alias standing for H with mass number 2. */
  lemma ScanTokenNatural(table: MassTable, symbol: string, after: string)
    requires IsSymbolShape(symbol) && (symbol == Deuterium || symbol in table)
    requires after == [] || (!IsLower(after[0]) && after[0] != '[')
    ensures ScanToken(table, symbol + after)
            == TokenAfter(if symbol == Deuterium then "H" else symbol,
                          if symbol == Deuterium then DeuteriumMassNo else 0, after, |symbol|)
  {
    SymbolAt(table, symbol, after);
  }

  /** A known symbol with a valid bracketed isotope: the abundance is read
      right after the closing bracket. */
  lemma ScanTokenExplicit(table: MassTable, symbol: string, m: nat, tail: string)
    requires IsSymbolShape(symbol) && symbol != Deuterium && symbol in table
    requires m in table[symbol]
    ensures var s := symbol + ("[" + NatToString(m) + "]" + tail);
            && ReadSymbol(table, s) == |symbol| && s[..|symbol|] == symbol
            && ReadIsotope(s[|symbol|..]) == Explicit(m, |NatToString(m)| + 2)
            && s[|symbol| + |NatToString(m)| + 2..] == tail
            && ScanToken(table, s) == TokenAfter(symbol, m, tail, |symbol| + |NatToString(m)| + 2)
  {
    var after := "[" + NatToString(m) + "]" + tail;
    SymbolAt(table, symbol, after);
    IsotopeOfWritten(m, tail);
    DropPastAppend(symbol, after, |NatToString(m)| + 2);
    SplitAppend("[" + NatToString(m) + "]", tail);
  }

  lemma NaturalTokenOfWritten(table: MassTable, symbol: string, amount: Option<Decimal>, rest: string)
    requires IsSymbolShape(symbol) && (symbol == Deuterium || symbol in table)
    requires amount.Some? ==> AllDigits(amount.value.fraction)
    requires rest == [] || IsUpper(rest[0])
    ensures ScanToken(table, symbol + (AmountText(amount) + rest))
            == Token(Element(if symbol == Deuterium then "H" else symbol,
                             if symbol == Deuterium then DeuteriumMassNo else 0,
                             AmountValue(amount)),
                     |symbol| + |AmountText(amount)|)
  {
    var tail := AmountText(amount) + rest;
    AmountTextStart(amount);
    assert tail == [] || IsDigit(tail[0]) || IsUpper(tail[0]);
    ScanTokenNatural(table, symbol, tail);
    AmountOfWritten(if symbol == Deuterium then "H" else symbol,
                    if symbol == Deuterium then DeuteriumMassNo else 0, amount, rest, |symbol|);
  }

  lemma ExplicitTokenOfWritten(table: MassTable, symbol: string, m: nat, amount: Option<Decimal>, rest: string)
    requires IsSymbolShape(symbol) && symbol != Deuterium && symbol in table
    requires m in table[symbol]
    requires amount.Some? ==> AllDigits(amount.value.fraction)
    requires rest == [] || IsUpper(rest[0])
    ensures ScanToken(table, symbol + ("[" + NatToString(m) + "]" + (AmountText(amount) + rest)))
            == Token(Element(symbol, m, AmountValue(amount)),
                     |symbol| + |NatToString(m)| + 2 + |AmountText(amount)|)
  {
    ScanTokenExplicit(table, symbol, m, AmountText(amount) + rest);
    AmountOfWritten(symbol, m, amount, rest, |symbol| + |NatToString(m)| + 2);
  }

  /** One written token, followed by the start of another token or by nothing,
      scans to its meaning and consumes exactly its own text. */
  lemma TokenOfWritten(table: MassTable, t: Written, rest: string)
    requires WellFormed(table, t)
    requires rest == [] || IsUpper(rest[0])
    ensures ScanToken(table, TokenText(t) + rest) == Token(Meaning(t), |TokenText(t)|)
  {
    var tail := AmountText(t.amount) + rest;
    AppendAssoc(t.symbol + IsotopeText(t.isotope), AmountText(t.amount), rest);
    AppendAssoc(t.symbol, IsotopeText(t.isotope), tail);
    if t.isotope.None? {
      AppendEmpty(tail);
      NaturalTokenOfWritten(table, t.symbol, t.amount, rest);
    } else {
      ExplicitTokenOfWritten(table, t.symbol, t.isotope.value, t.amount, rest);
    }
  }

  lemma FormulaTextStart(table: MassTable, ts: seq<Written>)
    requires forall i | 0 <= i < |ts| :: WellFormed(table, ts[i])
    ensures FormulaText(ts) == [] || IsUpper(FormulaText(ts)[0])
  {
    if ts != [] {
      assert FormulaText(ts)[0] == ts[0].symbol[0];
    }
  }

  /** Scanning a sequence of well-formed tokens yields one record per token,
      in input order, with the defaults applied where a part was omitted. */
  lemma {:induction false} ScanWritten(table: MassTable, ts: seq<Written>)
    requires forall i | 0 <= i < |ts| :: WellFormed(table, ts[i])
    ensures Scan(table, FormulaText(ts)) == Elements(Meanings(table, ts))
    decreases |ts|
  {
    if ts != [] {
      var rest := FormulaText(ts[1..]);
      FormulaTextStart(table, ts[1..]);
      TokenOfWritten(table, ts[0], rest);
      SplitAppend(TokenText(ts[0]), rest);
      ScanWritten(table, ts[1..]);
    }
  }

  /** The parser's contract for well-formed formulas: no raise, and exactly the
      records the tokens stand for. */
  lemma ParseWritten(table: MassTable, ts: seq<Written>)
    requires forall i | 0 <= i < |ts| :: WellFormed(table, ts[i])
    ensures ParseFormula(table, FormulaText(ts)) == Parsed(Meanings(table, ts))
  {
    ScanWritten(table, ts);
  }

  // ---------------------------------------------------------------------------
  // Scanning composes over token boundaries

  /** The number of characters an abundance reading consumed. */
  function Consumed(r: Abundance): nat {
    if r.Number? then r.length else 0
  }

  lemma AbundanceLocal(a: string, b: string)
    requires !ReadAbundance(a).BadNumber?
    requires Consumed(ReadAbundance(a)) < |a| || b == [] || Boundary(b[0])
    ensures ReadAbundance(a + b) == ReadAbundance(a)
  {
    var k := LeadingDigits(a);
    LeadingDigitsOfAppend(a, b);
    if k > 0 && k < |a| && a[k] == '.' {
      var f := LeadingDigits(a[k + 1..]);
      DropAppend(a, b, k + 1);
      LeadingDigitsOfAppend(a[k + 1..], b);
      TakeAppend(a, b, k);
      TakeAppend(a[k + 1..], b, f);
    } else if k > 0 {
      TakeAppend(a, b, k);
    }
  }

  lemma IsotopeLocal(a: string, b: string)
    requires a != [] && ReadIsotope(a).Explicit?
    ensures ReadIsotope(a + b) == ReadIsotope(a)
  {
    var k := LeadingDigits(a[1..]);
    DropAppend(a, b, 1);
    LeadingDigitsOfAppend(a[1..], b);
    SliceAppend(a, b, 1, k + 1);
  }

  lemma TokenAfterLocal(symbol: string, massNo: nat, a: string, b: string, used: nat)
    requires used > 0 && TokenAfter(symbol, massNo, a, used).Token?
    requires TokenAfter(symbol, massNo, a, used).length < used + |a| || b == [] || Boundary(b[0])
    ensures TokenAfter(symbol, massNo, a + b, used) == TokenAfter(symbol, massNo, a, used)
  {
    AbundanceLocal(a, b);
  }

  /** A token scans the same however the text after it continues, as long as
      the continuation cannot extend the token. */
  lemma TokenLocal(table: MassTable, s1: string, s2: string)
    requires s1 != [] && ScanToken(table, s1).Token?
    requires ScanToken(table, s1).length < |s1| || s2 == [] || Boundary(s2[0])
    ensures ScanToken(table, s1 + s2) == ScanToken(table, s1)
  {
    var s := s1 + s2;
    var n := ReadSymbol(table, s1);
    TakeAppend(s1, s2, n);
    if |s1| >= 2 {
      TakeAppend(s1, s2, 2);
    }
    assert ReadSymbol(table, s) == n;
    DropAppend(s1, s2, n);
    match ReadIsotope(s1[n..])
    case Explicit(m, len) =>
      IsotopeLocal(s1[n..], s2);
      DropAppend(s1, s2, n + len);
      TokenAfterLocal(s1[..n], m, s1[n + len..], s2, n + len);
    case Natural =>
      assert ReadIsotope(s[n..]) == Natural;
      var alias := s1[..n] == Deuterium;
      TokenAfterLocal(if alias then "H" else s1[..n], if alias then DeuteriumMassNo else 0, s1[n..], s2, n);
  }

  /** One step of the scanner on a text whose first token scans. */
  lemma ScanStep(table: MassTable, s: string)
    requires s != [] && ScanToken(table, s).Token?
    ensures Scan(table, s)
            == Prepend([ScanToken(table, s).element], Scan(table, s[ScanToken(table, s).length..]))
  {
  }

  lemma PrependPrepend(es1: seq<Element>, es2: seq<Element>, r: Scanned)
    ensures Prepend(es1, Prepend(es2, r)) == Prepend(es1 + es2, r)
  {
    if r.Elements? {
      assert es1 + (es2 + r.elements) == (es1 + es2) + r.elements;
    }
  }

  /** Scanning a concatenation whose first part scans cleanly and ends on a
      token boundary: the first part's records come first, then whatever the
      second part gives, and a failure in the second part is the outcome. */
  lemma {:induction false} ScanAppend(table: MassTable, s1: string, s2: string)
    requires Scan(table, s1).Elements?
    requires s2 == [] || Boundary(s2[0])
    ensures Scan(table, s1 + s2) == Prepend(Scan(table, s1).elements, Scan(table, s2))
    decreases |s1|
  {
    if s1 == [] {
      assert s1 + s2 == s2;
      if Scan(table, s2).Elements? {
        assert [] + Scan(table, s2).elements == Scan(table, s2).elements;
      }
    } else {
      var token := ScanToken(table, s1);
      TokenLocal(table, s1, s2);
      ScanStep(table, s1);
      ScanStep(table, s1 + s2);
      DropAppend(s1, s2, token.length);
      ScanAppend(table, s1[token.length..], s2);
      PrependPrepend([token.element], Scan(table, s1[token.length..]).elements, Scan(table, s2));
    }
  }

  /** A token that cannot be scanned anywhere after a cleanly scanned prefix
      empties the whole result: the prefix's records are discarded. */
  lemma UnscannableDiscardsPrefix(table: MassTable, s1: string, s2: string)
    requires Scan(table, s1).Elements?
    requires s2 != [] && Boundary(s2[0])
    requires Scan(table, s2).Unparsable?
    ensures ParseFormula(table, s1 + s2) == Parsed([])
  {
    ScanAppend(table, s1, s2);
  }

  /** An upper-case letter that is neither a known symbol (alone or with the
      next lower-case letter) nor the deuterium alias, anywhere after a cleanly
      scanned prefix, empties the whole result. */
  lemma UnknownSymbolAnywhere(table: MassTable, s1: string, s2: string)
    requires Scan(table, s1).Elements?
    requires s2 != [] && IsUpper(s2[0])
    requires |s2| < 2 || !IsLower(s2[1]) || s2[..2] !in table
    requires s2[..1] != Deuterium && s2[..1] !in table
    ensures ParseFormula(table, s1 + s2) == Parsed([])
  {
    assert ReadSymbol(table, s2) == 0;
    UnscannableDiscardsPrefix(table, s1, s2);
  }

  /** A known symbol followed by a bracketed mass number outside its valid set
      raises, whatever follows. */
  lemma InvalidIsotopeRaises(table: MassTable, symbol: string, m: nat, rest: string)
    requires IsSymbolShape(symbol) && symbol != Deuterium && symbol in table
    requires m !in table[symbol]
    ensures ParseFormula(table, symbol + ("[" + NatToString(m) + "]" + rest))
            == Raises(InvalidIsotope(symbol, m, table[symbol]))
  {
    var after := "[" + NatToString(m) + "]" + rest;
    SymbolAt(table, symbol, after);
    IsotopeOfWritten(m, rest);
  }

  /** The same raise after a cleanly scanned prefix: the first invalid isotope
      decides the outcome and the prefix's records are discarded. */
  lemma InvalidIsotopeAnywhere(table: MassTable, s1: string, symbol: string, m: nat, rest: string)
    requires Scan(table, s1).Elements?
    requires IsSymbolShape(symbol) && symbol != Deuterium && symbol in table
    requires m !in table[symbol]
    ensures ParseFormula(table, s1 + (symbol + ("[" + NatToString(m) + "]" + rest)))
            == Raises(InvalidIsotope(symbol, m, table[symbol]))
  {
    var s2 := symbol + ("[" + NatToString(m) + "]" + rest);
    InvalidIsotopeRaises(table, symbol, m, rest);
    ScanAppend(table, s1, s2);
  }

  /** Digits and a point that no digit follows spoil the token, so the
      whole formula yields no records even after a cleanly scanned prefix. */
  lemma PointWithoutDigitEmpties(table: MassTable, s1: string, symbol: string, w: string, rest: string)
    requires Scan(table, s1).Elements?
    requires IsSymbolShape(symbol) && (symbol == Deuterium || symbol in table)
    requires w != [] && AllDigits(w)
    requires rest == [] || !IsDigit(rest[0])
    ensures ParseFormula(table, s1 + (symbol + (w + ("." + rest)))) == Parsed([])
  {
    var after := w + ("." + rest);
    DecimalSlices(w, [], rest);
    AppendEmpty(rest);
    AllDigitsRun(w);
    LeadingDigitsOfAppend(w, "." + rest);
    assert ReadAbundance(after) == BadNumber;
    ScanTokenNatural(table, symbol, after);
    UnscannableDiscardsPrefix(table, s1, symbol + after);
  }

  /** A formula that does not start with an upper-case letter yields no
      records. */
  lemma LowercaseStartIsEmpty(table: MassTable, s: string)
    requires s != [] && !IsUpper(s[0])
    ensures ParseFormula(table, s) == Parsed([])
  {
  }

  /** An upper-case letter followed by a lower-case one that do not form a
      known symbol yields no records: the one-letter reading leaves the
      lower-case letter unscannable. */
  lemma UnknownPairIsEmpty(table: MassTable, s: string)
    requires |s| >= 2 && IsUpper(s[0]) && IsLower(s[1]) && s[..2] !in table
    ensures ParseFormula(table, s) == Parsed([])
  {
    if ReadSymbol(table, s) == 1 {
      assert ReadIsotope(s[1..]) == Natural;
      assert ReadAbundance(s[1..]) == Omitted;
      assert ScanToken(table, s).Token? && ScanToken(table, s).length == 1;
      assert Scan(table, s[1..]) == Unparsable;
    }
  }

  /** Text made only of upper-case/lower-case letter pairs does not scan when
      its last pair is not a known symbol, whichever earlier pairs are known. */
  lemma {:induction false} UnknownLastPairIsEmpty(table: MassTable, s: string)
    requires |s| >= 2 && |s| % 2 == 0
    requires forall i | 0 <= i < |s| :: if i % 2 == 0 then IsUpper(s[i]) else IsLower(s[i])
    requires s[|s| - 2..] !in table
    ensures Scan(table, s) == Unparsable
    decreases |s|
  {
    if |s| > 2 && s[..2] in table {
      var rest := s[2..];
      assert ReadSymbol(table, s) == 2;
      assert s[2..][0] == s[2];
      assert ReadIsotope(rest) == Natural;
      assert ReadAbundance(rest) == Omitted;
      assert ScanToken(table, s) == Token(Element(s[..2], 0, 1.0), 2);
      forall i | 0 <= i < |rest|
        ensures if i % 2 == 0 then IsUpper(rest[i]) else IsLower(rest[i])
      {
        assert rest[i] == s[i + 2];
      }
      assert rest[|rest| - 2..] == s[|s| - 2..];
      UnknownLastPairIsEmpty(table, rest);
    } else {
      if |s| == 2 {
        assert s[..2] == s[|s| - 2..];
      }
      assert ReadSymbol(table, s) < 2;
      if ReadSymbol(table, s) == 1 {
        assert ReadIsotope(s[1..]) == Natural;
        assert ReadAbundance(s[1..]) == Omitted;
        assert ScanToken(table, s).Token? && ScanToken(table, s).length == 1;
        assert ReadSymbol(table, s[1..]) == 0;
        assert Scan(table, s[1..]) == Unparsable;
      }
    }
  }

  // ---------------------------------------------------------------------------
  // Every record the scanner produces is valid

  /** A record names a known element with its natural abundance (mass number 0)
      or one of its valid isotopes, or is hydrogen-2 from the alias; its
      abundance is never negative. */
  predicate RecordValid(table: MassTable, e: Element) {
    && e.abundance >= 0.0
    && ((e.atomicSymbol == "H" && e.massNo == DeuteriumMassNo)
        || (e.atomicSymbol in table && (e.massNo == 0 || (e.massNo >= 0 && e.massNo as nat in table[e.atomicSymbol]))))
  }

  lemma TokenRecordValid(table: MassTable, s: string)
    requires s != [] && ScanToken(table, s).Token?
    ensures RecordValid(table, ScanToken(table, s).element)
  {
  }

  lemma {:induction false} ScanRecordsValid(table: MassTable, s: string)
    requires Scan(table, s).Elements?
    ensures forall i | 0 <= i < |Scan(table, s).elements| :: RecordValid(table, Scan(table, s).elements[i])
    decreases |s|
  {
    if s != [] {
      var token := ScanToken(table, s);
      TokenRecordValid(table, s);
      ScanStep(table, s);
      ScanRecordsValid(table, s[token.length..]);
    }
  }

  /** Whatever `Component.parse` stores is valid against the table. */
  lemma ParseRecordsValid(table: MassTable, formula: string)
    requires ParseFormula(table, formula).Parsed?
    ensures forall i | 0 <= i < |ParseFormula(table, formula).elements| ::
              RecordValid(table, ParseFormula(table, formula).elements[i])
  {
    if Scan(table, formula).Elements? {
      ScanRecordsValid(table, formula);
    }
  }
}
