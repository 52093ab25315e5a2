/** The chemical-formula parser behind `Component.parse`: a hand-written,
    left-to-right scanner that turns a formula such as "H[3]12.0C[13]6.5" into an
    ordered sequence of element records, validated against the element/isotope
    reference table. Failure has two tiers: text that cannot be scanned gives an
    empty result, while a known symbol with an isotope outside its valid set
    raises. */
module Formula {
  import opened Strings

  /** One parsed token: symbol, mass number (0 = natural abundance) and
      stoichiometric abundance. */
  datatype Element = Element(atomicSymbol: string, massNo: int, abundance: real)

  /** The reference table: each known symbol with its valid mass numbers,
      0 (natural) first and then the isotopes in ascending order. */
  type MassTable = map<string, seq<nat>>

  /** The symbol accepted as an alias for hydrogen-2. */
  const Deuterium: string := "D"
  const DeuteriumMassNo: nat := 2

  /** The raised error: a known symbol with a mass number outside its valid set. */
  datatype IsotopeError = InvalidIsotope(symbol: string, massNo: nat, valid: seq<nat>)

  /** What a parse shows its caller: the records (possibly none) or a raise. */
  datatype Outcome = Parsed(elements: seq<Element>) | Raises(error: IsotopeError)

  /** The scanner's three ways to end. */
  datatype Scanned = Elements(elements: seq<Element>) | Unparsable | Raised(error: IsotopeError)

  /** The result of scanning one token at the head of the text. */
  datatype Lexed = Token(element: Element, length: nat) | Unrecognised | Invalid(error: IsotopeError)

  datatype Isotope = Natural | Explicit(massNo: nat, length: nat) | Malformed

  /** An abundance as written: omitted, digits with an optional fraction, or
      a point with no digit after it. */
  datatype Abundance = Omitted | Number(whole: string, fraction: string, length: nat) | BadNumber

  /** The value of the digits after a decimal point. */
  function FractionValue(d: string): real
    requires AllDigits(d)
    decreases |d|
  {
    if d == [] then 0.0 else (DigitValue(d[0]) as real + FractionValue(d[1..])) / 10.0
  }

  /** The length of the element symbol at the head of `s`, or 0 when there is
      none: the two-letter reading wins when it is a known symbol, otherwise one
      upper-case letter that is a known symbol or the deuterium alias. */
  function ReadSymbol(table: MassTable, s: string): (n: nat)
    ensures n <= 2 && n <= |s|
    ensures n > 0 ==> IsUpper(s[0]) && (s[..n] == Deuterium || s[..n] in table)
    ensures n == 2 <==> 2 <= |s| && IsUpper(s[0]) && IsLower(s[1]) && s[..2] in table
    ensures n == 0 <==> s == [] || !IsUpper(s[0])
                        || ((|s| < 2 || !IsLower(s[1]) || s[..2] !in table)
                            && s[..1] != Deuterium && s[..1] !in table)
  {
    if 2 <= |s| && IsUpper(s[0]) && IsLower(s[1]) && s[..2] in table then 2
    else if 1 <= |s| && IsUpper(s[0]) && (s[..1] == Deuterium || s[..1] in table) then 1
    else 0
  }

  /** An optional isotope specifier `[digits]` at the head of `s`: absent, a
      bracketed run of at least one digit, or anything else after `[`. */
  function ReadIsotope(s: string): (r: Isotope)
    ensures r.Natural? <==> s == [] || s[0] != '['
    ensures r.Explicit? ==> 3 <= r.length <= |s| && s[0] == '[' && s[r.length - 1] == ']'
                            && AllDigits(s[1..r.length - 1])
                            && r.massNo == DigitsValue(s[1..r.length - 1])
    ensures forall j | 2 <= j < |s| && s[0] == '[' && AllDigits(s[1..j]) && s[j] == ']' ::
              r == Explicit(DigitsValue(s[1..j]), j + 1)
  {
    if s == [] || s[0] != '[' then Natural
    else
      var k := LeadingDigits(s[1..]);
      LeadingDigitsUnique(s[1..]);
      assert forall j | 2 <= j < |s| :: s[1..][..j - 1] == s[1..j] && s[1..][j - 1] == s[j];
      if k == 0 || 1 + k >= |s| || s[1 + k] != ']' then Malformed
      else
        assert s[1..k + 1] == s[1..][..k];
        Explicit(DigitsValue(s[1..k + 1]), k + 2)
  }

  /** An optional abundance at the head of `s`: the longest run of digits,
      optionally a point and the longest run of digits after it. A point that
      no digit follows spoils the whole formula. */
  function ReadAbundance(s: string): (r: Abundance)
    ensures r.Omitted? <==> s == [] || !IsDigit(s[0])
    ensures r.Number? ==> && r.whole != [] && AllDigits(r.whole) && AllDigits(r.fraction)
                          && r.length == |r.whole| + (if r.fraction == [] then 0 else 1 + |r.fraction|)
                          && r.length <= |s|
    ensures r.Number? ==> && r.whole == s[..|r.whole|]
                          && (r.length == |s| || !IsDigit(s[r.length]))
    ensures r.Number? && r.fraction == [] ==> |r.whole| == |s| || s[|r.whole|] != '.'
    ensures r.Number? && r.fraction != [] ==> s[|r.whole|] == '.' && r.fraction == s[|r.whole| + 1..r.length]
    ensures r.BadNumber? <==> exists k: nat | 0 < k && k + 1 <= |s| ::
                                AllDigits(s[..k]) && s[k] == '.' && (k + 1 == |s| || !IsDigit(s[k + 1]))
  {
    var k := LeadingDigits(s);
    LeadingDigitsUnique(s);
    if k == 0 then Omitted
    else if k < |s| && s[k] == '.' then
      var f := LeadingDigits(s[k + 1..]);
      if f == 0 then BadNumber
      else
        assert s[k + 1..][..f] == s[k + 1..k + 1 + f];
        assert k + 1 + f < |s| ==> s[k + 1..][f] == s[k + 1 + f];
        Number(s[..k], s[k + 1..][..f], k + 1 + f)
    else Number(s[..k], [], k)
  }

  /** The value of a decimal written as `whole` digits and `fraction` digits. */
  function NumberValue(whole: string, fraction: string): (v: real)
    requires AllDigits(whole) && AllDigits(fraction)
    ensures v >= 0.0
  {
    FractionValueBounds(fraction);
    DigitsValue(whole) as real + FractionValue(fraction)
  }

  lemma {:induction false} FractionValueBounds(d: string)
    requires AllDigits(d)
    ensures 0.0 <= FractionValue(d) < 1.0
    decreases |d|
  {
    if d != [] {
      FractionValueBounds(d[1..]);
    }
  }

  /** Scans one token at the head of a non-empty text. */
  function ScanToken(table: MassTable, s: string): (r: Lexed)
    requires s != []
    ensures r.Token? ==> 0 < r.length <= |s|
  {
    var n := ReadSymbol(table, s);
    if n == 0 then Unrecognised
    else
      var symbol := s[..n];
      var alias := symbol == Deuterium;
      match ReadIsotope(s[n..])
      case Malformed => Unrecognised
      case Explicit(m, len) =>
        if alias then Unrecognised
        else if m !in table[symbol] then Invalid(InvalidIsotope(symbol, m, table[symbol]))
        else TokenAfter(symbol, m, s[n + len..], n + len)
      case Natural =>
        if alias then TokenAfter("H", DeuteriumMassNo, s[n..], n)
        else TokenAfter(symbol, 0, s[n..], n)
  }

  /** Completes a token whose symbol and mass number are read, `used`
      characters in, with the abundance at the head of `rest`. */
  function TokenAfter(symbol: string, massNo: nat, rest: string, used: nat): (r: Lexed)
    requires used > 0
    ensures r.Token? ==> used <= r.length <= used + |rest|
    ensures !r.Invalid?
  {
    match ReadAbundance(rest)
    case BadNumber => Unrecognised
    case Omitted => Token(Element(symbol, massNo, 1.0), used)
    case Number(whole, fraction, len) => Token(Element(symbol, massNo, NumberValue(whole, fraction)), used + len)
  }

  /** The scanner: tokens left to right, stopping at the first failure. */
  function Scan(table: MassTable, s: string): (r: Scanned)
    ensures r.Elements? ==> |r.elements| <= |s| && (s != [] ==> r.elements != [])
    decreases |s|
  {
    if s == [] then Elements([])
    else
      match ScanToken(table, s)
      case Unrecognised => Unparsable
      case Invalid(e) => Raised(e)
      case Token(e, n) =>
        match Scan(table, s[n..])
        case Elements(es) => Elements([e] + es)
        case other => other
  }

  /** What `Component.parse` shows: text that does not scan gives no records,
      an invalid isotope raises. */
  function ParseFormula(table: MassTable, formula: string): (r: Outcome)
    ensures r.Raises? <==> Scan(table, formula).Raised?
    ensures r.Parsed? && r.elements != [] ==> Scan(table, formula) == Elements(r.elements)
    ensures Scan(table, formula).Elements? ==> r == Parsed(Scan(table, formula).elements)
    ensures Scan(table, formula).Unparsable? ==> r == Parsed([])
    ensures Scan(table, formula).Raised? ==> r == Raises(Scan(table, formula).error)
  {
    match Scan(table, formula)
    case Elements(es) => Parsed(es)
    case Unparsable => Parsed([])
    case Raised(e) => Raises(e)
  }

  /** A formula being parsed: the text and the records the last parse stored. */
  class Component {
    const formula: string
    var elements: seq<Element>

    constructor (formula: string)
      ensures this.formula == formula && elements == []
    {
      this.formula := formula;
      elements := [];
    }

    /** Parses `formula` again from scratch. On success `elements` holds the
        records, on unscannable text it is emptied; a raise is returned as
        `Some(error)` and leaves `elements` as it was. */
    method Parse(table: MassTable) returns (raised: Option<IsotopeError>)
      modifies this`elements
      ensures ParseFormula(table, formula).Parsed? ==>
                raised == None && elements == ParseFormula(table, formula).elements
      ensures ParseFormula(table, formula).Raises? ==>
                raised == Some(ParseFormula(table, formula).error) && elements == old(elements)
    {
      var outcome := ParseFormula(table, formula);
      match outcome {
        case Parsed(es) =>
          elements := es;
          raised := None;
        case Raises(e) =>
          raised := Some(e);
      }
    }
  }

  datatype Option<T> = None | Some(value: T)
}
