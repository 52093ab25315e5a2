/** The formulas the parser's tests use, checked against the model for every
    reference table that knows the symbols involved (and, for the failing
    ones, does not know the offending symbol or isotope). */
module FormulaExamples {
  import opened Strings
  import opened Formula
  import opened FormulaProperties

  /** A formula written from well-formed tokens parses to their records. */
  lemma ParsesAs(table: MassTable, ts: seq<Written>, text: string)
    requires forall i | 0 <= i < |ts| :: WellFormed(table, ts[i])
    requires FormulaText(ts) == text
    ensures ParseFormula(table, text) == Parsed(Meanings(table, ts))
  {
    ParseWritten(table, ts);
  }

  /** "H2O": hydrogen with abundance 2 and oxygen with the default abundance,
      both with the default mass number. */
  lemma Water(table: MassTable)
    requires "H" in table && "O" in table
    ensures ParseFormula(table, "H2O") == Parsed([Element("H", 0, 2.0), Element("O", 0, 1.0)])
  {
    var ts := [Written("H", None, Some(Decimal(2, ""))), Written("O", None, None)];
    WaterText("H", ts);
    assert "H" + "2O" == "H2O";
    WaterMeanings(table, ts);
    ParsesAs(table, ts, "H2O");
  }

  lemma WaterMeanings(table: MassTable, ts: seq<Written>)
    requires ts == [Written("H", None, Some(Decimal(2, ""))), Written("O", None, None)]
    requires "H" in table && "O" in table
    ensures forall i | 0 <= i < |ts| :: WellFormed(table, ts[i])
    ensures Meanings(table, ts) == [Element("H", 0, 2.0), Element("O", 0, 1.0)]
  {
    var tail := ts[1..];
    assert tail[1..] == [];
    assert Meanings(table, tail) == [Meaning(ts[1])];
  }

  /** The text of a two-token formula whose first symbol has abundance 2 and
      whose second is oxygen. */
  lemma WaterText(symbol: string, ts: seq<Written>)
    requires ts == [Written(symbol, None, Some(Decimal(2, ""))), Written("O", None, None)]
    ensures FormulaText(ts) == symbol + "2O"
  {
    var tail := ts[1..];
    assert tail[1..] == [];
    assert FormulaText(tail) == TokenText(ts[1]);
  }

  /** "h2o": a lower-case start gives no records and no raise. */
  lemma LowercaseWater(table: MassTable)
    ensures ParseFormula(table, "h2o") == Parsed([])
  {
    LowercaseStartIsEmpty(table, "h2o");
  }

  /** "D2O": the alias becomes hydrogen-2 and keeps its abundance. */
  lemma HeavyWater(table: MassTable)
    requires "O" in table
    ensures ParseFormula(table, "D2O") == Parsed([Element("H", 2, 2.0), Element("O", 0, 1.0)])
  {
    var ts := [Written("D", None, Some(Decimal(2, ""))), Written("O", None, None)];
    WaterText("D", ts);
    assert "D" + "2O" == "D2O";
    HeavyWaterMeanings(table, ts);
    ParsesAs(table, ts, "D2O");
  }

  lemma HeavyWaterMeanings(table: MassTable, ts: seq<Written>)
    requires ts == [Written("D", None, Some(Decimal(2, ""))), Written("O", None, None)]
    requires "O" in table
    ensures forall i | 0 <= i < |ts| :: WellFormed(table, ts[i])
    ensures Meanings(table, ts) == [Element("H", 2, 2.0), Element("O", 0, 1.0)]
  {
    var tail := ts[1..];
    assert tail[1..] == [];
    assert Meanings(table, tail) == [Meaning(ts[1])];
  }

  /** "NaCl9", from "H2ONaCl9D2OK": two-letter symbols are single tokens,
      read in input order. */
  lemma SodiumChloride(table: MassTable)
    requires "Na" in table && "Cl" in table
    ensures ParseFormula(table, "NaCl9") == Parsed([Element("Na", 0, 1.0), Element("Cl", 0, 9.0)])
  {
    var ts := [Written("Na", None, None), Written("Cl", None, Some(Decimal(9, "")))];
    SodiumChlorideText(ts);
    SodiumChlorideMeanings(table, ts);
    ParsesAs(table, ts, "NaCl9");
  }

  lemma SodiumChlorideMeanings(table: MassTable, ts: seq<Written>)
    requires ts == [Written("Na", None, None), Written("Cl", None, Some(Decimal(9, "")))]
    requires "Na" in table && "Cl" in table
    ensures forall i | 0 <= i < |ts| :: WellFormed(table, ts[i])
    ensures Meanings(table, ts) == [Element("Na", 0, 1.0), Element("Cl", 0, 9.0)]
  {
    var tail := ts[1..];
    assert tail[1..] == [];
    assert Meanings(table, tail) == [Meaning(ts[1])];
  }

  lemma SodiumChlorideText(ts: seq<Written>)
    requires ts == [Written("Na", None, None), Written("Cl", None, Some(Decimal(9, "")))]
    ensures FormulaText(ts) == "NaCl9"
  {
    var tail := ts[1..];
    assert tail[1..] == [];
    assert FormulaText(tail) == TokenText(ts[1]);
  }

  /** "H2O1./": a point with no digit after it discards the records before it. */
  lemma TrailingPoint(table: MassTable)
    requires "H" in table && "O" in table
    ensures ParseFormula(table, "H2O1./") == Parsed([])
  {
    var ts := [Written("H", None, Some(Decimal(2, "")))];
    ScanWritten(table, ts);
    TrailingPointText(ts);
    PointWithoutDigitEmpties(table, "H2", "O", "1", "/");
  }

  lemma TrailingPointText(ts: seq<Written>)
    requires ts == [Written("H", None, Some(Decimal(2, "")))]
    ensures FormulaText(ts) == "H2"
    ensures "H2" + ("O" + ("1" + ("." + "/"))) == "H2O1./"
  {
  }

  /** "Ng12KThPa" and "OgTsLvNoRk": an unknown leading pair gives no records,
      and so does an unknown last pair after any run of letter pairs. */
  lemma UnknownLeadingPairs(table: MassTable)
    requires "Ng" !in table && "Rk" !in table
    ensures ParseFormula(table, "Ng12KThPa") == Parsed([])
    ensures ParseFormula(table, "OgTsLvNoRk") == Parsed([])
  {
    assert "Ng12KThPa"[..2] == "Ng";
    UnknownPairIsEmpty(table, "Ng12KThPa");
    LetterPairs();
    UnknownLastPairIsEmpty(table, "OgTsLvNoRk");
  }

  lemma LetterPairs()
    ensures forall i | 0 <= i < |"OgTsLvNoRk"| ::
              if i % 2 == 0 then IsUpper("OgTsLvNoRk"[i]) else IsLower("OgTsLvNoRk"[i])
    ensures "OgTsLvNoRk"[8..] == "Rk"
  {
  }

  /** "Ar33.0Au26.5", from "H1.0K1.0Ar33.0Au26.5": decimal abundances are
      read exactly. */
  lemma DecimalAbundances(table: MassTable)
    requires "Ar" in table && "Au" in table
    ensures ParseFormula(table, "Ar33.0Au26.5") == Parsed([Element("Ar", 0, 33.0), Element("Au", 0, 26.5)])
  {
    var ts := [Written("Ar", None, Some(Decimal(33, "0"))), Written("Au", None, Some(Decimal(26, "5")))];
    ArgonGoldWritten(table, ts);
    ParseWritten(table, ts);
  }

  lemma ArgonGoldWritten(table: MassTable, ts: seq<Written>)
    requires ts == [Written("Ar", None, Some(Decimal(33, "0"))), Written("Au", None, Some(Decimal(26, "5")))]
    requires "Ar" in table && "Au" in table
    ensures forall i | 0 <= i < |ts| :: WellFormed(table, ts[i])
    ensures FormulaText(ts) == "Ar33.0Au26.5"
    ensures Meanings(table, ts) == [Element("Ar", 0, 33.0), Element("Au", 0, 26.5)]
  {
    ArgonGoldText(ts);
    ArgonGoldMeanings(table, ts);
  }

  lemma ArgonGoldText(ts: seq<Written>)
    requires ts == [Written("Ar", None, Some(Decimal(33, "0"))), Written("Au", None, Some(Decimal(26, "5")))]
    ensures FormulaText(ts) == "Ar33.0Au26.5"
  {
    var tail := ts[1..];
    assert tail[1..] == [];
    assert TokenText(ts[0]) == "Ar33.0" by {
      assert NatToString(33) == "33";
    }
    assert TokenText(ts[1]) == "Au26.5" by {
      assert NatToString(26) == "26";
    }
    assert FormulaText(tail) == TokenText(ts[1]);
  }

  lemma ArgonGoldMeanings(table: MassTable, ts: seq<Written>)
    requires ts == [Written("Ar", None, Some(Decimal(33, "0"))), Written("Au", None, Some(Decimal(26, "5")))]
    requires "Ar" in table && "Au" in table
    ensures forall i | 0 <= i < |ts| :: WellFormed(table, ts[i])
    ensures Meanings(table, ts) == [Element("Ar", 0, 33.0), Element("Au", 0, 26.5)]
  {
    var tail := ts[1..];
    assert tail[1..] == [];
    assert Meaning(ts[0]) == Element("Ar", 0, 33.0) by {
      assert "0"[1..] == [];
    }
    assert Meaning(ts[1]) == Element("Au", 0, 26.5) by {
      assert "5"[1..] == [];
    }
    assert Meanings(table, tail) == [Meaning(ts[1])];
  }

  /** "NdPmZkNeMk": an unknown symbol after known ones discards them. */
  lemma UnknownAfterKnown(table: MassTable)
    requires "Nd" in table && "Pm" in table && "Zk" !in table && "Z" !in table
    ensures ParseFormula(table, "NdPmZkNeMk") == Parsed([])
  {
    var ts := [Written("Nd", None, None), Written("Pm", None, None)];
    UnknownAfterKnownText(ts);
    ScanWritten(table, ts);
    UnknownSymbolAnywhere(table, "NdPm", "ZkNeMk");
  }

  lemma UnknownAfterKnownText(ts: seq<Written>)
    requires ts == [Written("Nd", None, None), Written("Pm", None, None)]
    ensures FormulaText(ts) == "NdPm"
    ensures "NdPm" + "ZkNeMk" == "NdPmZkNeMk"
    ensures "ZkNeMk"[..2] == "Zk" && "ZkNeMk"[..1] == "Z"
  {
    var tail := ts[1..];
    assert tail[1..] == [];
    assert FormulaText(tail) == TokenText(ts[1]);
  }

  /** "H[3]": a bracketed mass number with the default abundance. */
  lemma Tritium(table: MassTable)
    requires "H" in table && 3 in table["H"]
    ensures ParseFormula(table, "H[3]") == Parsed([Element("H", 3, 1.0)])
  {
    var ts := [Written("H", Some(3), None)];
    TritiumText(ts);
    TritiumMeanings(table, ts);
    ParsesAs(table, ts, "H[3]");
  }

  lemma TritiumMeanings(table: MassTable, ts: seq<Written>)
    requires ts == [Written("H", Some(3), None)]
    requires "H" in table && 3 in table["H"]
    ensures forall i | 0 <= i < |ts| :: WellFormed(table, ts[i])
    ensures Meanings(table, ts) == [Element("H", 3, 1.0)]
  {
    assert ts[1..] == [];
  }

  lemma TritiumText(ts: seq<Written>)
    requires ts == [Written("H", Some(3), None)]
    ensures FormulaText(ts) == "H[3]"
  {
  }

  /** "C[13]6.5", from "H[3]12.0C[13]6.5U[235]K[39]9.1": an abundance may
      follow the bracket. */
  lemma CarbonThirteen(table: MassTable)
    requires "C" in table && 13 in table["C"]
    ensures ParseFormula(table, "C[13]6.5") == Parsed([Element("C", 13, 6.5)])
  {
    var ts := [Written("C", Some(13), Some(Decimal(6, "5")))];
    CarbonThirteenWritten(table, ts);
    ParseWritten(table, ts);
  }

  lemma CarbonThirteenWritten(table: MassTable, ts: seq<Written>)
    requires ts == [Written("C", Some(13), Some(Decimal(6, "5")))]
    requires "C" in table && 13 in table["C"]
    ensures forall i | 0 <= i < |ts| :: WellFormed(table, ts[i])
    ensures FormulaText(ts) == "C[13]6.5"
    ensures Meanings(table, ts) == [Element("C", 13, 6.5)]
  {
    assert TokenText(ts[0]) == "C[13]6.5" by {
      assert NatToString(13) == "13" && NatToString(6) == "6";
    }
    assert ts[1..] == [];
    assert FractionValue("5") == 0.5 by {
      assert "5"[1..] == [];
    }
  }

  /** "H[4]": a known symbol with a mass number outside its set raises. */
  lemma TooHeavyHydrogen(table: MassTable)
    requires "H" in table && 4 !in table["H"]
    ensures ParseFormula(table, "H[4]") == Raises(InvalidIsotope("H", 4, table["H"]))
  {
    TooHeavyHydrogenText();
    InvalidIsotopeRaises(table, "H", 4, "");
  }

  /** "H[4]O[2]99.2": the first invalid isotope raises, whatever follows it. */
  lemma TooHeavyHydrogenFirst(table: MassTable)
    requires "H" in table && 4 !in table["H"]
    ensures ParseFormula(table, "H[4]O[2]99.2") == Raises(InvalidIsotope("H", 4, table["H"]))
  {
    TooHeavyHydrogenFirstText();
    InvalidIsotopeRaises(table, "H", 4, "O[2]99.2");
  }

  lemma TooHeavyHydrogenText()
    ensures "H" + ("[" + NatToString(4) + "]" + "") == "H[4]"
  {
    assert NatToString(4) == "4";
  }

  lemma TooHeavyHydrogenFirstText()
    ensures "H" + ("[" + NatToString(4) + "]" + "O[2]99.2") == "H[4]O[2]99.2"
  {
    assert NatToString(4) == "4";
  }
}
