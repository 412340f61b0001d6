/**
 * The fund table's fixed maturity ranges with its fallback yields, and the
 * allocations of the chart tests, worked through the model.
 */
module FundTable {
  import opened Outcomes
  import opened Text
  import opened Maturity
  import opened Ordering
  import opened Charts

  /** Maturity ranges and fallback yields of the seven funds. */
  const Table: BondData := map[
    "BND" := FundInfo("7-8", 4.2),
    "BNDX" := FundInfo("8-9", 3.8),
    "VFIDX" := FundInfo("5-6", 4.8),
    "VFSUX" := FundInfo("2-3", 4.5),
    "VGUS" := FundInfo("0-1", 4.3),
    "VBIL" := FundInfo("0-0.25", 4.0),
    "VCORX" := FundInfo("8-10", 4.62)
  ]

  /** The chart tests' allocation without its zero entries. */
  const FourFunds: Allocation := [
    Holding("BND", 0.35), Holding("BNDX", 0.30), Holding("VFIDX", 0.20), Holding("VFSUX", 0.15)
  ]

  /** The chart tests' allocation as written, zero entries included. */
  const SixFunds: Allocation := FourFunds + [Holding("VGUS", 0.0), Holding("VBIL", 0.0)]

  lemma MidpointOfParts(r: string, lo: string, hi: string, a: real, b: real)
    requires r == lo + "-" + hi && ParseFloat(lo) == Some(a) && ParseFloat(hi) == Some(b)
    ensures Midpoint(r) == Ok((a + b) / 2.0)
  {
    MidpointOfRange(lo, hi);
  }

  lemma MidpointSevenEight()
    ensures Midpoint("7-8") == Ok(7.5)
  {
    DigitRange('7', '8');
    assert "7-8" == ['7', '-', '8'];
  }

  lemma MidpointEightTen()
    ensures Midpoint("8-10") == Ok(9.0)
  {
    ParseFloatDigits("8");
    ParseFloatDigits("10");
    assert DigitsValue("10") == 10 by {
      assert "10"[..1] == "1";
    }
    MidpointOfParts("8-10", "8", "10", 8.0, 10.0);
  }

  lemma ParseQuarter()
    ensures ParseFloat("0.25") == Some(0.25)
  {
    ParseFloatDecimal("0", "25");
    assert "0" + "." + "25" == "0.25";
    assert DigitsValue("25") == 25 by {
      assert "25"[..1] == "2";
    }
  }

  lemma MidpointBills()
    ensures Midpoint("0-0.25") == Ok(0.125)
  {
    ParseFloatDigits("0");
    ParseQuarter();
    MidpointOfParts("0-0.25", "0", "0.25", 0.0, 0.25);
  }

  lemma MidpointSingle()
    ensures Midpoint("5") == Ok(5.0)
  {
    ParseFloatDigits("5");
    MidpointOfSingle("5");
  }

  lemma MidpointThreePieces()
    ensures Midpoint("1-2-3") == Ok(1.0)
  {
    ParseFloatDigits("1");
    MidpointOfLonger(["1", "2", "3"]);
    assert Join(["1", "2", "3"], '-') == "1-2-3";
  }

  lemma MidpointLeadingDash()
    ensures Midpoint("-5") == Err("")
  {
    SplitPrefix("", '-', "5");
    SplitNoSep("5", '-');
    assert "" + "-" + "5" == "-5";
  }

  lemma DigitRange(lo: char, hi: char)
    requires IsDigit(lo) && IsDigit(hi)
    ensures Midpoint([lo, '-', hi]) == Ok((DigitValue(lo) as real + DigitValue(hi) as real) / 2.0)
  {
    ParseFloatDigits([lo]);
    ParseFloatDigits([hi]);
    assert DigitsValue([lo]) == DigitValue(lo) by { assert [lo][..0] == []; }
    assert DigitsValue([hi]) == DigitValue(hi) by { assert [hi][..0] == []; }
    MidpointOfParts([lo, '-', hi], [lo], [hi], DigitValue(lo) as real, DigitValue(hi) as real);
  }

  lemma MidpointBNDX()
    ensures Midpoint("8-9") == Ok(8.5)
  {
    DigitRange('8', '9');
    assert "8-9" == ['8', '-', '9'];
  }

  lemma MidpointVFIDX()
    ensures Midpoint("5-6") == Ok(5.5)
  {
    DigitRange('5', '6');
    assert "5-6" == ['5', '-', '6'];
  }

  lemma MidpointVFSUX()
    ensures Midpoint("2-3") == Ok(2.5)
  {
    DigitRange('2', '3');
    assert "2-3" == ['2', '-', '3'];
  }

  lemma MidpointVGUS()
    ensures Midpoint("0-1") == Ok(0.5)
  {
    DigitRange('0', '1');
    assert "0-1" == ['0', '-', '1'];
  }

  const FourRecords: seq<MaturityRecord> := [
    MaturityRecord("BND", 35.0, 7.5, "7-8"), MaturityRecord("BNDX", 30.0, 8.5, "8-9"),
    MaturityRecord("VFIDX", 20.0, 5.5, "5-6"), MaturityRecord("VFSUX", 15.0, 2.5, "2-3")
  ]

  const SixRecords: seq<MaturityRecord> :=
    FourRecords + [MaturityRecord("VGUS", 0.0, 0.5, "0-1"), MaturityRecord("VBIL", 0.0, 0.125, "0-0.25")]

  lemma MidpointOfBND()
    ensures FundMidpoint("BND", Table) == Ok(7.5)
  {
    MidpointSevenEight();
  }

  lemma MidpointOfBNDX()
    ensures FundMidpoint("BNDX", Table) == Ok(8.5)
  {
    MidpointBNDX();
  }

  lemma MidpointOfVFIDX()
    ensures FundMidpoint("VFIDX", Table) == Ok(5.5)
  {
    MidpointVFIDX();
  }

  lemma MidpointOfVFSUX()
    ensures FundMidpoint("VFSUX", Table) == Ok(2.5)
  {
    MidpointVFSUX();
  }

  lemma MidpointOfVGUS()
    ensures FundMidpoint("VGUS", Table) == Ok(0.5)
  {
    MidpointVGUS();
  }

  lemma MidpointOfVBIL()
    ensures FundMidpoint("VBIL", Table) == Ok(0.125)
  {
    MidpointBills();
  }

  lemma SixFundsResolve()
    ensures forall i :: 0 <= i < 6 ==> FundMidpoint(SixFunds[i].fund, Table) == Ok(Maturities(SixRecords)[i])
  {
    forall i | 0 <= i < 6 ensures FundMidpoint(SixFunds[i].fund, Table) == Ok(Maturities(SixRecords)[i]) {
      if i == 0 {
        MidpointOfBND();
      } else if i == 1 {
        MidpointOfBNDX();
      } else if i == 2 {
        MidpointOfVFIDX();
      } else if i == 3 {
        MidpointOfVFSUX();
      } else if i == 4 {
        MidpointOfVGUS();
      } else {
        assert i == 5;
        MidpointOfVBIL();
      }
    }
  }

  lemma SixFundsRecordsValue()
    ensures forall i :: 0 <= i < 6 ==> SixFunds[i].fund in Table
    ensures Records(SixFunds, Table, Maturities(SixRecords)) == SixRecords
  {
    var recs := Records(SixFunds, Table, Maturities(SixRecords));
    assert recs[0] == SixRecords[0];
    assert recs[1] == SixRecords[1];
    assert recs[2] == SixRecords[2];
    assert recs[3] == SixRecords[3];
    assert recs[4] == SixRecords[4];
    assert recs[5] == SixRecords[5];
  }

  /** Every fund of the tests' allocation resolves, so the records are the six above. */
  lemma SixFundsRecords()
    ensures MaturityData(SixFunds, Table) == Ok(SixRecords)
  {
    SixFundsResolve();
    MaturityDataResolved(SixFunds, Table, Maturities(SixRecords));
    SixFundsRecordsValue();
  }

  lemma FourFundsResolve()
    ensures forall i :: 0 <= i < 4 ==> FundMidpoint(FourFunds[i].fund, Table) == Ok(Maturities(FourRecords)[i])
  {
    forall i | 0 <= i < 4 ensures FundMidpoint(FourFunds[i].fund, Table) == Ok(Maturities(FourRecords)[i]) {
      if i == 0 {
        MidpointOfBND();
      } else if i == 1 {
        MidpointOfBNDX();
      } else if i == 2 {
        MidpointOfVFIDX();
      } else {
        assert i == 3;
        MidpointOfVFSUX();
      }
    }
  }

  lemma FourFundsRecordsValue()
    ensures forall i :: 0 <= i < 4 ==> FourFunds[i].fund in Table
    ensures Records(FourFunds, Table, Maturities(FourRecords)) == FourRecords
  {
    var recs := Records(FourFunds, Table, Maturities(FourRecords));
    assert recs[0] == FourRecords[0];
    assert recs[1] == FourRecords[1];
    assert recs[2] == FourRecords[2];
    assert recs[3] == FourRecords[3];
  }

  /** The records of the four funds without the zero entries. */
  lemma FourFundsRecords()
    ensures MaturityData(FourFunds, Table) == Ok(FourRecords)
  {
    FourFundsResolve();
    MaturityDataResolved(FourFunds, Table, Maturities(FourRecords));
    FourFundsRecordsValue();
  }

  /** Sorting the four midpoints 7.5, 8.5, 5.5, 2.5 visits positions 3, 2, 0, 1. */
  lemma FourFundsOrder()
    ensures StableOrder(Maturities(FourRecords)) == [3, 2, 0, 1]
  {
    var ms := Maturities(FourRecords);
    var o: seq<nat> := [3, 2, 0, 1];
    assert ms == [7.5, 8.5, 5.5, 2.5];
    AdjacentSorted(ms, o);
    StableOrderUnique(ms, o);
  }

  /** The six midpoints put the two short funds first: positions 5, 4, 3, 2, 0, 1. */
  lemma SixFundsOrder()
    ensures StableOrder(Maturities(SixRecords)) == [5, 4, 3, 2, 0, 1]
  {
    var ms := Maturities(SixRecords);
    var o: seq<nat> := [5, 4, 3, 2, 0, 1];
    assert ms == [7.5, 8.5, 5.5, 2.5, 0.5, 0.125];
    AdjacentSorted(ms, o);
    assert forall i :: 0 <= i < 6 ==> i in o by {
      assert o[0] == 5 && o[1] == 4 && o[2] == 3 && o[3] == 2 && o[4] == 0 && o[5] == 1;
    }
    StableOrderUnique(ms, o);
  }

  /** The bars of the four funds: x the fund, y its percentage, in midpoint order. */
  predicate FourBars(bars: seq<BarTrace>)
  {
    && |bars| == 4
    && bars[0].fund == "VFSUX" && bars[0].y == 15.0
    && bars[1].fund == "VFIDX" && bars[1].y == 20.0
    && bars[2].fund == "BND" && bars[2].y == 35.0
    && bars[3].fund == "BNDX" && bars[3].y == 30.0
  }

  lemma FourBarsValue()
    ensures FourBars(BarTraces(FourRecords, [3, 2, 0, 1]))
  {
    var bars := BarTraces(FourRecords, [3, 2, 0, 1]);
    assert bars[0] == TraceFor(FourRecords[3]);
    assert bars[1] == TraceFor(FourRecords[2]);
    assert bars[2] == TraceFor(FourRecords[0]);
    assert bars[3] == TraceFor(FourRecords[1]);
  }

  /** The bar chart test: the four funds come out as VFSUX, VFIDX, BND, BNDX with 15, 20, 35, 30. */
  lemma FourFundsBarChart()
    ensures BarChart(FourFunds, Table).Ok? && FourBars(BarChart(FourFunds, Table).value)
  {
    FourFundsRecords();
    FourFundsOrder();
    FourBarsValue();
  }

  /** The six colours the chart tests put in the palette. */
  const TestPalette: seq<string> := ["red", "blue", "green", "yellow", "purple", "orange"]

  lemma FourFundsLine()
    ensures var f := Frame(FourFunds, Table, 1000000.0, FourRecords);
      && Pick(f.maturities, [3, 2, 0, 1]) == [2.5, 5.5, 7.5, 8.5]
      && Pick(f.amounts, [3, 2, 0, 1]) == [150000.0, 200000.0, 350000.0, 300000.0]
  {
    FourFundsRecordsValue();
    var f := Frame(FourFunds, Table, 1000000.0, FourRecords);
    assert f.maturities == [7.5, 8.5, 5.5, 2.5];
    assert f.amounts == [350000.0, 300000.0, 200000.0, 150000.0];
  }

  /** The ladder test at 1,000,000: the line runs through 2.5, 5.5, 7.5, 8.5 with the funds' amounts. */
  lemma FourFundsLadder()
    ensures LadderChart(FourFunds, Table, 1000000.0, TestPalette).Ok?
    ensures var l := LadderChart(FourFunds, Table, 1000000.0, TestPalette).value;
      && l.lineX == [2.5, 5.5, 7.5, 8.5]
      && l.lineY == [150000.0, 200000.0, 350000.0, 300000.0]
      && Positions(l.bars) == [3, 2, 0, 1]
  {
    FourFundsRecords();
    FourFundsOrder();
    FourFundsLine();
    FourFundsRecordsValue();
    RowBarsPositions(Frame(FourFunds, Table, 1000000.0, FourRecords), TestPalette, [3, 2, 0, 1]);
  }

  lemma SixBarsValue()
    ensures var bars := BarTraces(SixRecords, [5, 4, 3, 2, 0, 1]);
      && |bars| == 6
      && bars[0].fund == "VBIL" && bars[0].y == 0.0
      && bars[1].fund == "VGUS" && bars[1].y == 0.0
  {
    var bars := BarTraces(SixRecords, [5, 4, 3, 2, 0, 1]);
    assert bars[0] == TraceFor(SixRecords[5]);
    assert bars[1] == TraceFor(SixRecords[4]);
  }

  /** The bar chart keeps the zero-allocation funds, and they come first. */
  lemma SixFundsBarChartKeepsZeros()
    ensures BarChart(SixFunds, Table).Ok?
    ensures var bars := BarChart(SixFunds, Table).value;
      && |bars| == 6
      && bars[0].fund == "VBIL" && bars[0].y == 0.0
      && bars[1].fund == "VGUS" && bars[1].y == 0.0
  {
    SixFundsRecords();
    SixFundsOrder();
    SixBarsValue();
  }

  lemma SixFundsLine()
    ensures var f := Frame(SixFunds, Table, 1000000.0, SixRecords);
      && Pick(f.maturities, [5, 4, 3, 2, 0, 1]) == [0.125, 0.5, 2.5, 5.5, 7.5, 8.5]
      && Pick(f.amounts, [5, 4, 3, 2, 0, 1]) == [0.0, 0.0, 150000.0, 200000.0, 350000.0, 300000.0]
  {
    SixFundsRecordsValue();
    var f := Frame(SixFunds, Table, 1000000.0, SixRecords);
    assert f.maturities == [7.5, 8.5, 5.5, 2.5, 0.5, 0.125];
    assert f.amounts == [350000.0, 300000.0, 200000.0, 150000.0, 0.0, 0.0];
  }

  /** The ladder likewise keeps them, and its line starts at the two zero amounts. */
  lemma SixFundsLadderKeepsZeros()
    ensures LadderChart(SixFunds, Table, 1000000.0, TestPalette).Ok?
    ensures var l := LadderChart(SixFunds, Table, 1000000.0, TestPalette).value;
      && l.lineX == [0.125, 0.5, 2.5, 5.5, 7.5, 8.5]
      && l.lineY == [0.0, 0.0, 150000.0, 200000.0, 350000.0, 300000.0]
  {
    SixFundsRecords();
    SixFundsOrder();
    SixFundsLine();
  }

  /** The pie likewise has six values, the zero ones included. */
  lemma SixFundsPie()
    ensures PieChart(SixFunds).values == [35.0, 30.0, 20.0, 15.0, 0.0, 0.0]
  {
  }
}
