/**
 * The data behind the three charts of the bond ladder page: the pie of
 * allocation percentages, the bars of allocation ordered by maturity, and
 * the ladder of dollar amounts ordered by maturity with a connecting line.
 * Figure, layout and text formatting are not modelled; each chart is the
 * sequence of traces (or values) it would receive.
 */
module Charts {
  import opened Outcomes
  import opened Maturity
  import opened Ordering

  /** One entry of the allocation dictionary: a fund and its fraction. */
  datatype Holding = Holding(fund: string, fraction: real)

  /** The allocation dictionary, in its insertion (iteration) order. */
  type Allocation = seq<Holding>

  /** A dictionary has each key once. */
  predicate IsDict(alloc: Allocation)
  {
    forall i, j :: 0 <= i < j < |alloc| ==> alloc[i].fund != alloc[j].fund
  }

  /** The columns of the fund table the charts read. */
  datatype FundInfo = FundInfo(maturityRange: string, yieldPct: real)

  /** The fund table, indexed by fund symbol. */
  type BondData = map<string, FundInfo>

  /**
   * What the chart builders can raise: a fund missing from the table
   * (`KeyError`), a range piece `float()` refuses (`ValueError`), and a
   * modulo by the length of an empty colour palette (`ZeroDivisionError`).
   */
  datatype ChartError = MissingFund(fund: string) | BadNumeral(text: string) | EmptyPalette

  function Fractions(alloc: Allocation): (v: seq<real>)
    ensures |v| == |alloc| && forall i :: 0 <= i < |alloc| ==> v[i] == alloc[i].fraction
  {
    seq(|alloc|, i requires 0 <= i < |alloc| => alloc[i].fraction)
  }

  /** The allocation as percentages, in key order. */
  function Percentages(alloc: Allocation): (v: seq<real>)
    ensures |v| == |alloc| && forall i :: 0 <= i < |alloc| ==> v[i] == alloc[i].fraction * 100.0
  {
    seq(|alloc|, i requires 0 <= i < |alloc| => alloc[i].fraction * 100.0)
  }

  // ---------------------------------------------------------------- pie

  /** A pie label: the fund symbol with its percentage (the text format is not modelled). */
  datatype PieLabel = PieLabel(fund: string, pct: real)

  datatype PieData = PieData(labels: seq<PieLabel>, values: seq<real>)

  /** The pie's labels and values: one slice per key, in key order. */
  function PieChart(alloc: Allocation): (p: PieData)
    ensures |p.labels| == |p.values| == |alloc|
    ensures forall k :: 0 <= k < |alloc| ==>
      && p.values[k] == alloc[k].fraction * 100.0
      && p.labels[k] == PieLabel(alloc[k].fund, p.values[k])
  {
    var values := Percentages(alloc);
    PieData(seq(|alloc|, k requires 0 <= k < |alloc| => PieLabel(alloc[k].fund, values[k])), values)
  }

  /** The percentages add up to 100 times the allocation's total. */
  lemma PercentagesTotal(alloc: Allocation)
    ensures Sum(Percentages(alloc)) == Sum(Fractions(alloc)) * 100.0
  {
    SumScaled(Fractions(alloc), Percentages(alloc), 100.0);
  }

  /** The pie's values add up to 100 times the allocation's total. */
  lemma PieChartTotal(alloc: Allocation)
    ensures Sum(PieChart(alloc).values) == Sum(Fractions(alloc)) * 100.0
  {
    PercentagesTotal(alloc);
  }

  // ------------------------------------------------------ maturity lookup

  /** The midpoint of a fund's maturity range, as both chart builders compute it. */
  function FundMidpoint(fund: string, data: BondData): (r: Result<real, ChartError>)
    ensures r.Ok? ==> fund in data
  {
    if fund !in data then Err(MissingFund(fund))
    else
      match Midpoint(data[fund].maturityRange)
      case Err(piece) => Err(BadNumeral(piece))
      case Ok(m) => Ok(m)
  }

  /** One value of the bar chart's `maturity_data` dictionary. */
  datatype MaturityRecord = MaturityRecord(fund: string, allocationPct: real, maturity: real, maturityRange: string)

  /**
   * `rec` is what the bar chart records for holding `h`, apart from the
   * midpoint (see `MaturityDataMidpoints`).
   */
  predicate RecordFor(h: Holding, data: BondData, rec: MaturityRecord)
  {
    && h.fund in data
    && rec == MaturityRecord(h.fund, h.fraction * 100.0, rec.maturity, data[h.fund].maturityRange)
  }

  /**
   * The records of the holdings in key order, or the error of the first
   * holding whose fund cannot be looked up or parsed.
   */
  function MaturityData(alloc: Allocation, data: BondData): (r: Result<seq<MaturityRecord>, ChartError>)
    ensures r.Ok? ==> |r.value| == |alloc|
    ensures r.Ok? ==> forall i :: 0 <= i < |alloc| ==> RecordFor(alloc[i], data, r.value[i])
    decreases |alloc|
  {
    if alloc == [] then Ok([])
    else
      match MaturityData(alloc[..|alloc| - 1], data)
      case Err(e) => Err(e)
      case Ok(recs) =>
        var h := alloc[|alloc| - 1];
        match FundMidpoint(h.fund, data)
        case Err(e) => Err(e)
        case Ok(m) => Ok(recs + [MaturityRecord(h.fund, h.fraction * 100.0, m, data[h.fund].maturityRange)])
  }

  /** The midpoints of the records, in the same order. */
  function Maturities(recs: seq<MaturityRecord>): (ms: seq<real>)
    ensures |ms| == |recs| && forall i :: 0 <= i < |recs| ==> ms[i] == recs[i].maturity
  {
    seq(|recs|, i requires 0 <= i < |recs| => recs[i].maturity)
  }

  /** Each record holds the midpoint of its own holding's fund. */
  lemma {:induction false} MaturityDataMidpoints(alloc: Allocation, data: BondData)
    requires MaturityData(alloc, data).Ok?
    ensures var ms := Maturities(MaturityData(alloc, data).value);
      forall i :: 0 <= i < |alloc| ==> FundMidpoint(alloc[i].fund, data) == Ok(ms[i])
    decreases |alloc|
  {
    if alloc != [] {
      var init := alloc[..|alloc| - 1];
      MaturityDataMidpoints(init, data);
      assert forall i :: 0 <= i < |init| ==> init[i] == alloc[i];
    }
  }

  /** The records of the holdings, given the midpoints of their funds. */
  function Records(alloc: Allocation, data: BondData, ms: seq<real>): (recs: seq<MaturityRecord>)
    requires |ms| == |alloc| && forall i :: 0 <= i < |alloc| ==> alloc[i].fund in data
    ensures |recs| == |alloc|
  {
    seq(|alloc|, i requires 0 <= i < |alloc| =>
      MaturityRecord(alloc[i].fund, alloc[i].fraction * 100.0, ms[i], data[alloc[i].fund].maturityRange))
  }

  lemma RecordsAppend(alloc: Allocation, data: BondData, ms: seq<real>)
    requires |ms| == |alloc| > 0 && forall i :: 0 <= i < |alloc| ==> alloc[i].fund in data
    ensures var n := |alloc| - 1;
      Records(alloc, data, ms) == Records(alloc[..n], data, ms[..n]) +
        [MaturityRecord(alloc[n].fund, alloc[n].fraction * 100.0, ms[n], data[alloc[n].fund].maturityRange)]
  {
    var n := |alloc| - 1;
    var all, recs := Records(alloc, data, ms), Records(alloc[..n], data, ms[..n]);
    assert forall i :: 0 <= i < n ==> all[i] == recs[i];
  }

  /**
   * Conversely, when every fund resolves, the records are exactly the
   * holdings' records with those midpoints.
   */
  lemma {:induction false} MaturityDataResolved(alloc: Allocation, data: BondData, ms: seq<real>)
    requires |ms| == |alloc|
    requires forall i :: 0 <= i < |alloc| ==> FundMidpoint(alloc[i].fund, data) == Ok(ms[i])
    ensures forall i :: 0 <= i < |alloc| ==> alloc[i].fund in data
    ensures MaturityData(alloc, data) == Ok(Records(alloc, data, ms))
    decreases |alloc|
  {
    forall i | 0 <= i < |alloc| ensures alloc[i].fund in data {
      assert FundMidpoint(alloc[i].fund, data).Ok?;
    }
    if alloc != [] {
      var n := |alloc| - 1;
      var init, initMs := alloc[..n], ms[..n];
      assert forall i :: 0 <= i < n ==> init[i] == alloc[i] && initMs[i] == ms[i];
      MaturityDataResolved(init, data, initMs);
      var recs := Records(init, data, initMs);
      MaturityDataExtend(alloc, data, n, recs, ms[n]);
      assert alloc[..n + 1] == alloc;
      RecordsAppend(alloc, data, ms);
    } else {
      assert Records(alloc, data, ms) == [];
    }
  }

  lemma MaturitiesAppend(recs: seq<MaturityRecord>, rec: MaturityRecord)
    ensures Maturities(recs + [rec]) == Maturities(recs) + [rec.maturity]
  {
    assert forall i :: 0 <= i < |recs| ==> (recs + [rec])[i] == recs[i];
  }

  /**
   * The lookups fail exactly when some fund fails, and then with the error
   * of the first fund that does.
   */
  lemma {:induction false} MaturityDataErrors(alloc: Allocation, data: BondData)
    ensures MaturityData(alloc, data).Ok? <==>
      forall i :: 0 <= i < |alloc| ==> FundMidpoint(alloc[i].fund, data).Ok?
    ensures MaturityData(alloc, data).Err? ==>
      exists i :: 0 <= i < |alloc|
        && (forall k :: 0 <= k < i ==> FundMidpoint(alloc[k].fund, data).Ok?)
        && FundMidpoint(alloc[i].fund, data) == Err(MaturityData(alloc, data).error)
    decreases |alloc|
  {
    if alloc != [] {
      var init := alloc[..|alloc| - 1];
      MaturityDataErrors(init, data);
      assert forall i :: 0 <= i < |init| ==> init[i] == alloc[i];
      if MaturityData(init, data).Err? {
        var i :| 0 <= i < |init|
          && (forall k :: 0 <= k < i ==> FundMidpoint(init[k].fund, data).Ok?)
          && FundMidpoint(init[i].fund, data) == Err(MaturityData(init, data).error);
        assert FundMidpoint(alloc[i].fund, data).Err?;
      }
    }
  }

  /** Extending a resolved prefix by one holding whose fund resolves. */
  lemma MaturityDataExtend(alloc: Allocation, data: BondData, i: nat, recs: seq<MaturityRecord>, m: real)
    requires i < |alloc| && MaturityData(alloc[..i], data) == Ok(recs)
    requires FundMidpoint(alloc[i].fund, data) == Ok(m)
    ensures MaturityData(alloc[..i + 1], data) ==
      Ok(recs + [MaturityRecord(alloc[i].fund, alloc[i].fraction * 100.0, m, data[alloc[i].fund].maturityRange)])
  {
    assert alloc[..i + 1][..i] == alloc[..i];
  }

  /** Once a prefix of the holdings fails, the whole allocation fails with the same error. */
  lemma {:induction false} MaturityDataErrorPersists(alloc: Allocation, data: BondData, n: nat)
    requires n <= |alloc|
    requires MaturityData(alloc[..n], data).Err?
    ensures MaturityData(alloc, data) == MaturityData(alloc[..n], data)
    decreases |alloc| - n
  {
    if n < |alloc| {
      assert alloc[..n + 1][..n] == alloc[..n];
      MaturityDataErrorPersists(alloc, data, n + 1);
    } else {
      assert alloc[..n] == alloc;
    }
  }

  // ---------------------------------------------------------- bar chart

  /** One bar: x is the fund, y its percentage, and the legend name shows its range. */
  datatype BarTrace = BarTrace(fund: string, y: real, name: string)

  function TraceFor(rec: MaturityRecord): BarTrace
  {
    BarTrace(rec.fund, rec.allocationPct, rec.fund + " (" + rec.maturityRange + " years)")
  }

  function BarTraces(recs: seq<MaturityRecord>, o: seq<nat>): (bars: seq<BarTrace>)
    requires InRange(o, |recs|)
    ensures |bars| == |o| && forall k :: 0 <= k < |o| ==> bars[k] == TraceFor(recs[o[k]])
  {
    seq(|o|, k requires 0 <= k < |o| => TraceFor(recs[o[k]]))
  }

  /**
   * The bars in the order they are added: the records sorted stably by
   * midpoint (`sorted_funds`), one trace per record.
   */
  function BarChart(alloc: Allocation, data: BondData): (r: Result<seq<BarTrace>, ChartError>)
    ensures r.Ok? ==> |r.value| == |alloc|
    ensures r.Err? <==> MaturityData(alloc, data).Err?
  {
    match MaturityData(alloc, data)
    case Err(e) => Err(e)
    case Ok(recs) => Ok(BarTraces(recs, StableOrder(Maturities(recs))))
  }

  /** Each bar's legend name shows its own fund's maturity range. */
  lemma BarChartNames(alloc: Allocation, data: BondData)
    requires BarChart(alloc, data).Ok?
    ensures var bars := BarChart(alloc, data).value;
      forall k :: 0 <= k < |bars| ==>
        bars[k].fund in data && bars[k].name == bars[k].fund + " (" + data[bars[k].fund].maturityRange + " years)"
  {
    var bars, recs := BarChart(alloc, data).value, MaturityData(alloc, data).value;
    var o := StableOrder(Maturities(recs));
    forall k | 0 <= k < |bars|
      ensures bars[k].fund in data && bars[k].name == bars[k].fund + " (" + data[bars[k].fund].maturityRange + " years)"
    {
      assert RecordFor(alloc[o[k]], data, recs[o[k]]);
    }
  }

  /**
   * Every key gets exactly one bar, with its own percentage: none is
   * dropped, none appears twice.
   */
  lemma BarChartCoversKeys(alloc: Allocation, data: BondData)
    requires IsDict(alloc)
    requires BarChart(alloc, data).Ok?
    ensures var bars := BarChart(alloc, data).value;
      && |bars| == |alloc|
      && (forall i :: 0 <= i < |alloc| ==>
            exists k :: 0 <= k < |bars| && bars[k].fund == alloc[i].fund && bars[k].y == alloc[i].fraction * 100.0)
      && (forall k1, k2 :: 0 <= k1 < k2 < |bars| ==> bars[k1].fund != bars[k2].fund)
  {
    var bars, recs := BarChart(alloc, data).value, MaturityData(alloc, data).value;
    var o := StableOrder(Maturities(recs));
    forall i | 0 <= i < |alloc|
      ensures exists k :: 0 <= k < |bars| && bars[k].fund == alloc[i].fund && bars[k].y == alloc[i].fraction * 100.0
    {
      assert i in o;
      var k :| 0 <= k < |o| && o[k] == i;
      assert bars[k].fund == alloc[i].fund;
    }
    forall k1, k2 | 0 <= k1 < k2 < |bars| ensures bars[k1].fund != bars[k2].fund {
      assert o[k1] != o[k2];
      assert bars[k1].fund == alloc[o[k1]].fund && bars[k2].fund == alloc[o[k2]].fund;
    }
  }

  /**
   * In chart order the funds' midpoints never decrease, and funds with
   * the same midpoint keep their key order.
   */
  lemma BarChartSorted(alloc: Allocation, data: BondData)
    requires IsDict(alloc)
    requires BarChart(alloc, data).Ok?
    ensures var bars, ms := BarChart(alloc, data).value, Maturities(MaturityData(alloc, data).value);
      forall k1, k2, i1, i2 ::
        0 <= k1 < k2 < |bars| && 0 <= i1 < |alloc| && 0 <= i2 < |alloc|
        && bars[k1].fund == alloc[i1].fund && bars[k2].fund == alloc[i2].fund
        ==> ms[i1] < ms[i2] || (ms[i1] == ms[i2] && i1 < i2)
  {
    var bars, recs := BarChart(alloc, data).value, MaturityData(alloc, data).value;
    var ms := Maturities(recs);
    var o := StableOrder(ms);
    forall k1, k2, i1, i2 |
        0 <= k1 < k2 < |bars| && 0 <= i1 < |alloc| && 0 <= i2 < |alloc|
        && bars[k1].fund == alloc[i1].fund && bars[k2].fund == alloc[i2].fund
      ensures ms[i1] < ms[i2] || (ms[i1] == ms[i2] && i1 < i2)
    {
      assert bars[k1].fund == alloc[o[k1]].fund && bars[k2].fund == alloc[o[k2]].fund;
      assert o[k1] == i1 && o[k2] == i2;
      assert Before(ms, o[k1], o[k2]);
    }
  }

  /** The heights of the bars, in chart order. */
  function Heights(bars: seq<BarTrace>): (ys: seq<real>)
    ensures |ys| == |bars| && forall k :: 0 <= k < |bars| ==> ys[k] == bars[k].y
  {
    seq(|bars|, k requires 0 <= k < |bars| => bars[k].y)
  }

  /** The heights are the percentages, read in chart order. */
  lemma BarHeights(alloc: Allocation, data: BondData)
    requires BarChart(alloc, data).Ok?
    ensures var recs := MaturityData(alloc, data).value;
      Heights(BarChart(alloc, data).value) == Pick(Percentages(alloc), StableOrder(Maturities(recs)))
  {
    var recs := MaturityData(alloc, data).value;
    var o := StableOrder(Maturities(recs));
    var bars := BarTraces(recs, o);
    var pcts := Percentages(alloc);
    forall k | 0 <= k < |o| ensures Heights(bars)[k] == Pick(pcts, o)[k] {
      assert bars[k] == TraceFor(recs[o[k]]);
      assert RecordFor(alloc[o[k]], data, recs[o[k]]);
    }
  }

  /** The bars' heights add up to 100 times the allocation's total. */
  lemma BarChartTotal(alloc: Allocation, data: BondData)
    requires BarChart(alloc, data).Ok?
    ensures Sum(Heights(BarChart(alloc, data).value)) == Sum(Fractions(alloc)) * 100.0
  {
    var ms := Maturities(MaturityData(alloc, data).value);
    var pcts := Percentages(alloc);
    BarHeights(alloc, data);
    StableOrderSum(ms, pcts);
    PercentagesTotal(alloc);
  }

  /**
   * The first loop of `create_bar_chart`: the record of every fund, in key
   * order, or the error of the first fund that fails.
   */
  method CollectRecords(alloc: Allocation, data: BondData) returns (r: Result<seq<MaturityRecord>, ChartError>)
    ensures r == MaturityData(alloc, data)
  {
    var records: seq<MaturityRecord> := [];
    for i := 0 to |alloc|
      invariant MaturityData(alloc[..i], data) == Ok(records)
    {
      var fund := alloc[i].fund;
      var midpoint := FundMidpoint(fund, data);
      if midpoint.Err? {
        assert alloc[..i + 1][..i] == alloc[..i];
        MaturityDataErrorPersists(alloc, data, i + 1);
        return Err(midpoint.error);
      }
      MaturityDataExtend(alloc, data, i, records, midpoint.value);
      records := records + [MaturityRecord(fund, alloc[i].fraction * 100.0, midpoint.value, data[fund].maturityRange)];
    }
    assert alloc[..|alloc|] == alloc;
    r := Ok(records);
  }

  /**
   * `create_bar_chart`: fills `maturity_data` fund by fund, sorts the funds
   * by midpoint and adds one bar per fund in that order.
   */
  method CreateBarChart(alloc: Allocation, data: BondData) returns (r: Result<seq<BarTrace>, ChartError>)
    ensures r == BarChart(alloc, data)
  {
    var collected := CollectRecords(alloc, data);
    if collected.Err? {
      return Err(collected.error);
    }
    var records := collected.value;
    var sortedFunds := StableOrder(Maturities(records));
    var bars: seq<BarTrace> := [];
    for k := 0 to |sortedFunds|
      invariant |bars| == k && forall j :: 0 <= j < k ==> bars[j] == TraceFor(records[sortedFunds[j]])
    {
      bars := bars + [TraceFor(records[sortedFunds[k]])];
    }
    assert bars == BarTraces(records, sortedFunds);
    r := Ok(bars);
  }

  // ------------------------------------------------------- ladder chart

  /** The dollar amount of each holding, in key order. */
  function Amounts(alloc: Allocation, investment: real): (v: seq<real>)
    ensures |v| == |alloc| && forall i :: 0 <= i < |alloc| ==> v[i] == alloc[i].fraction * investment
  {
    seq(|alloc|, i requires 0 <= i < |alloc| => alloc[i].fraction * investment)
  }

  /** The yield of each holding's fund, in key order. */
  function Yields(alloc: Allocation, data: BondData): (v: seq<real>)
    requires forall i :: 0 <= i < |alloc| ==> alloc[i].fund in data
    ensures |v| == |alloc| && forall i :: 0 <= i < |alloc| ==> v[i] == data[alloc[i].fund].yieldPct
  {
    seq(|alloc|, i requires 0 <= i < |alloc| => data[alloc[i].fund].yieldPct)
  }

  /** The annual income of each amount at the paired yield. */
  function Incomes(amounts: seq<real>, yieldPcts: seq<real>): (v: seq<real>)
    requires |amounts| == |yieldPcts|
    ensures |v| == |amounts| && forall i :: 0 <= i < |amounts| ==> v[i] == amounts[i] * yieldPcts[i] / 100.0
  {
    seq(|amounts|, i requires 0 <= i < |amounts| => amounts[i] * yieldPcts[i] / 100.0)
  }

  /** The amounts add up to the investment times the allocation's total. */
  lemma AmountsTotal(alloc: Allocation, investment: real)
    ensures Sum(Amounts(alloc, investment)) == Sum(Fractions(alloc)) * investment
  {
    SumScaled(Fractions(alloc), Amounts(alloc, investment), investment);
  }

  /**
   * One ladder bar: the row at frame position `position`, drawn at its
   * midpoint with its amount, and coloured by that original position.
   */
  datatype LadderBar = LadderBar(position: nat, fund: string, maturity: real, amount: real,
                                 yieldPct: real, income: real, colour: string)

  /** The ladder's bars in the order they are added, and the connecting line. */
  datatype LadderData = LadderData(bars: seq<LadderBar>, lineX: seq<real>, lineY: seq<real>)

  /** The rows of the ladder frame, one per holding. */
  datatype LadderFrame = LadderFrame(funds: seq<string>, maturities: seq<real>, amounts: seq<real>,
                                     yieldPcts: seq<real>, incomes: seq<real>)
  {
    ghost predicate Valid()
    {
      |maturities| == |funds| && |amounts| == |funds| && |yieldPcts| == |funds| && |incomes| == |funds|
    }
  }

  function RowBar(frame: LadderFrame, palette: seq<string>, i: nat): LadderBar
    requires frame.Valid() && i < |frame.funds| && |palette| > 0
  {
    LadderBar(i, frame.funds[i], frame.maturities[i], frame.amounts[i], frame.yieldPcts[i], frame.incomes[i],
              palette[i % |palette|])
  }

  function RowBars(frame: LadderFrame, palette: seq<string>, o: seq<nat>): (bars: seq<LadderBar>)
    requires frame.Valid() && InRange(o, |frame.funds|) && (o != [] ==> |palette| > 0)
    ensures |bars| == |o| && forall k :: 0 <= k < |o| ==> bars[k] == RowBar(frame, palette, o[k])
  {
    seq(|o|, k requires 0 <= k < |o| => RowBar(frame, palette, o[k]))
  }

  /** The ladder frame of an allocation whose funds all resolve. */
  function Frame(alloc: Allocation, data: BondData, investment: real, recs: seq<MaturityRecord>): (f: LadderFrame)
    requires |recs| == |alloc|
    requires forall i :: 0 <= i < |alloc| ==> alloc[i].fund in data
    ensures f.Valid() && |f.funds| == |alloc|
  {
    var amounts := Amounts(alloc, investment);
    LadderFrame(seq(|alloc|, i requires 0 <= i < |alloc| => alloc[i].fund), Maturities(recs), amounts,
                Yields(alloc, data), Incomes(amounts, Yields(alloc, data)))
  }

  /**
   * The ladder: the frame sorted by midpoint (ties here in position order;
   * the source's sort leaves their order open), one bar per row, then the
   * line through the sorted midpoints and amounts. An empty palette fails
   * as soon as there is a row to colour.
   */
  function LadderChart(alloc: Allocation, data: BondData, investment: real, palette: seq<string>): (r: Result<LadderData, ChartError>)
    ensures r.Ok? ==> |r.value.bars| == |r.value.lineX| == |r.value.lineY| == |alloc|
  {
    match MaturityData(alloc, data)
    case Err(e) => Err(e)
    case Ok(recs) =>
      if |alloc| > 0 && |palette| == 0 then Err(EmptyPalette)
      else
        var frame := Frame(alloc, data, investment, recs);
        var o := StableOrder(frame.maturities);
        Ok(LadderData(RowBars(frame, palette, o), Pick(frame.maturities, o), Pick(frame.amounts, o)))
  }

  /** The frame positions of the bars, in chart order. */
  function Positions(bars: seq<LadderBar>): (ps: seq<nat>)
    ensures |ps| == |bars| && forall k :: 0 <= k < |bars| ==> ps[k] == bars[k].position
  {
    seq(|bars|, k requires 0 <= k < |bars| => bars[k].position)
  }

  /** The bars of `RowBars` stand at the positions they were asked for. */
  lemma RowBarsPositions(frame: LadderFrame, palette: seq<string>, o: seq<nat>)
    requires frame.Valid() && InRange(o, |frame.funds|) && (o != [] ==> |palette| > 0)
    ensures Positions(RowBars(frame, palette, o)) == o
  {
  }

  /** The ladder fails exactly when a lookup fails or an empty palette meets a row. */
  lemma LadderChartErrors(alloc: Allocation, data: BondData, investment: real, palette: seq<string>)
    ensures LadderChart(alloc, data, investment, palette).Err? <==>
      MaturityData(alloc, data).Err? || (|alloc| > 0 && |palette| == 0)
    ensures MaturityData(alloc, data).Err? ==>
      LadderChart(alloc, data, investment, palette) == Err(MaturityData(alloc, data).error)
  {
  }

  /**
   * `b` is the row of holding `b.position`: the same fund, with amount
   * fraction times the investment and income amount times that same fund's
   * yield over 100.
   */
  predicate RowOf(b: LadderBar, alloc: Allocation, data: BondData, investment: real)
  {
    && b.position < |alloc|
    && b.fund == alloc[b.position].fund
    && b.fund in data
    && b.amount == alloc[b.position].fraction * investment
    && b.yieldPct == data[b.fund].yieldPct
    && b.income == b.amount * b.yieldPct / 100.0
  }

  lemma FrameRow(alloc: Allocation, data: BondData, investment: real, recs: seq<MaturityRecord>,
                 palette: seq<string>, i: nat)
    requires |recs| == |alloc|
    requires forall j :: 0 <= j < |alloc| ==> alloc[j].fund in data
    requires i < |alloc| && |palette| > 0
    ensures RowOf(RowBar(Frame(alloc, data, investment, recs), palette, i), alloc, data, investment)
  {
  }

  /** The bars are the rows of the holdings, each frame position used exactly once. */
  lemma LadderRows(alloc: Allocation, data: BondData, investment: real, palette: seq<string>)
    requires LadderChart(alloc, data, investment, palette).Ok?
    ensures var bars := LadderChart(alloc, data, investment, palette).value.bars;
      && |bars| == |alloc|
      && IsPermutation(Positions(bars), |alloc|)
      && forall k :: 0 <= k < |bars| ==> RowOf(bars[k], alloc, data, investment)
  {
    var recs := MaturityData(alloc, data).value;
    var frame := Frame(alloc, data, investment, recs);
    var o := StableOrder(frame.maturities);
    var bars := RowBars(frame, palette, o);
    assert bars == LadderChart(alloc, data, investment, palette).value.bars;
    assert Positions(bars) == o;
    forall k | 0 <= k < |bars| ensures RowOf(bars[k], alloc, data, investment) {
      FrameRow(alloc, data, investment, recs, palette, o[k]);
    }
  }

  /** Each bar stands at the midpoint of its own fund's maturity range. */
  lemma LadderMidpoints(alloc: Allocation, data: BondData, investment: real, palette: seq<string>)
    requires LadderChart(alloc, data, investment, palette).Ok?
    ensures var bars := LadderChart(alloc, data, investment, palette).value.bars;
      forall k :: 0 <= k < |bars| ==> FundMidpoint(bars[k].fund, data) == Ok(bars[k].maturity)
  {
    var recs := MaturityData(alloc, data).value;
    var frame := Frame(alloc, data, investment, recs);
    var o := StableOrder(frame.maturities);
    var bars := RowBars(frame, palette, o);
    MaturityDataMidpoints(alloc, data);
    forall k | 0 <= k < |bars| ensures FundMidpoint(bars[k].fund, data) == Ok(bars[k].maturity) {
      assert bars[k].fund == alloc[o[k]].fund && bars[k].maturity == frame.maturities[o[k]];
    }
  }

  /** The bars come out in non-decreasing midpoint order. */
  lemma LadderSorted(alloc: Allocation, data: BondData, investment: real, palette: seq<string>)
    requires LadderChart(alloc, data, investment, palette).Ok?
    ensures var bars := LadderChart(alloc, data, investment, palette).value.bars;
      forall k1, k2 :: 0 <= k1 < k2 < |bars| ==> bars[k1].maturity <= bars[k2].maturity
  {
    var recs := MaturityData(alloc, data).value;
    var frame := Frame(alloc, data, investment, recs);
    var o := StableOrder(frame.maturities);
    var bars := RowBars(frame, palette, o);
    forall k1, k2 | 0 <= k1 < k2 < |bars| ensures bars[k1].maturity <= bars[k2].maturity {
      assert Before(frame.maturities, o[k1], o[k2]);
    }
  }

  /** Each bar's colour is picked by its original frame position, not its place in the chart. */
  lemma LadderColours(alloc: Allocation, data: BondData, investment: real, palette: seq<string>)
    requires LadderChart(alloc, data, investment, palette).Ok?
    ensures var bars := LadderChart(alloc, data, investment, palette).value.bars;
      bars != [] ==> |palette| > 0 && forall k :: 0 <= k < |bars| ==> bars[k].colour == palette[bars[k].position % |palette|]
  {
  }

  /** The line runs through the bars in chart order: x the midpoints, y the amounts. */
  lemma LadderLine(alloc: Allocation, data: BondData, investment: real, palette: seq<string>)
    requires LadderChart(alloc, data, investment, palette).Ok?
    ensures var l := LadderChart(alloc, data, investment, palette).value;
      && |l.lineX| == |l.bars| && |l.lineY| == |l.bars|
      && forall k :: 0 <= k < |l.bars| ==> l.lineX[k] == l.bars[k].maturity && l.lineY[k] == l.bars[k].amount
  {
  }

  /** The line's amounts add up to the investment times the allocation's total. */
  lemma LadderTotal(alloc: Allocation, data: BondData, investment: real, palette: seq<string>)
    requires LadderChart(alloc, data, investment, palette).Ok?
    ensures Sum(LadderChart(alloc, data, investment, palette).value.lineY) == Sum(Fractions(alloc)) * investment
  {
    var recs := MaturityData(alloc, data).value;
    var frame := Frame(alloc, data, investment, recs);
    StableOrderSum(frame.maturities, frame.amounts);
    AmountsTotal(alloc, investment);
  }

  /**
   * The first loop of `create_ladder_chart`: the midpoint of every fund,
   * in key order, or the error of the first fund that fails.
   */
  method CollectMaturities(alloc: Allocation, data: BondData) returns (r: Result<seq<real>, ChartError>)
    ensures MaturityData(alloc, data).Err? ==> r == Err(MaturityData(alloc, data).error)
    ensures MaturityData(alloc, data).Ok? ==> r == Ok(Maturities(MaturityData(alloc, data).value))
  {
    var maturities: seq<real> := [];
    ghost var recs: seq<MaturityRecord> := [];
    for i := 0 to |alloc|
      invariant MaturityData(alloc[..i], data) == Ok(recs)
      invariant maturities == Maturities(recs)
    {
      var fund := alloc[i].fund;
      var midpoint := FundMidpoint(fund, data);
      if midpoint.Err? {
        assert alloc[..i + 1][..i] == alloc[..i];
        MaturityDataErrorPersists(alloc, data, i + 1);
        return Err(midpoint.error);
      }
      var rec := MaturityRecord(fund, alloc[i].fraction * 100.0, midpoint.value, data[fund].maturityRange);
      MaturityDataExtend(alloc, data, i, recs, midpoint.value);
      MaturitiesAppend(recs, rec);
      maturities := maturities + [midpoint.value];
      recs := recs + [rec];
    }
    assert alloc[..|alloc|] == alloc;
    r := Ok(maturities);
  }

  /**
   * The bar loop of `create_ladder_chart`: one bar per row in the sorted
   * order, coloured by the row's original position; the first colour
   * lookup into an empty palette fails.
   */
  method AddLadderBars(frame: LadderFrame, palette: seq<string>, order: seq<nat>)
    returns (r: Result<seq<LadderBar>, ChartError>)
    requires frame.Valid() && InRange(order, |frame.funds|)
    ensures order != [] && |palette| == 0 ==> r == Err(EmptyPalette)
    ensures order == [] || |palette| > 0 ==> r == Ok(RowBars(frame, palette, order))
  {
    var bars: seq<LadderBar> := [];
    for k := 0 to |order|
      invariant k > 0 ==> |palette| > 0
      invariant bars == RowBars(frame, palette, order[..k])
    {
      if |palette| == 0 {
        return Err(EmptyPalette);
      }
      assert order[..k + 1] == order[..k] + [order[k]];
      var i := order[k];
      bars := bars + [LadderBar(i, frame.funds[i], frame.maturities[i], frame.amounts[i], frame.yieldPcts[i],
                                frame.incomes[i], palette[i % |palette|])];
    }
    assert order[..|order|] == order;
    r := Ok(bars);
  }

  /**
   * `create_ladder_chart`: collects the midpoints fund by fund, derives
   * amounts, yields and incomes, sorts the rows by midpoint and adds one
   * coloured bar per row, then the connecting line.
   */
  method CreateLadderChart(alloc: Allocation, data: BondData, investment: real, palette: seq<string>)
    returns (r: Result<LadderData, ChartError>)
    ensures r == LadderChart(alloc, data, investment, palette)
  {
    var collected := CollectMaturities(alloc, data);
    if collected.Err? {
      return Err(collected.error);
    }
    var maturities := collected.value;
    ghost var recs := MaturityData(alloc, data).value;
    var funds := seq(|alloc|, i requires 0 <= i < |alloc| => alloc[i].fund);
    var amounts := Amounts(alloc, investment);
    var yieldPcts := Yields(alloc, data);
    var incomes := Incomes(amounts, yieldPcts);
    var frame := LadderFrame(funds, maturities, amounts, yieldPcts, incomes);
    assert frame == Frame(alloc, data, investment, recs);
    var order := StableOrder(maturities);
    var bars := AddLadderBars(frame, palette, order);
    if bars.Err? {
      return Err(bars.error);
    }
    var maturityPoints := seq(|order|, k requires 0 <= k < |order| => maturities[order[k]]);
    var amountPoints := seq(|order|, k requires 0 <= k < |order| => amounts[order[k]]);
    r := Ok(LadderData(bars.value, maturityPoints, amountPoints));
  }
}
