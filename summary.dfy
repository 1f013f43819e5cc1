/** The monthly energy summary: one row per active device type with its
    wattage, record count, kWh figure, cost and tip, and the two page totals. */
module Summary {

  import opened RealSums
  import opened Aggregation
  import EnergyTips

  /** One row of the summary table. */
  datatype DeviceSummary = DeviceSummary(
    deviceType: string,
    powerWatt: real,
    hoursOn: nat,
    monthlyKWh: real,
    estimatedCost: real,
    energyTip: string)

  /** What the page shows: a warning when no record is "on", otherwise the
      summary rows and the two page totals, total usage and total cost. */
  datatype Report =
    | NoActiveDevices
    | Summarized(rows: seq<DeviceSummary>, totalUsage: real, totalCost: real)

  /** The cost of an amount of energy in kWh at a rate per kWh. */
  function Cost(kWh: real, rate: real): real {
    kWh * rate
  }

  /** A non-negative amount at a non-negative rate never costs less than
      nothing. */
  lemma CostNonNegative(kWh: real, rate: real)
    requires kWh >= 0.0 && rate >= 0.0
    ensures Cost(kWh, rate) >= 0.0
  {
  }

  /** A figure multiplied by the factor k. */
  function Scaled(x: real, k: real): real {
    x * k
  }

  /** The summary row of one device type, from its summed wattage and its
      record count: the kWh figure is the wattage in thousands. */
  function SummaryRow(d: string, usage: map<string, real>, counts: map<string, nat>, rate: real): (row: DeviceSummary)
    requires d in usage && d in counts
    ensures row.deviceType == d && row.powerWatt == usage[d] && row.hoursOn == counts[d]
    ensures row.monthlyKWh * 1000.0 == row.powerWatt
  {
    var kWh := usage[d] / 1000.0;
    DeviceSummary(d, usage[d], counts[d], kWh, Cost(kWh, rate), EnergyTips.Tip(d))
  }

  /** The summary rows of a column of device types: one row per key, in
      the order of the keys, each costed at the rate. */
  function SummaryRows(keys: seq<string>, usage: map<string, real>, counts: map<string, nat>, rate: real): (rows: seq<DeviceSummary>)
    requires forall k :: k in keys ==> k in usage && k in counts
    ensures |rows| == |keys|
    ensures DeviceColumn(rows) == keys
    ensures CostsAtRate(rows, rate)
  {
    var rows := seq(|keys|, i requires 0 <= i < |keys| => SummaryRow(keys[i], usage, counts, rate));
    assert DeviceColumn(rows) == keys;
    rows
  }

  function DeviceColumn(rows: seq<DeviceSummary>): seq<string> {
    seq(|rows|, i requires 0 <= i < |rows| => rows[i].deviceType)
  }

  function UsageColumn(rows: seq<DeviceSummary>): seq<real> {
    seq(|rows|, i requires 0 <= i < |rows| => rows[i].monthlyKWh)
  }

  function CostColumn(rows: seq<DeviceSummary>): seq<real> {
    seq(|rows|, i requires 0 <= i < |rows| => rows[i].estimatedCost)
  }

  /** No row has a negative kWh figure. */
  predicate UsagesNonNegative(rows: seq<DeviceSummary>) {
    forall row :: row in rows ==> row.monthlyKWh >= 0.0
  }

  /** No row has a negative cost. */
  predicate CostsNonNegative(rows: seq<DeviceSummary>) {
    forall row :: row in rows ==> row.estimatedCost >= 0.0
  }

  /** Total monthly usage: the kWh column summed. */
  function TotalUsage(rows: seq<DeviceSummary>): real {
    Sum(UsageColumn(rows))
  }

  /** Estimated monthly cost: the cost column summed. */
  function TotalCost(rows: seq<DeviceSummary>): real {
    Sum(CostColumn(rows))
  }

  /** A table without negative kWh figures or costs has totals that are
      not negative. */
  lemma TotalsNonNegative(rows: seq<DeviceSummary>)
    ensures UsagesNonNegative(rows) ==> TotalUsage(rows) >= 0.0
    ensures CostsNonNegative(rows) ==> TotalCost(rows) >= 0.0
  {
    assert forall i :: 0 <= i < |rows| ==> rows[i] in rows;
    if UsagesNonNegative(rows) {
      SumNonNegative(UsageColumn(rows));
    }
    if CostsNonNegative(rows) {
      SumNonNegative(CostColumn(rows));
    }
  }

  /** The totals of two stacked tables are the sums of their totals. */
  lemma TotalsConcat(a: seq<DeviceSummary>, b: seq<DeviceSummary>)
    ensures TotalUsage(a + b) == TotalUsage(a) + TotalUsage(b)
    ensures TotalCost(a + b) == TotalCost(a) + TotalCost(b)
  {
    assert UsageColumn(a + b) == UsageColumn(a) + UsageColumn(b);
    assert CostColumn(a + b) == CostColumn(a) + CostColumn(b);
    SumConcat(UsageColumn(a), UsageColumn(b));
    SumConcat(CostColumn(a), CostColumn(b));
  }

  /** The whole pipeline: filter the "on" records, group them by device
      type, derive kWh, cost and tip per device, and total the columns.
      The warning is given exactly when no record is "on". */
  function Summarize(rs: seq<Record>, rate: real): (rep: Report)
    requires rate >= 0.0
    ensures rep.NoActiveDevices? <==> forall r :: r in rs ==> !IsOn(r)
    ensures rep.NoActiveDevices? <==> OnDevices(rs) == {}
  {
    var active := Active(rs);
    if |active| == 0 then
      NoActiveDevices
    else
      assert active[0] in rs && active[0].deviceType in OnDevices(rs);
      var rows := SummaryRows(DeviceOrder(active), GroupSum(active), GroupCount(active), rate);
      Summarized(rows, TotalUsage(rows), TotalCost(rows))
  }

  /** Every row's cost is its kWh figure times the rate. */
  predicate CostsAtRate(rows: seq<DeviceSummary>, rate: real) {
    forall row :: row in rows ==> row.estimatedCost == Cost(row.monthlyKWh, rate)
  }

  /** The second table is the first with every cost multiplied by k and
      nothing else changed. */
  predicate CostsScaled(before: seq<DeviceSummary>, after: seq<DeviceSummary>, k: real) {
    && |after| == |before|
    && forall i :: 0 <= i < |before| ==>
         after[i] == before[i].(estimatedCost := Scaled(before[i].estimatedCost, k))
  }

  /** Every row of a table carries the figures of its own key. */
  lemma {:induction false} SummaryRowsFigures(keys: seq<string>, usage: map<string, real>, counts: map<string, nat>, rate: real)
    requires forall k :: k in keys ==> k in usage && k in counts
    ensures DeviceColumn(SummaryRows(keys, usage, counts, rate)) == keys
    ensures forall row :: row in SummaryRows(keys, usage, counts, rate) ==>
      && row.deviceType in usage && row.deviceType in counts
      && row.powerWatt == usage[row.deviceType]
      && row.hoursOn == counts[row.deviceType]
      && row.monthlyKWh == row.powerWatt / 1000.0
      && row.estimatedCost == Cost(row.monthlyKWh, rate)
      && row.energyTip == EnergyTips.Tip(row.deviceType)
    ensures CostsAtRate(SummaryRows(keys, usage, counts, rate), rate)
  {
  }

  /** Every summary row carries the figures of its own device type: the
      summed active wattage, the number of active records (at least one),
      that wattage over 1000 as kWh, kWh times the rate as cost, and the
      looked-up tip. */
  lemma {:induction false} RowFigures(rs: seq<Record>, rate: real)
    requires rate >= 0.0
    requires OnDevices(rs) != {}
    ensures forall row :: row in Summarize(rs, rate).rows ==>
      && row.powerWatt == PowerOf(rs, row.deviceType)
      && row.hoursOn == CountOf(rs, row.deviceType)
      && row.hoursOn >= 1
      && row.monthlyKWh == row.powerWatt / 1000.0
      && row.estimatedCost == Cost(row.monthlyKWh, rate)
      && row.energyTip == EnergyTips.Tip(row.deviceType)
  {
    var active := Active(rs);
    var keys, usage, counts := DeviceOrder(active), GroupSum(active), GroupCount(active);
    assert Summarize(rs, rate).rows == SummaryRows(keys, usage, counts, rate);
    SummaryRowsFigures(keys, usage, counts, rate);
    GroupSumOfActive(rs);
    GroupCountOfActive(rs);
  }

  /** The summary has exactly one row per device type with an "on" record
      and no row for any other device type. */
  lemma {:induction false} OneRowPerDevice(rs: seq<Record>, rate: real)
    requires rate >= 0.0
    requires OnDevices(rs) != {}
    ensures NoDuplicates(DeviceColumn(Summarize(rs, rate).rows))
    ensures forall d :: d in DeviceColumn(Summarize(rs, rate).rows) <==> d in OnDevices(rs)
  {
    var active := Active(rs);
    var keys, usage, counts := DeviceOrder(active), GroupSum(active), GroupCount(active);
    assert Summarize(rs, rate).rows == SummaryRows(keys, usage, counts, rate);
    SummaryRowsFigures(keys, usage, counts, rate);
    ActiveDeviceTypes(rs);
  }

  /** Rows whose cost is their kWh times the rate total to the total usage
      times the rate. */
  lemma {:induction false} RowsTotalCost(rows: seq<DeviceSummary>, rate: real)
    requires CostsAtRate(rows, rate)
    ensures TotalCost(rows) == Cost(TotalUsage(rows), rate)
  {
    assert forall i :: 0 <= i < |rows| ==> rows[i] in rows;
    SumScaled(UsageColumn(rows), CostColumn(rows), rate);
  }

  /** Rows holding each on-device once, each with its summed wattage over
      1000 as kWh, total to the wattage of all active records over 1000. */
  lemma {:induction false} RowsTotalUsage(rows: seq<DeviceSummary>, rs: seq<Record>)
    requires NoDuplicates(DeviceColumn(rows))
    requires forall d :: d in DeviceColumn(rows) <==> d in OnDevices(rs)
    requires forall row :: row in rows ==> row.monthlyKWh == PowerOf(rs, row.deviceType) / 1000.0
    ensures TotalUsage(rows) == TotalOnPower(rs) / 1000.0
  {
    var keys := DeviceColumn(rows);
    forall i | 0 <= i < |rows| ensures UsageColumn(rows)[i] == PowerColumn(rs, keys)[i] * (1.0 / 1000.0) {
      assert rows[i] in rows;
    }
    SumScaled(PowerColumn(rs, keys), UsageColumn(rows), 1.0 / 1000.0);
    PowerColumnPartition(rs, keys);
  }

  /** The total usage is the summed wattage of all "on" records over 1000:
      no record is lost or counted twice between the rows. */
  lemma {:induction false} TotalUsageIsOnPower(rs: seq<Record>, rate: real)
    requires rate >= 0.0
    requires OnDevices(rs) != {}
    ensures Summarize(rs, rate).totalUsage == TotalOnPower(rs) / 1000.0
  {
    var rep := Summarize(rs, rate);
    RowFigures(rs, rate);
    OneRowPerDevice(rs, rate);
    RowsTotalUsage(rep.rows, rs);
  }

  /** A report whose totals are its column sums and whose costs are kWh
      times the rate has the total cost the rate times its total usage. */
  lemma {:induction false} ReportTotalCost(rep: Report, rate: real)
    requires rep.Summarized? && rep.totalUsage == TotalUsage(rep.rows) && rep.totalCost == TotalCost(rep.rows)
    requires CostsAtRate(rep.rows, rate)
    ensures rep.totalCost == Cost(rep.totalUsage, rate)
  {
    RowsTotalCost(rep.rows, rate);
  }

  /** A summary is its table of rows built from the groupings of the
      active records, totalled by its columns, with every cost the kWh
      figure times the rate. */
  lemma {:induction false} SummaryShape(rs: seq<Record>, rate: real)
    requires rate >= 0.0
    requires OnDevices(rs) != {}
    ensures var active := Active(rs);
      && (forall k :: k in DeviceOrder(active) ==> k in GroupSum(active) && k in GroupCount(active))
      && Summarize(rs, rate).rows == SummaryRows(DeviceOrder(active), GroupSum(active), GroupCount(active), rate)
    ensures Summarize(rs, rate).totalUsage == TotalUsage(Summarize(rs, rate).rows)
    ensures Summarize(rs, rate).totalCost == TotalCost(Summarize(rs, rate).rows)
    ensures CostsAtRate(Summarize(rs, rate).rows, rate)
  {
    var active := Active(rs);
    SummaryRowsFigures(DeviceOrder(active), GroupSum(active), GroupCount(active), rate);
  }

  /** The total cost is the rate times the total usage. */
  lemma {:induction false} TotalCostIsRateTimesUsage(rs: seq<Record>, rate: real)
    requires rate >= 0.0
    requires OnDevices(rs) != {}
    ensures Summarize(rs, rate).totalCost == Cost(Summarize(rs, rate).totalUsage, rate)
  {
    SummaryShape(rs, rate);
    ReportTotalCost(Summarize(rs, rate), rate);
  }

  /** With no negative wattage in the input, no row shows a negative kWh
      figure or cost, and neither total is negative. */
  lemma {:induction false} SummaryNonNegative(rs: seq<Record>, rate: real)
    requires rate >= 0.0
    requires OnDevices(rs) != {}
    requires forall r :: r in rs ==> r.powerWatt >= 0.0
    ensures forall row :: row in Summarize(rs, rate).rows ==> row.monthlyKWh >= 0.0 && row.estimatedCost >= 0.0
    ensures Summarize(rs, rate).totalUsage >= 0.0 && Summarize(rs, rate).totalCost >= 0.0
  {
    var rep := Summarize(rs, rate);
    RowFigures(rs, rate);
    SummaryShape(rs, rate);
    forall row | row in rep.rows ensures row.monthlyKWh >= 0.0 && row.estimatedCost >= 0.0 {
      PowerOfNonNegative(rs, row.deviceType);
      CostNonNegative(row.monthlyKWh, rate);
    }
    TotalsNonNegative(rep.rows);
  }

  /** At a zero rate every row of a table costs nothing, and so does the
      table. */
  lemma {:induction false} RowsAtZeroRate(rows: seq<DeviceSummary>, rate: real)
    requires rate == 0.0
    requires CostsAtRate(rows, rate)
    ensures forall row :: row in rows ==> row.estimatedCost == 0.0
    ensures TotalCost(rows) == 0.0
  {
    RowsTotalCost(rows, rate);
  }

  /** A zero rate gives zero cost on every row and in total. */
  lemma {:induction false} ZeroRate(rs: seq<Record>, rate: real)
    requires rate == 0.0
    requires OnDevices(rs) != {}
    ensures forall row :: row in Summarize(rs, rate).rows ==> row.estimatedCost == 0.0
    ensures Summarize(rs, rate).totalCost == 0.0
  {
    var active := Active(rs);
    var keys, usage, counts := DeviceOrder(active), GroupSum(active), GroupCount(active);
    var rep := Summarize(rs, rate);
    assert rep.rows == SummaryRows(keys, usage, counts, rate);
    assert rep.totalCost == TotalCost(rep.rows);
    SummaryRowsFigures(keys, usage, counts, rate);
    RowsAtZeroRate(rep.rows, rate);
  }

  /** One row built at k times the rate is the row built at the rate with
      its cost scaled by k. */
  lemma {:induction false} SummaryRowScaled(d: string, usage: map<string, real>, counts: map<string, nat>, rate: real, scaledRate: real, k: real)
    requires d in usage && d in counts
    requires scaledRate == Scaled(rate, k)
    ensures SummaryRow(d, usage, counts, scaledRate)
      == SummaryRow(d, usage, counts, rate).(estimatedCost := Scaled(SummaryRow(d, usage, counts, rate).estimatedCost, k))
  {
    var kWh := usage[d] / 1000.0;
    assert kWh * (rate * k) == (kWh * rate) * k;
  }

  /** A table built at k times the rate is the table built at the rate
      with every cost scaled by k. */
  lemma {:induction false} SummaryRowsScaled(keys: seq<string>, usage: map<string, real>, counts: map<string, nat>, rate: real, scaledRate: real, k: real)
    requires forall key :: key in keys ==> key in usage && key in counts
    requires scaledRate == Scaled(rate, k)
    ensures CostsScaled(SummaryRows(keys, usage, counts, rate), SummaryRows(keys, usage, counts, scaledRate), k)
  {
    var before, after := SummaryRows(keys, usage, counts, rate), SummaryRows(keys, usage, counts, scaledRate);
    forall i | 0 <= i < |keys|
      ensures after[i] == before[i].(estimatedCost := Scaled(before[i].estimatedCost, k))
    {
      SummaryRowScaled(keys[i], usage, counts, rate, scaledRate, k);
    }
  }

  /** Scaling every cost by k keeps the total usage and scales the total
      cost by k. */
  lemma {:induction false} RowsScaledTotals(before: seq<DeviceSummary>, after: seq<DeviceSummary>, k: real)
    requires CostsScaled(before, after, k)
    ensures TotalUsage(after) == TotalUsage(before)
    ensures TotalCost(after) == Scaled(TotalCost(before), k)
  {
    assert UsageColumn(after) == UsageColumn(before);
    SumScaled(CostColumn(before), CostColumn(after), k);
  }

  /** Two reports whose totals are their column sums and whose rows differ
      only in costs scaled by k have the same total usage and total costs
      that differ by the factor k. */
  lemma {:induction false} ReportsScaledTotals(before: Report, after: Report, k: real)
    requires before.Summarized? && before.totalUsage == TotalUsage(before.rows) && before.totalCost == TotalCost(before.rows)
    requires after.Summarized? && after.totalUsage == TotalUsage(after.rows) && after.totalCost == TotalCost(after.rows)
    requires CostsScaled(before.rows, after.rows, k)
    ensures after.totalUsage == before.totalUsage
    ensures after.totalCost == Scaled(before.totalCost, k)
  {
    RowsScaledTotals(before.rows, after.rows, k);
  }

  /** A summary at the rate scaled by k has the same rows as the summary at
      the rate except that every cost is scaled by k; the total usage stays
      and the total cost scales by k. With k = 2, doubling the rate doubles
      every cost and the total cost. */
  lemma {:induction false} RateScaling(rs: seq<Record>, rate: real, scaledRate: real, k: real)
    requires rate >= 0.0 && scaledRate >= 0.0 && scaledRate == Scaled(rate, k)
    ensures Summarize(rs, scaledRate).NoActiveDevices? == Summarize(rs, rate).NoActiveDevices?
    ensures Summarize(rs, rate).Summarized? ==>
      && CostsScaled(Summarize(rs, rate).rows, Summarize(rs, scaledRate).rows, k)
      && Summarize(rs, scaledRate).totalUsage == Summarize(rs, rate).totalUsage
      && Summarize(rs, scaledRate).totalCost == Scaled(Summarize(rs, rate).totalCost, k)
  {
    if Summarize(rs, rate).Summarized? {
      var active := Active(rs);
      var keys, usage, counts := DeviceOrder(active), GroupSum(active), GroupCount(active);
      var before, after := Summarize(rs, rate), Summarize(rs, scaledRate);
      assert before.rows == SummaryRows(keys, usage, counts, rate);
      assert after.rows == SummaryRows(keys, usage, counts, scaledRate);
      assert before.totalUsage == TotalUsage(before.rows) && before.totalCost == TotalCost(before.rows);
      assert after.totalUsage == TotalUsage(after.rows) && after.totalCost == TotalCost(after.rows);
      SummaryRowsScaled(keys, usage, counts, rate, scaledRate, k);
      ReportsScaledTotals(before, after, k);
    }
  }

  /** Doubling the rate doubles every cost and the total cost and keeps
      the total usage. */
  lemma {:induction false} DoubledRate(rs: seq<Record>, rate: real)
    requires rate >= 0.0
    requires OnDevices(rs) != {}
    ensures Summarize(rs, 2.0 * rate).Summarized?
    ensures forall i :: 0 <= i < |Summarize(rs, rate).rows| ==>
      && i < |Summarize(rs, 2.0 * rate).rows|
      && Summarize(rs, 2.0 * rate).rows[i].estimatedCost == 2.0 * Summarize(rs, rate).rows[i].estimatedCost
    ensures Summarize(rs, 2.0 * rate).totalUsage == Summarize(rs, rate).totalUsage
    ensures Summarize(rs, 2.0 * rate).totalCost == 2.0 * Summarize(rs, rate).totalCost
  {
    RateScaling(rs, rate, 2.0 * rate, 2.0);
  }

  /** A record that is not "on" changes nothing, wherever it stands. */
  lemma {:induction false} InactiveRecordIgnored(before: seq<Record>, x: Record, after: seq<Record>, rate: real)
    requires rate >= 0.0
    requires !IsOn(x)
    ensures Summarize(before + [x] + after, rate) == Summarize(before + after, rate)
  {
    ActiveIgnoresInactive(before, x, after);
  }
}
