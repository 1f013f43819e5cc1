/** The merged summary table as the page builds it: the two groupings are
    joined on device type, then the kWh, cost and tip columns are assigned
    into the joined table one after another, and the two totals are the
    sums of the kWh and cost columns. */
module MergedFrame {

  import opened RealSums
  import opened Aggregation
  import opened Summary
  import EnergyTips

  /** The keys of the left table that also occur in the right table, in
      the left table's order: the rows an inner join keeps. */
  function JoinKeys(keys: seq<string>, right: map<string, nat>): (joined: seq<string>)
    ensures |joined| <= |keys|
    ensures forall k :: k in joined <==> k in keys && k in right
  {
    if |keys| == 0 then []
    else (if keys[0] in right then [keys[0]] else []) + JoinKeys(keys[1..], right)
  }

  /** The join works row by row: joining two stacked tables is stacking
      their joins, so the kept keys stay in the left table's order. */
  lemma {:induction false} JoinConcat(a: seq<string>, b: seq<string>, right: map<string, nat>)
    ensures JoinKeys(a + b, right) == JoinKeys(a, right) + JoinKeys(b, right)
  {
    if |a| == 0 {
      assert a + b == b;
    } else {
      assert (a + b)[1..] == a[1..] + b;
      JoinConcat(a[1..], b, right);
    }
  }

  /** The join keeps each matched left key as many times as it occurs, and
      no unmatched key. */
  lemma {:induction false} JoinMultiplicity(keys: seq<string>, right: map<string, nat>)
    ensures forall k :: multiset(JoinKeys(keys, right))[k] == (if k in right then multiset(keys)[k] else 0)
  {
    if |keys| > 0 {
      assert keys == [keys[0]] + keys[1..];
      JoinMultiplicity(keys[1..], right);
    }
  }

  /** An inner join whose right table holds every key of the left table
      keeps every row of the left table, in order. */
  lemma {:induction false} JoinKeepsEveryRow(keys: seq<string>, right: map<string, nat>)
    requires forall k :: k in keys ==> k in right
    ensures JoinKeys(keys, right) == keys
  {
    if |keys| > 0 {
      assert forall k :: k in keys[1..] ==> k in keys;
      JoinKeepsEveryRow(keys[1..], right);
    }
  }

  /** A key of the left table missing from the right table loses its row,
      so the joined table is shorter. */
  lemma {:induction false} JoinDropsUnmatched(keys: seq<string>, right: map<string, nat>, k: string)
    requires k in keys && k !in right
    ensures k !in JoinKeys(keys, right)
    ensures |JoinKeys(keys, right)| < |keys|
  {
    if keys[0] != k {
      JoinDropsUnmatched(keys[1..], right, k);
    }
  }

  /** Six columns of equal length read as rows. */
  function Table(devices: seq<string>, watts: seq<real>, counts: seq<nat>, kWh: seq<real>, costs: seq<real>, tips: seq<string>): (rows: seq<DeviceSummary>)
    requires |watts| == |devices| && |counts| == |devices| && |kWh| == |devices|
    requires |costs| == |devices| && |tips| == |devices|
    ensures |rows| == |devices|
    ensures UsageColumn(rows) == kWh
    ensures CostColumn(rows) == costs
  {
    var rows := seq(|devices|, i requires 0 <= i < |devices| =>
      DeviceSummary(devices[i], watts[i], counts[i], kWh[i], costs[i], tips[i]));
    assert UsageColumn(rows) == kWh;
    assert CostColumn(rows) == costs;
    rows
  }

  /** Columns holding, per key, the summed wattage, the count, the kWh
      figure, its cost and the tip read as the summary rows of those keys. */
  lemma TableOfSummaryColumns(keys: seq<string>, usage: map<string, real>, counts: map<string, nat>, rate: real,
                              watts: seq<real>, hours: seq<nat>, kWh: seq<real>, costs: seq<real>, tips: seq<string>)
    requires forall k :: k in keys ==> k in usage && k in counts
    requires |watts| == |keys| && |hours| == |keys| && |kWh| == |keys| && |costs| == |keys| && |tips| == |keys|
    requires forall i :: 0 <= i < |keys| ==> watts[i] == usage[keys[i]] && hours[i] == counts[keys[i]]
    requires forall i :: 0 <= i < |keys| ==> kWh[i] == watts[i] / 1000.0
    requires forall i :: 0 <= i < |keys| ==> costs[i] == Cost(kWh[i], rate)
    requires forall i :: 0 <= i < |keys| ==> tips[i] == EnergyTips.Tip(keys[i])
    ensures Table(keys, watts, hours, kWh, costs, tips) == SummaryRows(keys, usage, counts, rate)
  {
  }

  /** The merged table: one sequence per column. The join fills the first
      three columns; the others are assigned afterwards. */
  class Frame {
    var deviceType: seq<string>
    var powerWatt: seq<real>
    var hoursOn: seq<nat>
    var monthlyKWh: seq<real>
    var estimatedCost: seq<real>
    var energyTip: seq<string>

    /** The joined columns have one entry per row. */
    predicate Joined()
      reads this
    {
      |powerWatt| == |deviceType| && |hoursOn| == |deviceType|
    }

    /** Every column has one entry per row. */
    predicate Complete()
      reads this
    {
      && Joined()
      && |monthlyKWh| == |deviceType|
      && |estimatedCost| == |deviceType|
      && |energyTip| == |deviceType|
    }

    /** The inner join of the summed wattage (by device type, in the order
        of the key column) with the record counts (by device type). */
    constructor Merge(keys: seq<string>, usage: map<string, real>, counts: map<string, nat>)
      requires forall k :: k in keys ==> k in usage
      ensures deviceType == JoinKeys(keys, counts)
      ensures Joined()
      ensures forall i :: 0 <= i < |deviceType| ==>
        deviceType[i] in usage && deviceType[i] in counts
        && powerWatt[i] == usage[deviceType[i]] && hoursOn[i] == counts[deviceType[i]]
      ensures monthlyKWh == [] && estimatedCost == [] && energyTip == []
    {
      var joined := JoinKeys(keys, counts);
      assert forall i :: 0 <= i < |joined| ==> joined[i] in keys && joined[i] in counts;
      deviceType := joined;
      powerWatt := seq(|joined|, i requires 0 <= i < |joined| => usage[joined[i]]);
      hoursOn := seq(|joined|, i requires 0 <= i < |joined| => counts[joined[i]]);
      monthlyKWh, estimatedCost, energyTip := [], [], [];
    }

    /** Assigns the kWh column: each row's wattage over 1000. */
    method DeriveMonthlyKWh()
      requires Joined()
      modifies this`monthlyKWh
      ensures |monthlyKWh| == |deviceType|
      ensures forall i :: 0 <= i < |deviceType| ==> monthlyKWh[i] == powerWatt[i] / 1000.0
    {
      var watts := powerWatt;
      monthlyKWh := seq(|watts|, i requires 0 <= i < |watts| => watts[i] / 1000.0);
    }

    /** Assigns the cost column: each row's kWh figure times the rate. */
    method DeriveEstimatedCost(rate: real)
      requires |monthlyKWh| == |deviceType|
      modifies this`estimatedCost
      ensures |estimatedCost| == |deviceType|
      ensures forall i :: 0 <= i < |deviceType| ==> estimatedCost[i] == Cost(monthlyKWh[i], rate)
    {
      var kWh := monthlyKWh;
      estimatedCost := seq(|kWh|, i requires 0 <= i < |kWh| => Cost(kWh[i], rate));
    }

    /** Assigns the tip column by looking up each row's device type. */
    method AttachTips()
      modifies this`energyTip
      ensures |energyTip| == |deviceType|
      ensures forall i :: 0 <= i < |deviceType| ==> energyTip[i] == EnergyTips.Tip(deviceType[i])
    {
      var devices := deviceType;
      energyTip := seq(|devices|, i requires 0 <= i < |devices| => EnergyTips.Tip(devices[i]));
    }

    /** The table read row by row. */
    function Rows(): (rows: seq<DeviceSummary>)
      reads this
      requires Complete()
      ensures |rows| == |deviceType|
      ensures UsageColumn(rows) == monthlyKWh
      ensures CostColumn(rows) == estimatedCost
    {
      Table(deviceType, powerWatt, hoursOn, monthlyKWh, estimatedCost, energyTip)
    }

    /** The total usage shown on the page: the kWh column summed, which is
        the total usage of the table's rows. */
    function UsageTotal(): (u: real)
      reads this
      ensures Complete() ==> u == TotalUsage(Rows())
    {
      Sum(monthlyKWh)
    }

    /** The estimated cost shown on the page: the cost column summed, which
        is the total cost of the table's rows. */
    function CostTotal(): (c: real)
      reads this
      ensures Complete() ==> c == TotalCost(Rows())
    {
      Sum(estimatedCost)
    }
  }

  /** Joins the two groupings and assigns the kWh, cost and tip columns in
      turn: the finished table holds, row for row, the summary rows of the
      key column. */
  method BuildTable(keys: seq<string>, usage: map<string, real>, counts: map<string, nat>, rate: real)
    returns (frame: Frame)
    requires forall k :: k in keys ==> k in usage && k in counts
    ensures fresh(frame)
    ensures frame.Complete()
    ensures frame.Rows() == SummaryRows(keys, usage, counts, rate)
  {
    JoinKeepsEveryRow(keys, counts);
    frame := new Frame.Merge(keys, usage, counts);
    frame.DeriveMonthlyKWh();
    frame.DeriveEstimatedCost(rate);
    frame.AttachTips();
    TableOfSummaryColumns(keys, usage, counts, rate, frame.powerWatt, frame.hoursOn, frame.monthlyKWh, frame.estimatedCost, frame.energyTip);
  }

  /** The page pipeline step by step: filter, group, build the table and
      total its kWh and cost columns. It yields the summary the functional
      model describes. */
  method Analyze(records: seq<Record>, rate: real) returns (report: Report)
    requires rate >= 0.0
    ensures report == Summarize(records, rate)
  {
    var active := Active(records);
    if |active| == 0 {
      return NoActiveDevices;
    }
    assert active[0] in records && active[0].deviceType in OnDevices(records);
    var frame := BuildTable(DeviceOrder(active), GroupSum(active), GroupCount(active), rate);
    var rows := frame.Rows();
    report := Summarized(rows, frame.UsageTotal(), frame.CostTotal());
  }
}
