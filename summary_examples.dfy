/** Worked inputs of the summary pipeline. */
module SummaryExamples {

  import opened Aggregation
  import opened Summary
  import EnergyTips

  /** Filtering two "on" light records and one "off" fan record keeps the
      two light records. */
  lemma LightsOnFanOffActive()
    ensures Active([Record("light", 60.0, "on"), Record("light", 40.0, "on"), Record("fan", 75.0, "off")])
      == [Record("light", 60.0, "on"), Record("light", 40.0, "on")]
  {
    var rs := [Record("light", 60.0, "on"), Record("light", 40.0, "on"), Record("fan", 75.0, "off")];
    assert rs[1..] == [Record("light", 40.0, "on"), Record("fan", 75.0, "off")];
    assert rs[1..][1..] == [Record("fan", 75.0, "off")];
  }

  /** The two light records group into one light entry of 100 W over two
      records. */
  lemma TwoLightsGrouped()
    ensures var active := [Record("light", 60.0, "on"), Record("light", 40.0, "on")];
      && GroupSum(active) == map["light" := 100.0]
      && GroupCount(active) == map["light" := 2]
      && DeviceOrder(active) == ["light"]
  {
    var active := [Record("light", 60.0, "on"), Record("light", 40.0, "on")];
    assert active[1..] == [Record("light", 40.0, "on")];
    assert active[..1] == [Record("light", 60.0, "on")];
  }

  /** The light row at a rate of 10 per kWh and its totals. */
  lemma LightRowAtRateTen()
    ensures var rows := SummaryRows(["light"], map["light" := 100.0], map["light" := 2], 10.0);
      && rows == [DeviceSummary("light", 100.0, 2, 0.1, 1.0, EnergyTips.LightTip)]
      && TotalUsage(rows) == 0.1
      && TotalCost(rows) == 1.0
  {
    EnergyTips.LightInAnyCase();
    var rows := [DeviceSummary("light", 100.0, 2, 0.1, 1.0, EnergyTips.LightTip)];
    assert SummaryRows(["light"], map["light" := 100.0], map["light" := 2], 10.0) == rows;
    assert UsageColumn(rows) == [0.1];
    assert CostColumn(rows) == [1.0];
  }

  /** Two "on" light records and one "off" fan record at a rate of 10 per
      kWh: a single light row of 100 W over two records, 0.1 kWh costing 1.0
      with the LED tip; the fan is left out and the totals are 0.1 and 1.0. */
  lemma LightsOnFanOff()
    ensures Summarize([Record("light", 60.0, "on"), Record("light", 40.0, "on"), Record("fan", 75.0, "off")], 10.0)
      == Summarized([DeviceSummary("light", 100.0, 2, 0.1, 1.0, EnergyTips.LightTip)], 0.1, 1.0)
  {
    LightsOnFanOffActive();
    TwoLightsGrouped();
    LightRowAtRateTen();
  }

  /** When every record is "off" the page only warns. */
  lemma AllOff(rate: real)
    requires rate >= 0.0
    ensures Summarize([Record("fan", 75.0, "off"), Record("tv", 120.0, "off")], rate) == NoActiveDevices
  {
  }

  /** The status test is case-sensitive: "On" is not "on". */
  lemma CapitalisedStatusIsNotOn(rate: real)
    requires rate >= 0.0
    ensures Summarize([Record("light", 60.0, "On")], rate) == NoActiveDevices
  {
  }

  /** "Light" and "light" are two device types of the grouping. */
  lemma TwoSpellingsOrdered()
    ensures var rs := [Record("Light", 60.0, "on"), Record("light", 40.0, "on")];
      && Active(rs) == rs
      && DeviceOrder(rs) == ["Light", "light"]
  {
    var rs := [Record("Light", 60.0, "on"), Record("light", 40.0, "on")];
    assert rs[1..] == [Record("light", 40.0, "on")];
    assert rs[..1] == [Record("Light", 60.0, "on")];
  }

  /** Grouping keeps "Light" and "light" apart, while the tip lookup gives
      both rows the LED tip. */
  lemma GroupingIsCaseSensitive(rate: real)
    requires rate >= 0.0
    ensures var rep := Summarize([Record("Light", 60.0, "on"), Record("light", 40.0, "on")], rate);
      && rep.Summarized?
      && DeviceColumn(rep.rows) == ["Light", "light"]
      && rep.rows[0].energyTip == EnergyTips.LightTip
      && rep.rows[1].energyTip == EnergyTips.LightTip
  {
    var rs := [Record("Light", 60.0, "on"), Record("light", 40.0, "on")];
    TwoSpellingsOrdered();
    EnergyTips.LightInAnyCase();
    assert "Light" in OnDevices(rs) by { assert rs[0] in rs && IsOn(rs[0]); }
    SummaryShape(rs, rate);
    SummaryRowsFigures(["Light", "light"], GroupSum(rs), GroupCount(rs), rate);
    var rows := Summarize(rs, rate).rows;
    assert rows[0] in rows && rows[1] in rows;
  }
}
