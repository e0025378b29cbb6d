/**
 * The patient detail modal: one bar per numeric metric of the patient,
 * sized as a capped percentage of the metric's maximum and coloured by
 * severity, and the three risk badges below them.
 */
module PatientModal {
  import opened Styles
  import opened MockData

  /** A bar's full-scale value; every maximum in the tables is positive. */
  type Maximum = r: real | r > 0.0 witness 1.0

  /** One entry of the metric table: the field it reads and how to draw it. */
  datatype MetricConfig = MetricConfig(field: PatientField, title: string, max: Maximum, unit: string, highBad: bool)

  /** The metric table, in the order the modal lists it. */
  const MetricTable: seq<MetricConfig> := [
    MetricConfig(BmiField, "BMI", 40.0, "kg/m²", true),
    MetricConfig(Hba1cField, "HbA1c", 14.0, "%", true),
    MetricConfig(GlucoseField, "Random Glucose", 250.0, "mg/dL", true),
    MetricConfig(InsulinField, "Avg Insulin", 50.0, "µU/mL", false),
    MetricConfig(SbpField, "Systolic BP", 200.0, "mmHg", true),
    MetricConfig(DbpField, "Diastolic BP", 120.0, "mmHg", true),
    MetricConfig(HrField, "Heart Rate", 150.0, "bpm", true),
    MetricConfig(Spo2Field, "SpO2", 100.0, "%", false),
    MetricConfig(TempField, "Temperature", 42.0, "°C", true)
  ]

  /** Nine metrics; only insulin and SpO2 are "low is bad". */
  lemma MetricTableFacts()
    ensures |MetricTable| == 9
    ensures forall k :: 0 <= k < |MetricTable| ==>
      (!MetricTable[k].highBad <==> MetricTable[k].field in {InsulinField, Spo2Field})
  {
  }

  /** `Math.min((value / max) * 100, 100)`. */
  function Percentage(value: real, max: Maximum): (pct: real)
    ensures pct <= 100.0
    ensures value >= max ==> pct == 100.0
    ensures value < max ==> pct * max == value * 100.0
  {
    var p := (value / max) * 100.0;
    if p < 100.0 then p else 100.0
  }

  /**
   * The if/else chain on `colorClass`: three bands, high values bad for a
   * `highBad` metric and low values bad otherwise. The initial blue is
   * always overwritten.
   */
  function BarColourOf(pct: real, highBad: bool): (c: Colour)
    ensures c == Red || c == Yellow || c == Emerald
    ensures highBad ==>
      && (c == Red <==> pct > 80.0)
      && (c == Yellow <==> 60.0 < pct <= 80.0)
      && (c == Emerald <==> pct <= 60.0)
    ensures !highBad ==>
      && (c == Red <==> pct < 90.0)
      && (c == Yellow <==> 90.0 <= pct < 95.0)
      && (c == Emerald <==> pct >= 95.0)
  {
    if highBad then
      (if pct > 80.0 then Red else if pct > 60.0 then Yellow else Emerald)
    else
      (if pct < 90.0 then Red else if pct < 95.0 then Yellow else Emerald)
  }

  /** What one `MetricBar` draws. */
  datatype Bar = Bar(title: string, value: real, unit: string, percentage: real, colour: Colour)

  function MetricBar(value: real, config: MetricConfig): (bar: Bar)
    ensures bar.title == config.title && bar.value == value && bar.unit == config.unit
    ensures 0.0 <= value ==> 0.0 <= bar.percentage <= 100.0
    ensures value >= config.max ==> bar.percentage == 100.0
    ensures value < config.max ==> bar.percentage * config.max == value * 100.0
    ensures bar.colour == BarColourOf(bar.percentage, config.highBad)
  {
    var pct := Percentage(value, config.max);
    Bar(config.title, value, config.unit, pct, BarColourOf(pct, config.highBad))
  }

  /**
   * The bands restated on the value itself: a `highBad` bar is red above
   * 80 % of the maximum and yellow above 60 %; any other bar is red below
   * 90 % and yellow below 95 %.
   */
  lemma BarColourByValue(value: real, config: MetricConfig)
    ensures var c := MetricBar(value, config).colour;
      if config.highBad then
        && (c == Red <==> value * 100.0 > 80.0 * config.max)
        && (c == Yellow <==> 60.0 * config.max < value * 100.0 <= 80.0 * config.max)
        && (c == Emerald <==> value * 100.0 <= 60.0 * config.max)
      else
        && (c == Red <==> value * 100.0 < 90.0 * config.max)
        && (c == Yellow <==> 90.0 * config.max <= value * 100.0 < 95.0 * config.max)
        && (c == Emerald <==> value * 100.0 >= 95.0 * config.max)
  {
    var pct := Percentage(value, config.max);
    assert MetricBar(value, config).colour == BarColourOf(pct, config.highBad);
    if value >= config.max {
      assert value * 100.0 >= 100.0 * config.max;
    } else {
      ScaledBand(pct, value, config.max, 80.0);
      ScaledBand(pct, value, config.max, 60.0);
      ScaledBand(pct, value, config.max, 90.0);
      ScaledBand(pct, value, config.max, 95.0);
    }
  }

  /** Multiplying by a positive number keeps the order. */
  lemma ScaleCompare(a: real, b: real, m: real)
    requires m > 0.0
    ensures a > b <==> a * m > b * m
    ensures a < b <==> a * m < b * m
  {
    if a > b {
      assert (a - b) * m > 0.0;
    } else if a < b {
      assert (b - a) * m > 0.0;
    }
  }

  /** A band edge of the percentage is the same edge on the value scaled by 100. */
  lemma ScaledBand(pct: real, value: real, max: real, edge: real)
    requires max > 0.0 && pct * max == value * 100.0
    ensures pct < edge <==> value * 100.0 < edge * max
    ensures pct > edge <==> value * 100.0 > edge * max
  {
    ScaleCompare(pct, edge, max);
  }

  /** Systolic 170 of 200 (85 %) is red and 110 (55 %) is green; SpO2 88 is red and 96 green. */
  lemma BarColourExamples()
    ensures MetricBar(170.0, MetricTable[4]).colour == Red
    ensures MetricBar(110.0, MetricTable[4]).colour == Emerald
    ensures MetricBar(88.0, MetricTable[7]).colour == Red
    ensures MetricBar(96.0, MetricTable[7]).colour == Emerald
  {
    BarColourByValue(170.0, MetricTable[4]);
    BarColourByValue(110.0, MetricTable[4]);
    BarColourByValue(88.0, MetricTable[7]);
    BarColourByValue(96.0, MetricTable[7]);
  }

  /** `Object.entries(METRIC_CONFIG).map(...)`: a bar for each entry whose field holds a number. */
  function BarsOver(p: Patient, configs: seq<MetricConfig>): (bars: seq<Bar>)
    ensures |bars| <= |configs|
    ensures (forall k :: 0 <= k < |configs| ==> configs[k].field in NumberFields) ==>
      |bars| == |configs|
      && forall k :: 0 <= k < |configs| ==>
           bars[k] == MetricBar(FieldOf(p, configs[k].field).num, configs[k])
    ensures (forall k :: 0 <= k < |configs| ==> configs[k].field !in NumberFields) ==> bars == []
    decreases |configs|
  {
    if configs == [] then []
    else
      var rest := BarsOver(p, configs[1..]);
      assert forall k :: 1 <= k < |configs| ==> configs[k] == configs[1..][k - 1];
      match FieldOf(p, configs[0].field)
      case Num(v) => [MetricBar(v, configs[0])] + rest
      case _ => rest
  }

  function Bars(p: Patient): (bars: seq<Bar>)
    ensures |bars| == |MetricTable|
  {
    MetricFieldsAreNumbers();
    BarsOver(p, MetricTable)
  }

  /** Every field of the table holds a number. */
  lemma MetricFieldsAreNumbers()
    ensures forall k :: 0 <= k < |MetricTable| ==> MetricTable[k].field in NumberFields
  {
  }

  /** Over numeric fields only, each entry gives its bar, drawn from the patient's value, in order. */
  lemma {:induction false} NumericBarsInOrder(p: Patient, configs: seq<MetricConfig>)
    requires forall k :: 0 <= k < |configs| ==> configs[k].field in NumberFields
    ensures |BarsOver(p, configs)| == |configs|
    ensures forall k :: 0 <= k < |configs| ==>
      FieldOf(p, configs[k].field) == Num(BarsOver(p, configs)[k].value)
      && BarsOver(p, configs)[k] == MetricBar(BarsOver(p, configs)[k].value, configs[k])
  {
  }

  /** Every field of the table is numeric, so the modal draws nine bars in table order. */
  lemma NineBarsInTableOrder(p: Patient)
    ensures |Bars(p)| == |MetricTable| == 9
    ensures forall k :: 0 <= k < |MetricTable| ==>
      FieldOf(p, MetricTable[k].field) == Num(Bars(p)[k].value)
      && Bars(p)[k] == MetricBar(Bars(p)[k].value, MetricTable[k])
  {
    MetricTableFacts();
    MetricFieldsAreNumbers();
    NumericBarsInOrder(p, MetricTable);
  }

  /** Hypoglycemia and hyperglycemia badges: DETECTED in red, NORMAL in green. */
  function GlycaemiaBadge(flag: bool): (b: Badge)
    ensures b.text == "DETECTED" <==> flag
    ensures b.text == "NORMAL" <==> !flag
    ensures b.colour == Red <==> flag
    ensures b.colour == Emerald <==> !flag
  {
    if flag then Badge("DETECTED", Red) else Badge("NORMAL", Emerald)
  }

  /** History of hypertension: YES in orange, NO in slate. */
  function HtnBadge(flag: bool): (b: Badge)
    ensures b.text == "YES" <==> flag
    ensures b.text == "NO" <==> !flag
    ensures b.colour == Orange <==> flag
    ensures b.colour == Slate <==> !flag
  {
    if flag then Badge("YES", Orange) else Badge("NO", Slate)
  }

  /** The three badges, in the order the modal shows them. */
  function Badges(p: Patient): (badges: seq<Badge>)
    ensures |badges| == 3
    ensures badges[0].text == "DETECTED" <==> p.hypoglycemia
    ensures badges[0].text == "NORMAL" <==> !p.hypoglycemia
    ensures badges[0].colour == Red <==> p.hypoglycemia
    ensures badges[0].colour == Emerald <==> !p.hypoglycemia
    ensures badges[1].text == "DETECTED" <==> p.hyperglycemia
    ensures badges[1].text == "NORMAL" <==> !p.hyperglycemia
    ensures badges[1].colour == Red <==> p.hyperglycemia
    ensures badges[1].colour == Emerald <==> !p.hyperglycemia
    ensures badges[2].text == "YES" <==> p.historyHtn
    ensures badges[2].text == "NO" <==> !p.historyHtn
    ensures badges[2].colour == Orange <==> p.historyHtn
    ensures badges[2].colour == Slate <==> !p.historyHtn
  {
    [GlycaemiaBadge(p.hypoglycemia), GlycaemiaBadge(p.hyperglycemia), HtnBadge(p.historyHtn)]
  }

  /** For a generated patient the two glycaemia badges never both read DETECTED. */
  lemma GlycaemiaBadgesExclusive(p: Patient)
    requires Plausible(p)
    ensures !(Badges(p)[0].text == "DETECTED" && Badges(p)[1].text == "DETECTED")
    ensures Badges(p)[0].text == "DETECTED" <==> p.glucoseRandom < 70
    ensures Badges(p)[1].text == "DETECTED" <==> p.glucoseRandom > 180
  {
  }
}
