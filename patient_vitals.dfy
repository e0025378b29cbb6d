/**
 * The "Detailed Biometrics" card of the patient page: the vital-sign table
 * with its one text entry (the diabetes status), the bar or text shown for
 * each entry, and the two glycaemia readings.
 */
module PatientVitals {
  import opened JsBuiltins
  import opened Styles
  import opened MockData
  import opened PatientModal

  /**
   * One entry of the card's table: a bar (`max`, `unit`, `highBad`) or,
   * with `type: 'text'`, the field's text in a coloured word.
   */
  datatype VitalConfig =
    | Gauge(field: PatientField, title: string, max: Maximum, unit: string, highBad: bool)
    | TextEntry(field: PatientField, title: string)

  /** The table in display order, with the diabetes status between blood pressure and glucose. */
  const VitalTable: seq<VitalConfig> := [
    Gauge(SbpField, "Systolic BP", 200.0, "mmHg", true),
    Gauge(DbpField, "Diastolic BP", 120.0, "mmHg", true),
    TextEntry(DiabetesField, "Diabetes Status"),
    Gauge(GlucoseField, "Random Glucose", 250.0, "mg/dL", true),
    Gauge(Hba1cField, "HbA1c", 14.0, "%", true),
    Gauge(BmiField, "BMI", 40.0, "kg/m²", true),
    Gauge(InsulinField, "Avg Insulin", 50.0, "µU/mL", false),
    Gauge(HrField, "Heart Rate", 150.0, "bpm", true),
    Gauge(Spo2Field, "SpO2", 100.0, "%", false),
    Gauge(TempField, "Temperature", 42.0, "°C", true)
  ]

  function FieldsOf(configs: seq<VitalConfig>): (fields: seq<PatientField>)
    ensures |fields| == |configs|
    ensures forall k :: 0 <= k < |configs| ==> fields[k] == configs[k].field
  {
    seq(|configs|, k requires 0 <= k < |configs| => configs[k].field)
  }

  /**
   * The card lists ten entries in the order sbp, dbp, diabetes, glucose,
   * HbA1c, BMI, insulin, heart rate, SpO2, temperature; only the third is
   * text, and every bar is drawn exactly as the modal draws that metric.
   */
  lemma VitalTableLayout()
    ensures FieldsOf(VitalTable) == [SbpField, DbpField, DiabetesField, GlucoseField, Hba1cField,
                                     BmiField, InsulinField, HrField, Spo2Field, TempField]
    ensures forall k :: 0 <= k < |VitalTable| ==> (VitalTable[k].TextEntry? <==> k == 2)
    ensures forall k :: 0 <= k < |VitalTable| && VitalTable[k].Gauge? ==>
      var g := VitalTable[k];
      MetricConfig(g.field, g.title, g.max, g.unit, g.highBad) in MetricTable
  {
    var fields := FieldsOf(VitalTable);
    assert fields == [SbpField, DbpField, DiabetesField, GlucoseField, Hba1cField,
                      BmiField, InsulinField, HrField, Spo2Field, TempField];
  }

  /** What one entry shows: a coloured word, or a bar whose percentage `None` is NaN. */
  datatype VitalItem =
    | TextItem(title: string, value: FieldValue, colour: Colour)
    | BarItem(title: string, value: FieldValue, unit: string, percentage: Option<real>, colour: Colour)

  /**
   * The card's `MetricBar`. A text entry is green exactly when the value is
   * the string "None". A bar entry scales `value as number`; a value that
   * is not a number divides to NaN, which fails every band test and so
   * falls through to green.
   */
  function VitalMetric(value: FieldValue, config: VitalConfig): (item: VitalItem)
    ensures item.title == config.title && item.value == value
    ensures item.colour == Red || item.colour == Yellow || item.colour == Emerald
    ensures config.TextEntry? ==>
      && item.TextItem?
      && (item.colour == Emerald <==> value == Str("None"))
      && (item.colour == Red <==> value != Str("None"))
    ensures config.Gauge? ==> item.BarItem? && item.unit == config.unit
    ensures config.Gauge? && value.Num? ==> item.percentage.Some? && item.percentage.value <= 100.0
  {
    match config
    case TextEntry(_, title) =>
      TextItem(title, value, if value == Str("None") then Emerald else Red)
    case Gauge(_, title, max, unit, highBad) =>
      match value
      case Num(v) =>
        var scaled := (v / max) * 100.0;
        var pct := if scaled < 100.0 then scaled else 100.0;
        var colour :=
          if highBad then (if pct > 80.0 then Red else if pct > 60.0 then Yellow else Emerald)
          else (if pct < 90.0 then Red else if pct < 95.0 then Yellow else Emerald);
        BarItem(title, value, unit, Some(pct), colour)
      case _ =>
        BarItem(title, value, unit, None, Emerald)
  }

  /** For a number, the card's bar has the modal's percentage and the modal's colour. */
  lemma VitalBarMatchesModal(v: real, field: PatientField, title: string, max: Maximum, unit: string, highBad: bool)
    ensures var bar := MetricBar(v, MetricConfig(field, title, max, unit, highBad));
      VitalMetric(Num(v), Gauge(field, title, max, unit, highBad))
        == BarItem(title, Num(v), unit, Some(bar.percentage), bar.colour)
  {
  }

  /** `Object.entries(METRIC_CONFIG).map(...)`: an item for each entry whose field is a string or a number. */
  function ItemsOver(p: Patient, configs: seq<VitalConfig>): (items: seq<VitalItem>)
    ensures |items| <= |configs|
    ensures (forall k :: 0 <= k < |configs| ==> configs[k].field in NumberFields + StringFields) ==>
      |items| == |configs|
      && forall k :: 0 <= k < |configs| ==>
           items[k] == VitalMetric(FieldOf(p, configs[k].field), configs[k])
    ensures (forall k :: 0 <= k < |configs| ==> configs[k].field !in NumberFields + StringFields) ==> items == []
    decreases |configs|
  {
    if configs == [] then []
    else
      var rest := ItemsOver(p, configs[1..]);
      assert forall k :: 1 <= k < |configs| ==> configs[k] == configs[1..][k - 1];
      var value := FieldOf(p, configs[0].field);
      if value.Str? || value.Num? then [VitalMetric(value, configs[0])] + rest else rest
  }

  function VitalItems(p: Patient): (items: seq<VitalItem>)
    ensures |items| == |VitalTable| == 10
    ensures forall k :: 0 <= k < |items| ==> items[k].title == VitalTable[k].title
  {
    VitalFieldsAreShown();
    ShownItemsInOrder(p, VitalTable);
    ItemsOver(p, VitalTable)
  }

  /** No field of the table is a flag, so all ten entries are shown, in table order. */
  lemma TenItemsInTableOrder(p: Patient)
    ensures |VitalItems(p)| == |VitalTable| == 10
    ensures forall k :: 0 <= k < |VitalTable| ==>
      VitalItems(p)[k] == VitalMetric(FieldOf(p, VitalTable[k].field), VitalTable[k])
  {
    VitalFieldsAreShown();
    ShownItemsInOrder(p, VitalTable);
  }

  /** Over string and number fields only, each entry gives its item, in order. */
  lemma {:induction false} ShownItemsInOrder(p: Patient, configs: seq<VitalConfig>)
    requires forall k :: 0 <= k < |configs| ==> configs[k].field in NumberFields + StringFields
    ensures |ItemsOver(p, configs)| == |configs|
    ensures forall k :: 0 <= k < |configs| ==>
      ItemsOver(p, configs)[k] == VitalMetric(FieldOf(p, configs[k].field), configs[k])
  {
  }

  /** Every field of the table holds a string or a number. */
  lemma VitalFieldsAreShown()
    ensures |VitalTable| == 10
    ensures forall k :: 0 <= k < |VitalTable| ==> VitalTable[k].field in NumberFields + StringFields
  {
  }

  /** The diabetes status shows in green exactly for a patient without diabetes. */
  lemma DiabetesStatusGreenIffNone(p: Patient)
    ensures |VitalItems(p)| == 10
    ensures VitalItems(p)[2].TextItem?
    ensures VitalItems(p)[2].value == Str(DiabetesLabel(p.diabetes))
    ensures VitalItems(p)[2].colour == Emerald <==> p.diabetes == NoDiabetes
  {
    var value := FieldOf(p, DiabetesField);
    assert value == Str(DiabetesLabel(p.diabetes));
    var entry := VitalTable[2];
    assert entry == TextEntry(DiabetesField, "Diabetes Status");
    TenItemsInTableOrder(p);
    assert VitalItems(p)[2] == VitalMetric(value, entry);
  }

  /** The hypo- and hyperglycaemia readings: DETECTED in red, NEGATIVE in green. */
  function GlycaemiaReading(flag: bool): (b: Badge)
    ensures b.text == "DETECTED" <==> flag
    ensures b.text == "NEGATIVE" <==> !flag
    ensures b.colour == Red <==> flag
    ensures b.colour == Emerald <==> !flag
  {
    if flag then Badge("DETECTED", Red) else Badge("NEGATIVE", Emerald)
  }

  function Readings(p: Patient): (readings: seq<Badge>)
    ensures |readings| == 2
    ensures readings[0].text == "DETECTED" <==> p.hypoglycemia
    ensures readings[0].text == "NEGATIVE" <==> !p.hypoglycemia
    ensures readings[0].colour == Red <==> p.hypoglycemia
    ensures readings[0].colour == Emerald <==> !p.hypoglycemia
    ensures readings[1].text == "DETECTED" <==> p.hyperglycemia
    ensures readings[1].text == "NEGATIVE" <==> !p.hyperglycemia
    ensures readings[1].colour == Red <==> p.hyperglycemia
    ensures readings[1].colour == Emerald <==> !p.hyperglycemia
  {
    [GlycaemiaReading(p.hypoglycemia), GlycaemiaReading(p.hyperglycemia)]
  }

  /** The card and the modal agree on every glycaemia flag; only the word for "no" differs. */
  lemma ReadingsAgreeWithModal(p: Patient)
    ensures forall k :: 0 <= k < 2 ==>
      && Readings(p)[k].colour == Badges(p)[k].colour
      && (Readings(p)[k].text == "DETECTED" <==> Badges(p)[k].text == "DETECTED")
  {
  }
}
