/**
 * The synthetic patient cohort: the `Patient` record, the seeded
 * linear-congruential generator `SeededRandom`, the `generateUsers` loop and
 * the fixed cohort `MOCK_PATIENTS` built from seed 12345 at start-up.
 *
 * Fractional fields with one decimal (bmi, hba1c, insulin_avg, temp_mean)
 * are held as integers counting tenths: a bmi of 31.4 is 314.
 * A draw of the generator is the fraction u / 233280 of its new state u;
 * every draw is stated over the integer u.
 */
module MockData {
  import opened JsBuiltins

  datatype Sex = Male | Female

  datatype Diabetes = Type1 | Type2 | NoDiabetes

  function SexLabel(s: Sex): (r: string)
    ensures r == "Male" <==> s == Male
    ensures r == "Female" <==> s == Female
  {
    match s
    case Male => "Male"
    case Female => "Female"
  }

  function DiabetesLabel(d: Diabetes): (r: string)
    ensures r == "None" <==> d == NoDiabetes
  {
    match d
    case Type1 => "Type 1"
    case Type2 => "Type 2"
    case NoDiabetes => "None"
  }

  datatype Patient = Patient(
    id: string,
    name: string,
    age: int,
    sex: Sex,
    bmi: int,            // tenths of kg/m2
    hba1c: int,          // tenths of a percent
    glucoseRandom: int,  // mg/dL
    hypoglycemia: bool,
    hyperglycemia: bool,
    diabetes: Diabetes,
    insulinAvg: int,     // tenths of uU/mL
    sbpMean: int,
    dbpMean: int,
    historyHtn: bool,
    hrMean: int,
    spo2Mean: int,
    tempMean: int        // tenths of a degree Celsius
  )

  // ---------------------------------------------------------------------
  // Reading a patient by key, as `patient[key as keyof Patient]` does
  // ---------------------------------------------------------------------

  /** The keys of the `Patient` record. */
  datatype PatientField =
    | IdField | NameField | AgeField | SexField | BmiField | Hba1cField | GlucoseField
    | HypoField | HyperField | DiabetesField | InsulinField | SbpField | DbpField
    | HtnField | HrField | Spo2Field | TempField

  /** A field's JavaScript value: a number, a string or a boolean. */
  datatype FieldValue = Num(num: real) | Str(str: string) | Flag(flag: bool)

  function Tenths(x: int): real { x as real / 10.0 }

  /** The keys whose values are numbers. */
  const NumberFields: set<PatientField> :=
    {AgeField, BmiField, Hba1cField, GlucoseField, InsulinField, SbpField, DbpField, HrField, Spo2Field, TempField}

  /** The keys whose values are strings. */
  const StringFields: set<PatientField> := {IdField, NameField, SexField, DiabetesField}

  function FieldOf(p: Patient, f: PatientField): (v: FieldValue)
    ensures v.Num? <==> f in NumberFields
    ensures v.Str? <==> f in StringFields
  {
    match f
    case IdField => Str(p.id)
    case NameField => Str(p.name)
    case AgeField => Num(p.age as real)
    case SexField => Str(SexLabel(p.sex))
    case BmiField => Num(Tenths(p.bmi))
    case Hba1cField => Num(Tenths(p.hba1c))
    case GlucoseField => Num(p.glucoseRandom as real)
    case HypoField => Flag(p.hypoglycemia)
    case HyperField => Flag(p.hyperglycemia)
    case DiabetesField => Str(DiabetesLabel(p.diabetes))
    case InsulinField => Num(Tenths(p.insulinAvg))
    case SbpField => Num(p.sbpMean as real)
    case DbpField => Num(p.dbpMean as real)
    case HtnField => Flag(p.historyHtn)
    case HrField => Num(p.hrMean as real)
    case Spo2Field => Num(p.spo2Mean as real)
    case TempField => Num(Tenths(p.tempMean))
  }

  const FirstNames: seq<string> := [
    "James", "Mary", "Robert", "Patricia", "John", "Jennifer", "Michael", "Linda", "David", "Elizabeth",
    "William", "Barbara", "Richard", "Susan", "Joseph", "Jessica", "Thomas", "Sarah", "Charles", "Karen",
    "Christopher", "Nancy", "Daniel", "Lisa", "Matthew", "Margaret", "Anthony", "Betty", "Mark", "Sandra"
  ]

  const LastNames: seq<string> := [
    "Smith", "Johnson", "Williams", "Brown", "Jones", "Garcia", "Miller", "Davis", "Rodriguez", "Martinez",
    "Hernandez", "Lopez", "Gonzalez", "Wilson", "Anderson", "Thomas", "Taylor", "Moore", "Jackson", "Martin"
  ]

  /**
   * The two name pools. The draws are stated over a `NamePools` value so that
   * reasoning about one patient does not unfold thirty string literals.
   */
  datatype NamePools = NamePools(first: seq<string>, last: seq<string>)

  const Pools: NamePools := NamePools(FirstNames, LastNames)

  // ---------------------------------------------------------------------
  // The linear-congruential generator
  // ---------------------------------------------------------------------

  const Modulus: int := 233280
  const Multiplier: int := 9301
  const Increment: int := 49297

  /** One step of the recurrence `seed := (seed * 9301 + 49297) % 233280`, with JavaScript's `%`. */
  function Step(s: int): (t: int)
    ensures s >= 0 ==> 0 <= t < Modulus
  {
    JsRem(s * Multiplier + Increment, Modulus)
  }

  /** The state after `k` steps. */
  ghost function Advance(s: int, k: nat): int
    decreases k
  {
    if k == 0 then s else Step(Advance(s, k - 1))
  }

  /** The value `next()` returns once the state is `u`. */
  function Fraction(u: int): (x: real)
    ensures 0 <= u < Modulus ==> 0.0 <= x < 1.0
  {
    u as real / Modulus as real
  }

  /** `Math.floor(next() * (max - min + 1)) + min`, over the exact fraction. */
  function IntFrom(u: int, min: int, max: int): (r: int)
    ensures 0 <= u < Modulus && min <= max ==> min <= r <= max
  {
    var n := max - min + 1;
    ScaledFloorBelow(u, n);
    u * n / Modulus + min
  }

  /**
   * `parseFloat((next() * (max - min) + min).toFixed(1))` in tenths: the bounds
   * `lo` and `hi` are tenths too, and toFixed rounds a tie up.
   */
  function TenthsFrom(u: int, lo: int, hi: int): (r: int)
    ensures 0 <= u < Modulus && lo <= hi ==> lo <= r <= hi
  {
    var d := hi - lo;
    RoundedBelow(u, d);
    lo + (2 * (u * d) + Modulus) / (2 * Modulus)
  }

  /** `arr[Math.floor(next() * arr.length)]`; `None` is JavaScript's `undefined`. */
  function ElementFrom<T>(u: int, arr: seq<T>): (r: Option<T>)
    ensures 0 <= u < Modulus && |arr| > 0 ==> r.Some?
  {
    var k := u * |arr| / Modulus;
    ScaledFloorBelow(u, |arr|);
    if 0 <= k < |arr| then Some(arr[k]) else None
  }

  /** `element(arr)` picks a member of any non-empty array. */
  lemma ElementIsMember<T>(u: int, arr: seq<T>)
    ensures 0 <= u < Modulus && |arr| > 0 ==>
      exists k :: 0 <= k < |arr| && ElementFrom(u, arr) == Some(arr[k])
    ensures 0 <= u < Modulus && |arr| > 0 ==>
      ElementFrom(u, arr).Some? && ElementFrom(u, arr).value in arr
  {
    ScaledFloorBelow(u, |arr|);
    var k := u * |arr| / Modulus;
    if 0 <= u < Modulus && |arr| > 0 {
      assert ElementFrom(u, arr) == Some(arr[k]);
    }
  }

  /** `next() < chance`. */
  predicate ChanceFrom(u: int, chance: real)
  {
    Fraction(u) < chance
  }

  lemma MulMonotone(a: int, b: int, c: int)
    requires 0 <= a <= b && c >= 0
    ensures a * c <= b * c
  {
    assert (b - a) * c >= 0;
  }

  /** A scaled draw `floor(u / 233280 * n)` lies in [0, n). */
  lemma ScaledFloorBelow(u: int, n: int)
    ensures 0 <= u < Modulus && n >= 1 ==> 0 <= u * n / Modulus < n
  {
    if 0 <= u < Modulus && n >= 1 {
      MulMonotone(0, u, n);
      MulMonotone(u, Modulus - 1, n);
      var q := u * n / Modulus;
      if q >= n {
        MulMonotone(n, q, Modulus);
        assert false;
      }
    }
  }

  /** A rounded draw `round(u / 233280 * d)` lies in [0, d]. */
  lemma RoundedBelow(u: int, d: int)
    ensures 0 <= u < Modulus && d >= 0 ==> 0 <= (2 * (u * d) + Modulus) / (2 * Modulus) <= d
  {
    if 0 <= u < Modulus && d >= 0 {
      MulMonotone(0, u, d);
      MulMonotone(u, Modulus - 1, d);
      var q := (2 * (u * d) + Modulus) / (2 * Modulus);
      if q > d {
        MulMonotone(d + 1, q, 2 * Modulus);
        assert false;
      }
    }
  }

  /**
   * The generator object. `next()` is private in the source; the public
   * draws each advance the state once and map the new state to a value.
   */
  class SeededRandom {
    var seed: int

    constructor (seed: int)
      ensures this.seed == seed
    {
      this.seed := seed;
    }

    method Next() returns (x: real)
      modifies this
      ensures seed == Step(old(seed)) && x == Fraction(seed)
      ensures old(seed) >= 0 ==> 0.0 <= x < 1.0
    {
      seed := Step(seed);
      x := Fraction(seed);
    }

    method Int(min: int, max: int) returns (r: int)
      modifies this
      ensures seed == Step(old(seed)) && r == IntFrom(seed, min, max)
      ensures old(seed) >= 0 && min <= max ==> min <= r <= max
    {
      var _ := Next();
      r := IntFrom(seed, min, max);
    }

    /** `float(min, max, 1)` with both bounds and the result in tenths. */
    method Float(lo: int, hi: int) returns (r: int)
      modifies this
      ensures seed == Step(old(seed)) && r == TenthsFrom(seed, lo, hi)
      ensures old(seed) >= 0 && lo <= hi ==> lo <= r <= hi
    {
      var _ := Next();
      r := TenthsFrom(seed, lo, hi);
    }

    method Element<T>(arr: seq<T>) returns (r: Option<T>)
      modifies this
      ensures seed == Step(old(seed)) && r == ElementFrom(seed, arr)
      ensures old(seed) >= 0 && |arr| > 0 ==> r.Some?
    {
      var _ := Next();
      r := ElementFrom(seed, arr);
    }

    method Bool(chance: real) returns (r: bool)
      modifies this
      ensures seed == Step(old(seed)) && r == ChanceFrom(seed, chance)
    {
      var x := Next();
      r := x < chance;
    }
  }

  // ---------------------------------------------------------------------
  // One patient, as the loop body of generateUsers draws it
  // ---------------------------------------------------------------------

  /** `PID-${1000 + i}`. */
  function PatientId(i: nat): (r: string)
    ensures |r| >= 5 && r[..4] == "PID-" && AllDigits(r[4..]) && r[4] != '0'
  {
    "PID-" + Decimal(1000 + i)
  }

  /** The number inside an id of the form `PID-<digits>`. */
  function IdNumber(id: string): Option<nat>
  {
    if |id| >= 4 && id[..4] == "PID-" && AllDigits(id[4..]) then Some(DigitsValue(id[4..])) else None
  }

  lemma IdNumberOfPatientId(i: nat)
    ensures IdNumber(PatientId(i)) == Some(1000 + i)
  {
    var id := PatientId(i);
    assert id[..4] == "PID-" && id[4..] == Decimal(1000 + i);
    DecimalRoundTrip(1000 + i);
  }

  /** A patient with its id replaced by the id of index `i`. */
  function Renumbered(p: Patient, i: nat): Patient
  {
    p.(id := PatientId(i))
  }

  /** The text a template literal shows for a name that may be `undefined`. */
  function Shown(name: Option<string>): string
  {
    match name
    case Some(s) => s
    case None => "undefined"
  }

  /** `0.3 + ((bmi - 25) / 10) * 0.2`, the chance of the risk draw (`bmi` in tenths). */
  function RiskChance(bmi: int): (r: real)
    ensures bmi == 250 ==> r == 0.3
    ensures 185 <= bmi <= 300 ==> 0.17 <= r <= 0.4
  {
    0.3 + ((Tenths(bmi) - 25.0) / 10.0) * 0.2
  }

  /** The condition under which a diabetes type is drawn: HbA1c above 6.5 or glucose above 200. */
  predicate DiabeticThreshold(hba1c: int, glucose: int)
  {
    hba1c > 65 || glucose > 200
  }

  /** A patient drawn by one loop iteration, its risk tier, and the state after it. */
  datatype Drawn = Drawn(patient: Patient, highRisk: bool, next: int)

  /** What every patient the generator draws from a non-negative state satisfies. */
  predicate Plausible(p: Patient)
  {
    && 25 <= p.age <= 85
    && 185 <= p.bmi <= 380
    && 45 <= p.hba1c <= 100
    && 65 <= p.glucoseRandom <= 220
    && p.hypoglycemia == (p.glucoseRandom < 70)
    && p.hyperglycemia == (p.glucoseRandom > 180)
    && !(p.hypoglycemia && p.hyperglycemia)
    && (p.diabetes != NoDiabetes ==> DiabeticThreshold(p.hba1c, p.glucoseRandom))
    && 50 <= p.insulinAvg <= 250
    && 110 <= p.sbpMean <= 165
    && 70 <= p.dbpMean <= 98
    && 60 <= p.hrMean <= 100
    && 94 <= p.spo2Mean <= 100
    && 361 <= p.tempMean <= 372
  }

  /** The first draws of an iteration: sex, bmi and the risk tier. */
  datatype Tier = Tier(male: bool, bmi: int, highRisk: bool, next: int)

  /** The risk draw is skipped when bmi > 30, since `||` short-circuits. */
  function DrawTier(s0: int): (t: Tier)
    ensures s0 >= 0 ==> 185 <= t.bmi <= 380 && 0 <= t.next < Modulus
    ensures t.bmi > 300 ==> t.highRisk
    ensures t.next == (if t.bmi > 300 then Advance(s0, 2) else Advance(s0, 3))
  {
    var s1 := Step(s0);
    var s2 := Step(s1);
    var bmi := TenthsFrom(s2, 185, 380);
    var s3 := if bmi > 300 then s2 else Step(s2);
    Tier(ChanceFrom(s1, 0.5), bmi, bmi > 300 || ChanceFrom(s3, RiskChance(bmi)), s3)
  }

  /** The glucose, HbA1c and diabetes draws. */
  datatype Glycaemia = Glycaemia(glucose: int, hba1c: int, diabetes: Diabetes, next: int)

  /** The Type 1 draw happens only once the diabetic threshold is met. */
  function DrawGlycaemia(highRisk: bool, s0: int): (g: Glycaemia)
    ensures s0 >= 0 ==> 0 <= g.next < Modulus && 45 <= g.hba1c <= 100
    ensures s0 >= 0 && highRisk ==> 100 <= g.glucose <= 220
    ensures s0 >= 0 && !highRisk ==> 65 <= g.glucose <= 185 && g.hba1c <= 62
    ensures g.diabetes != NoDiabetes ==> DiabeticThreshold(g.hba1c, g.glucose)
    ensures s0 >= 0 && !highRisk ==> g.diabetes == NoDiabetes
    ensures g.next == (if DiabeticThreshold(g.hba1c, g.glucose) then Advance(s0, 3) else Advance(s0, 2))
  {
    var base := if highRisk then 120 else 85;
    var s1 := Step(s0);
    var glucose := IntFrom(s1, base - 20, base + 100);
    var s2 := Step(s1);
    var hba1c := TenthsFrom(s2, 45, if highRisk then 100 else 62);
    var diabetic := DiabeticThreshold(hba1c, glucose);
    var s3 := if diabetic then Step(s2) else s2;
    var diabetes := if !diabetic then NoDiabetes else if ChanceFrom(s3, 0.1) then Type1 else Type2;
    Glycaemia(glucose, hba1c, diabetes, s3)
  }

  /** The name drawn from the two pools. */
  datatype Naming = Naming(name: string, next: int)

  /** `name` is a first name from `pools`, a space and a last name from `pools`. */
  ghost predicate NamedFrom(name: string, pools: NamePools)
  {
    exists first, last :: first in pools.first && last in pools.last && name == first + " " + last
  }

  function DrawName(s0: int, pools: NamePools): (n: Naming)
    ensures s0 >= 0 ==> 0 <= n.next < Modulus
    ensures n.next == Advance(s0, 2)
    ensures s0 >= 0 && |pools.first| > 0 && |pools.last| > 0 ==> NamedFrom(n.name, pools)
  {
    var s1 := Step(s0);
    var s2 := Step(s1);
    ElementIsMember(s1, pools.first);
    ElementIsMember(s2, pools.last);
    Naming(Shown(ElementFrom(s1, pools.first)) + " " + Shown(ElementFrom(s2, pools.last)), s2)
  }

  /** The last draws of an iteration: age and the vital signs. */
  datatype Vitals = Vitals(age: int, insulin: int, sbp: int, dbp: int, htn: bool,
                           hr: int, spo2: int, temp: int, next: int)

  /** The hypertension draw happens only for a high-risk patient. */
  function DrawVitals(highRisk: bool, s0: int): (v: Vitals)
    ensures s0 >= 0 ==>
      && 0 <= v.next < Modulus
      && 25 <= v.age <= 85 && 50 <= v.insulin <= 250 && 110 <= v.sbp <= 165 && 70 <= v.dbp <= 98
      && 60 <= v.hr <= 100 && 94 <= v.spo2 <= 100 && 361 <= v.temp <= 372
    ensures v.htn ==> highRisk
    ensures v.next == (if highRisk then Advance(s0, 8) else Advance(s0, 7))
  {
    var s1 := Step(s0);
    var s2 := Step(s1);
    var s3 := Step(s2);
    var s4 := Step(s3);
    var s5 := if highRisk then Step(s4) else s4;
    var s6 := Step(s5);
    var s7 := Step(s6);
    var s8 := Step(s7);
    Vitals(IntFrom(s1, 25, 85), TenthsFrom(s2, 50, 250), IntFrom(s3, 110, 165), IntFrom(s4, 70, 98),
           highRisk && ChanceFrom(s5, 0.6), IntFrom(s6, 60, 100), IntFrom(s7, 94, 100),
           TenthsFrom(s8, 361, 372), s8)
  }

  /** The patient record the loop body builds from its draws. */
  function Assemble(i: nat, t: Tier, g: Glycaemia, n: Naming, v: Vitals): Patient
  {
    Patient(
      id := PatientId(i),
      name := n.name,
      age := v.age,
      sex := if t.male then Male else Female,
      bmi := t.bmi,
      hba1c := g.hba1c,
      glucoseRandom := g.glucose,
      hypoglycemia := g.glucose < 70,
      hyperglycemia := g.glucose > 180,
      diabetes := g.diabetes,
      insulinAvg := v.insulin,
      sbpMean := v.sbp,
      dbpMean := v.dbp,
      historyHtn := v.htn,
      hrMean := v.hr,
      spo2Mean := v.spo2,
      tempMean := v.temp)
  }

  /**
   * The patient with index `i` drawn from state `s0`, in the order the loop
   * body evaluates its draws. Three draws can be skipped: `||` skips the
   * risk draw when bmi > 30, `&&` skips the hypertension draw for a low-risk
   * patient, and an `if` skips the Type 1 draw unless the diabetic threshold
   * is met.
   */
  function Draw(i: nat, s0: int, pools: NamePools): (d: Drawn)
    ensures d.patient.id == PatientId(i)
    ensures s0 >= 0 ==> 0 <= d.next < Modulus && Plausible(d.patient)
    ensures s0 >= 0 && d.highRisk ==> 100 <= d.patient.glucoseRandom <= 220
    ensures s0 >= 0 && !d.highRisk ==>
      && 65 <= d.patient.glucoseRandom <= 185
      && d.patient.hba1c <= 62
      && d.patient.diabetes == NoDiabetes
      && !d.patient.historyHtn
    ensures d.patient.bmi > 300 ==> d.highRisk
    ensures d.patient.historyHtn ==> d.highRisk
  {
    var t := DrawTier(s0);
    var g := DrawGlycaemia(t.highRisk, t.next);
    var n := DrawName(g.next, pools);
    var v := DrawVitals(t.highRisk, n.next);
    Drawn(Assemble(i, t, g, n, v), t.highRisk, v.next)
  }

  /** The name of a drawn patient is a first and a last name from the pools. */
  lemma DrawNamed(i: nat, s0: int, pools: NamePools)
    requires s0 >= 0 && |pools.first| > 0 && |pools.last| > 0
    ensures NamedFrom(Draw(i, s0, pools).patient.name, pools)
  {
    var t := DrawTier(s0);
    var g := DrawGlycaemia(t.highRisk, t.next);
    assert Draw(i, s0, pools).patient.name == DrawName(g.next, pools).name;
  }

  /** How many times one loop iteration advances the generator. */
  function DrawsUsed(d: Drawn): nat
  {
    13
    + (if d.patient.bmi > 300 then 0 else 1)
    + (if DiabeticThreshold(d.patient.hba1c, d.patient.glucoseRandom) then 1 else 0)
    + (if d.highRisk then 1 else 0)
  }

  /** Advancing by `a` and then by `b` steps is advancing by `a + b`. */
  lemma {:induction false} AdvanceAdd(s: int, a: nat, b: nat)
    ensures Advance(Advance(s, a), b) == Advance(s, a + b)
    decreases b
  {
    if b > 0 {
      AdvanceAdd(s, a, b - 1);
    }
  }

  /**
   * One iteration advances the generator 13 times, plus once for each
   * conditional draw it takes, so between 13 and 16 times.
   */
  lemma DrawCount(i: nat, s: int, pools: NamePools)
    ensures Draw(i, s, pools).next == Advance(s, DrawsUsed(Draw(i, s, pools)))
    ensures 13 <= DrawsUsed(Draw(i, s, pools)) <= 16
  {
    var t := DrawTier(s);
    var g := DrawGlycaemia(t.highRisk, t.next);
    var n := DrawName(g.next, pools);
    var v := DrawVitals(t.highRisk, n.next);
    var a := if t.bmi > 300 then 2 else 3;
    var b := if DiabeticThreshold(g.hba1c, g.glucose) then 3 else 2;
    var c := if t.highRisk then 8 else 7;
    AdvanceAdd(s, a, b);
    AdvanceAdd(s, a + b, 2);
    AdvanceAdd(s, a + b + 2, c);
    assert DrawsUsed(Draw(i, s, pools)) == a + b + 2 + c;
  }

  /** The index only sets the id: the draws themselves depend on the state alone. */
  lemma DrawIndexOnlyNamesId(i: nat, j: nat, s: int, pools: NamePools)
    ensures Draw(j, s, pools).patient == Renumbered(Draw(i, s, pools).patient, j)
    ensures Draw(j, s, pools).highRisk == Draw(i, s, pools).highRisk
    ensures Draw(j, s, pools).next == Draw(i, s, pools).next
  {
  }

  // ---------------------------------------------------------------------
  // The cohort
  // ---------------------------------------------------------------------

  datatype Cohort = Cohort(patients: seq<Patient>, next: int)

  /**
   * The first `n` patients a loop drawing with `draw` builds from state `s`,
   * numbered from 1, and the state after them. The loop of generateUsers is
   * `GenerateWith` over `DrawFor(pools)`; the facts about the loop itself are
   * proved here for any per-patient draw.
   */
  function GenerateWith(n: nat, s: int, draw: (nat, int) -> Drawn): (c: Cohort)
    ensures |c.patients| == n
    decreases n
  {
    if n == 0 then Cohort([], s)
    else
      var c := GenerateWith(n - 1, s, draw);
      var d := draw(n, c.next);
      Cohort(c.patients + [d.patient], d.next)
  }

  /** The loop body of generateUsers as a per-patient draw. */
  function DrawFor(pools: NamePools): (nat, int) -> Drawn
  {
    (i: nat, t: int) => Draw(i, t, pools)
  }

  /** The first `n` patients generateUsers draws from state `s`, and the state after them. */
  function Generate(n: nat, s: int, pools: NamePools): (c: Cohort)
    ensures |c.patients| == n
  {
    GenerateWith(n, s, DrawFor(pools))
  }

  lemma {:induction false} GenerateWithIds(n: nat, s: int, draw: (nat, int) -> Drawn)
    requires forall i, t :: draw(i, t).patient.id == PatientId(i)
    ensures forall k :: 0 <= k < n ==> GenerateWith(n, s, draw).patients[k].id == PatientId(k + 1)
    decreases n
  {
    if n > 0 {
      GenerateWithIds(n - 1, s, draw);
      var c := GenerateWith(n - 1, s, draw);
      var ps := c.patients + [draw(n, c.next).patient];
      assert GenerateWith(n, s, draw).patients == ps;
      forall k | 0 <= k < n
        ensures ps[k].id == PatientId(k + 1)
      {
        if k < n - 1 {
          assert ps[k] == c.patients[k];
        }
      }
    }
  }

  /** A property every draw from a non-negative state has holds of every patient of the run. */
  lemma {:induction false} GenerateWithKeeps(n: nat, s: int, draw: (nat, int) -> Drawn, keep: Patient -> bool)
    requires s >= 0
    requires forall i, t :: t >= 0 ==> draw(i, t).next >= 0 && keep(draw(i, t).patient)
    ensures GenerateWith(n, s, draw).next >= 0
    ensures forall k :: 0 <= k < n ==> keep(GenerateWith(n, s, draw).patients[k])
    decreases n
  {
    if n > 0 {
      GenerateWithKeeps(n - 1, s, draw, keep);
      var c := GenerateWith(n - 1, s, draw);
      var ps := c.patients + [draw(n, c.next).patient];
      assert GenerateWith(n, s, draw).patients == ps;
      forall k | 0 <= k < n
        ensures keep(ps[k])
      {
        if k < n - 1 {
          assert ps[k] == c.patients[k];
        }
      }
    }
  }

  lemma {:induction false} GenerateWithPrefix(a: nat, b: nat, s: int, draw: (nat, int) -> Drawn)
    requires a <= b
    ensures GenerateWith(b, s, draw).patients[..a] == GenerateWith(a, s, draw).patients
    decreases b
  {
    if a < b {
      GenerateWithPrefix(a, b - 1, s, draw);
      var c := GenerateWith(b - 1, s, draw);
      assert GenerateWith(b, s, draw).patients == c.patients + [draw(b, c.next).patient];
      assert GenerateWith(b, s, draw).patients[..a] == c.patients[..a];
    }
  }

  /** A draw whose state change ignores the patient's index. */
  ghost predicate IndexFreeState(draw: (nat, int) -> Drawn)
  {
    forall i, j, t :: draw(i, t).next == draw(j, t).next
  }

  lemma {:induction false} GenerateWithContinuesState(a: nat, b: nat, n: nat, s: int, draw: (nat, int) -> Drawn)
    requires n == a + b && IndexFreeState(draw)
    ensures GenerateWith(b, GenerateWith(a, s, draw).next, draw).next == GenerateWith(n, s, draw).next
    decreases b
  {
    if b > 0 {
      GenerateWithContinuesState(a, b - 1, n - 1, s, draw);
      var t := GenerateWith(n - 1, s, draw).next;
      assert draw(b, t).next == draw(n, t).next;
    }
  }

  /** The last patient of a run and the state after it come from its last draw. */
  lemma GenerateWithLast(m: nat, s: int, draw: (nat, int) -> Drawn)
    ensures GenerateWith(m + 1, s, draw).patients[m] == draw(m + 1, GenerateWith(m, s, draw).next).patient
    ensures GenerateWith(m + 1, s, draw).next == draw(m + 1, GenerateWith(m, s, draw).next).next
  {
  }

  /**
   * Patient k of a run from the state a run of `a` patients ends in is
   * patient `a + k` of one run from the start, renumbered.
   */
  lemma GenerateWithContinuesLast(a: nat, k: nat, s: int, draw: (nat, int) -> Drawn)
    requires IndexFreeState(draw)
    requires var t := GenerateWith(a + k, s, draw).next;
      draw(k + 1, t).patient == Renumbered(draw(a + k + 1, t).patient, k + 1)
    ensures GenerateWith(k + 1, GenerateWith(a, s, draw).next, draw).patients[k]
      == Renumbered(GenerateWith(a + k + 1, s, draw).patients[a + k], k + 1)
  {
    var mid := GenerateWith(a, s, draw).next;
    GenerateWithContinuesState(a, k, a + k, s, draw);
    GenerateWithLast(k, mid, draw);
    GenerateWithLast(a + k, s, draw);
  }

  lemma GenerateWithContinuesAt(a: nat, b: nat, n: nat, s: int, draw: (nat, int) -> Drawn, k: nat)
    requires n == a + b && k < b
    requires IndexFreeState(draw)
    requires var t := GenerateWith(a + k, s, draw).next;
      draw(k + 1, t).patient == Renumbered(draw(a + k + 1, t).patient, k + 1)
    ensures GenerateWith(b, GenerateWith(a, s, draw).next, draw).patients[k]
      == Renumbered(GenerateWith(n, s, draw).patients[a + k], k + 1)
  {
    var mid := GenerateWith(a, s, draw).next;
    GenerateWithContinuesLast(a, k, s, draw);
    GenerateWithPrefix(k + 1, b, mid, draw);
    GenerateWithPrefix(a + k + 1, n, s, draw);
    assert GenerateWith(b, mid, draw).patients[..k + 1][k] == GenerateWith(b, mid, draw).patients[k];
    assert GenerateWith(n, s, draw).patients[..a + k + 1][a + k] == GenerateWith(n, s, draw).patients[a + k];
  }

  /** A draw whose patient depends on the index only through its id. */
  ghost predicate IndexOnlyNamesId(draw: (nat, int) -> Drawn)
  {
    forall i, j, t :: draw(j, t).patient == Renumbered(draw(i, t).patient, j)
  }

  lemma GenerateWithContinuesRenumbered(a: nat, b: nat, n: nat, s: int, draw: (nat, int) -> Drawn, k: nat)
    requires n == a + b && k < b
    requires IndexFreeState(draw) && IndexOnlyNamesId(draw)
    ensures GenerateWith(b, GenerateWith(a, s, draw).next, draw).patients[k]
      == Renumbered(GenerateWith(n, s, draw).patients[a + k], k + 1)
  {
    var t := GenerateWith(a + k, s, draw).next;
    assert draw(k + 1, t).patient == Renumbered(draw(a + k + 1, t).patient, k + 1);
    GenerateWithContinuesAt(a, b, n, s, draw, k);
  }

  /** Patient number k + 1 carries the id `PID-${1001 + k}`. */
  lemma GenerateIds(n: nat, s: int, pools: NamePools)
    ensures forall k :: 0 <= k < n ==> Generate(n, s, pools).patients[k].id == PatientId(k + 1)
  {
    GenerateWithIds(n, s, DrawFor(pools));
  }

  /** Every patient drawn from a non-negative seed is plausible. */
  lemma GeneratePlausible(n: nat, s: int, pools: NamePools)
    requires s >= 0
    ensures Generate(n, s, pools).next >= 0
    ensures forall k :: 0 <= k < n ==> Plausible(Generate(n, s, pools).patients[k])
  {
    GenerateWithKeeps(n, s, DrawFor(pools), Plausible);
  }

  /** Every name drawn from a non-negative seed is a first and a last name from the pools. */
  lemma GenerateNamed(n: nat, s: int, pools: NamePools)
    requires s >= 0 && |pools.first| > 0 && |pools.last| > 0
    ensures forall k :: 0 <= k < n ==> NamedFrom(Generate(n, s, pools).patients[k].name, pools)
  {
    var named := (p: Patient) => NamedFrom(p.name, pools);
    forall i, t | t >= 0
      ensures DrawFor(pools)(i, t).next >= 0 && named(DrawFor(pools)(i, t).patient)
    {
      DrawNamed(i, t, pools);
    }
    GenerateWithKeeps(n, s, DrawFor(pools), named);
  }

  /** The ids read back as 1001, 1002, …: strictly increasing, hence distinct. */
  lemma GenerateIdsIncreasing(n: nat, s: int, pools: NamePools)
    ensures forall k :: 0 <= k < n ==> IdNumber(Generate(n, s, pools).patients[k].id) == Some(1001 + k)
    ensures forall j, k :: 0 <= j < k < n ==>
      Generate(n, s, pools).patients[j].id != Generate(n, s, pools).patients[k].id
  {
    var ps := Generate(n, s, pools).patients;
    GenerateIds(n, s, pools);
    NumberedIds(ps);
  }

  /** Patients numbered 1, 2, … have ids reading back as 1001, 1002, …, hence pairwise distinct. */
  lemma NumberedIds(ps: seq<Patient>)
    requires forall k :: 0 <= k < |ps| ==> ps[k].id == PatientId(k + 1)
    ensures forall k :: 0 <= k < |ps| ==> IdNumber(ps[k].id) == Some(1001 + k)
    ensures forall j, k :: 0 <= j < k < |ps| ==> ps[j].id != ps[k].id
  {
    forall k | 0 <= k < |ps|
      ensures IdNumber(ps[k].id) == Some(1001 + k)
    {
      IdNumberOfPatientId(k + 1);
    }
    forall j, k | 0 <= j < k < |ps|
      ensures ps[j].id != ps[k].id
    {
      assert IdNumber(ps[j].id) != IdNumber(ps[k].id);
    }
  }

  /** The same state gives the same cohort, and a longer run extends a shorter one. */
  lemma GeneratePrefix(a: nat, b: nat, s: int, pools: NamePools)
    requires a <= b
    ensures Generate(b, s, pools).patients[..a] == Generate(a, s, pools).patients
  {
    GenerateWithPrefix(a, b, s, DrawFor(pools));
  }

  /** The loop body's state change does not depend on the index. */
  lemma DrawForIndexFree(pools: NamePools)
    ensures IndexFreeState(DrawFor(pools))
  {
    forall i, j, t
      ensures DrawFor(pools)(j, t).next == DrawFor(pools)(i, t).next
    {
      DrawIndexOnlyNamesId(i, j, t, pools);
    }
  }

  /** The loop body's patient depends on the index only through its id. */
  lemma DrawForIndexOnlyNamesId(pools: NamePools)
    ensures IndexOnlyNamesId(DrawFor(pools))
  {
    forall i, j, t
      ensures DrawFor(pools)(j, t).patient == Renumbered(DrawFor(pools)(i, t).patient, j)
    {
      DrawIndexOnlyNamesId(i, j, t, pools);
    }
  }

  /**
   * The generator is shared, so a second `generateUsers(b)` after a first
   * `generateUsers(a)` ends in the state one call of `n = a + b` ends in.
   */
  lemma GenerateContinuesState(a: nat, b: nat, n: nat, s: int, pools: NamePools)
    requires n == a + b
    ensures Generate(b, Generate(a, s, pools).next, pools).next == Generate(n, s, pools).next
  {
    DrawForIndexFree(pools);
    GenerateWithContinuesState(a, b, n, s, DrawFor(pools));
  }

  /**
   * Patient k of that second call is patient `a + k` of the single call,
   * numbered again from `PID-1001`.
   */
  lemma GenerateContinues(a: nat, b: nat, n: nat, s: int, pools: NamePools, k: nat)
    requires n == a + b && k < b
    ensures Generate(b, Generate(a, s, pools).next, pools).patients[k]
      == Renumbered(Generate(n, s, pools).patients[a + k], k + 1)
  {
    DrawForIndexFree(pools);
    DrawForIndexOnlyNamesId(pools);
    GenerateWithContinuesRenumbered(a, b, n, s, DrawFor(pools), k);
  }

  /** `count` as the loop `for (let i = 1; i <= count; i++)` runs it. */
  function Iterations(count: int): nat
  {
    if count > 0 then count else 0
  }

  /** The sex, bmi and risk-tier draws of the loop body, on the generator. */
  method TierDraws(rng: SeededRandom) returns (sex: Sex, bmi: int, highRisk: bool)
    modifies rng
    ensures DrawTier(old(rng.seed)) == Tier(sex == Male, bmi, highRisk, rng.seed)
  {
    var isMale := rng.Bool(0.5);
    sex := if isMale then Male else Female;
    bmi := rng.Float(185, 380);
    highRisk := bmi > 300;
    if !highRisk {
      highRisk := rng.Bool(RiskChance(bmi));
    }
  }

  /** The glucose, HbA1c and diabetes draws of the loop body, on the generator. */
  method GlycaemiaDraws(rng: SeededRandom, highRisk: bool) returns (glucoseRandom: int, hba1c: int, diabetes: Diabetes)
    modifies rng
    ensures DrawGlycaemia(highRisk, old(rng.seed)) == Glycaemia(glucoseRandom, hba1c, diabetes, rng.seed)
  {
    var glucoseBase := if highRisk then 120 else 85;
    glucoseRandom := rng.Int(glucoseBase - 20, glucoseBase + 100);
    hba1c := rng.Float(45, if highRisk then 100 else 62);
    diabetes := NoDiabetes;
    if hba1c > 65 || glucoseRandom > 200 {
      var type1 := rng.Bool(0.1);
      diabetes := if type1 then Type1 else Type2;
    }
  }

  /** The two name draws of the loop body, on the generator. */
  method NameDraws(rng: SeededRandom, pools: NamePools) returns (name: string)
    modifies rng
    ensures DrawName(old(rng.seed), pools) == Naming(name, rng.seed)
  {
    var first := rng.Element(pools.first);
    var last := rng.Element(pools.last);
    name := Shown(first) + " " + Shown(last);
  }

  /** The age and vital-sign draws of the loop body, on the generator. */
  method VitalDraws(rng: SeededRandom, highRisk: bool) returns (v: Vitals)
    modifies rng
    ensures DrawVitals(highRisk, old(rng.seed)) == v && v.next == rng.seed
  {
    var age := rng.Int(25, 85);
    var insulin := rng.Float(50, 250);
    var sbp := rng.Int(110, 165);
    var dbp := rng.Int(70, 98);
    var htn := highRisk;
    if htn {
      htn := rng.Bool(0.6);
    }
    var hr := rng.Int(60, 100);
    var spo2 := rng.Int(94, 100);
    var temp := rng.Float(361, 372);
    v := Vitals(age, insulin, sbp, dbp, htn, hr, spo2, temp, rng.seed);
  }

  /** The body of the loop in generateUsers: draw patient number `i`. */
  method DrawPatient(rng: SeededRandom, i: nat, pools: NamePools) returns (patient: Patient, ghost isHighRisk: bool)
    modifies rng
    ensures Draw(i, old(rng.seed), pools) == Drawn(patient, isHighRisk, rng.seed)
  {
    ghost var s0 := rng.seed;
    var sex, bmi, highRisk := TierDraws(rng);
    ghost var t := Tier(sex == Male, bmi, highRisk, rng.seed);
    var glucoseRandom, hba1c, diabetes := GlycaemiaDraws(rng, highRisk);
    ghost var g := Glycaemia(glucoseRandom, hba1c, diabetes, rng.seed);
    var name := NameDraws(rng, pools);
    ghost var n := Naming(name, rng.seed);
    var v := VitalDraws(rng, highRisk);
    patient := Patient(
      id := PatientId(i),
      name := name,
      age := v.age,
      sex := sex,
      bmi := bmi,
      hba1c := hba1c,
      glucoseRandom := glucoseRandom,
      hypoglycemia := glucoseRandom < 70,
      hyperglycemia := glucoseRandom > 180,
      diabetes := diabetes,
      insulinAvg := v.insulin,
      sbpMean := v.sbp,
      dbpMean := v.dbp,
      historyHtn := v.htn,
      hrMean := v.hr,
      spo2Mean := v.spo2,
      tempMean := v.temp);
    isHighRisk := highRisk;
    assert patient == Assemble(i, t, g, n, v);
  }

  /** `generateUsers(count)` on the module's generator `rng`. */
  method GenerateUsers(rng: SeededRandom, count: int) returns (users: seq<Patient>)
    modifies rng
    ensures Cohort(users, rng.seed) == Generate(Iterations(count), old(rng.seed), Pools)
  {
    ghost var s0 := rng.seed;
    users := [];
    for i := 1 to Iterations(count) + 1
      invariant Generate(i - 1, s0, Pools) == Cohort(users, rng.seed)
    {
      var patient, _ := DrawPatient(rng, i, Pools);
      users := users + [patient];
    }
  }

  const DefaultSeed: int := 12345
  const DefaultCount: int := 25

  /** `MOCK_PATIENTS`: the cohort the module builds once, from a fresh generator. */
  function MockPatients(): seq<Patient>
  {
    Generate(Iterations(DefaultCount), DefaultSeed, Pools).patients
  }

  /** `MOCK_PATIENTS` holds 25 plausible patients, `PID-1001` to `PID-1025`, in order. */
  lemma MockPatientsShape()
    ensures |MockPatients()| == 25
    ensures forall k :: 0 <= k < 25 ==> MockPatients()[k].id == PatientId(k + 1)
    ensures forall k :: 0 <= k < 25 ==> Plausible(MockPatients()[k])
  {
    GenerateIds(25, DefaultSeed, Pools);
    GeneratePlausible(25, DefaultSeed, Pools);
  }

  /** Every name in `MOCK_PATIENTS` is one of the first names, a space and one of the last names. */
  lemma MockPatientsNamed()
    ensures |MockPatients()| == 25
    ensures forall k :: 0 <= k < 25 ==> NamedFrom(MockPatients()[k].name, Pools)
  {
    GenerateNamed(25, DefaultSeed, Pools);
  }

  /** Module initialisation: the shared `rng` and `MOCK_PATIENTS = generateUsers(25)`. */
  method InitModule() returns (rng: SeededRandom, mock: seq<Patient>)
    ensures fresh(rng)
    ensures Cohort(mock, rng.seed) == Generate(Iterations(DefaultCount), DefaultSeed, Pools)
  {
    rng := new SeededRandom(DefaultSeed);
    mock := GenerateUsers(rng, DefaultCount);
  }
}
