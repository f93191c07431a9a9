/**
 * The BMI tools: the category chain and the advice `calculate_bmi` attaches
 * to a result (shared_code/mcp_server.py), and the bare guard of the
 * single-server `calculate_bmi` (bmi_server.py). BMI is an exact real here.
 */
module Bmi {
  import opened Wrappers
  import opened Text

  datatype Category = Underweight | Normal | Overweight | ObeseI | ObeseII | ObeseIII

  /** The cut points between consecutive categories, lowest first. */
  const Thresholds: seq<real> := [18.5, 25.0, 30.0, 35.0, 40.0]

  /** Position of a category on the scale, 0 for the lightest. */
  function Rank(c: Category): (n: nat)
    ensures n < 6
  {
    match c
    case Underweight => 0
    case Normal => 1
    case Overweight => 2
    case ObeseI => 3
    case ObeseII => 4
    case ObeseIII => 5
  }

  /**
   * The band of a category, read off the thresholds: at least the cut
   * point below it (if any) and under the cut point above it (if any).
   */
  predicate InBand(c: Category, bmi: real) {
    var n := Rank(c);
    (n == 0 || Thresholds[n - 1] <= bmi) && (n == 5 || bmi < Thresholds[n])
  }

  /** The if/elif chain of `calculate_bmi`. */
  function Classify(bmi: real): (c: Category)
    ensures InBand(c, bmi)
  {
    if bmi < 18.5 then Underweight
    else if bmi < 25.0 then Normal
    else if bmi < 30.0 then Overweight
    else if bmi < 35.0 then ObeseI
    else if bmi < 40.0 then ObeseII
    else ObeseIII
  }

  /** The bands do not overlap: a BMI lies in its category's band only. */
  lemma ClassifyUnique(c: Category, bmi: real)
    requires InBand(c, bmi)
    ensures Classify(bmi) == c
  {
    var d := Classify(bmi);
    assert Rank(c) <= Rank(d) by {
      if Rank(d) < 5 {
        assert bmi < Thresholds[Rank(d)];
      }
    }
    assert Rank(d) <= Rank(c) by {
      if Rank(c) < 5 {
        assert bmi < Thresholds[Rank(c)];
      }
    }
  }

  /** A heavier BMI never falls in a lighter category. */
  lemma ClassifyMonotone(a: real, b: real)
    requires a <= b
    ensures Rank(Classify(a)) <= Rank(Classify(b))
  {
  }

  /** The `category` text. */
  function Label(c: Category): string {
    match c
    case Underweight => "Underweight"
    case Normal => "Normal weight"
    case Overweight => "Overweight"
    case ObeseI => "Obesity Class I"
    case ObeseII => "Obesity Class II"
    case ObeseIII => "Obesity Class III"
  }

  /** The `category_range` text. */
  function RangeText(c: Category): string {
    match c
    case Underweight => "< 18.5"
    case Normal => "18.5 - 24.9"
    case Overweight => "25.0 - 29.9"
    case ObeseI => "30.0 - 34.9"
    case ObeseII => "35.0 - 39.9"
    case ObeseIII => "≥ 40.0"
  }

  /** The `category_key`: the three obesity classes share one key. */
  function Key(c: Category): string {
    match c
    case Underweight => "underweight"
    case Normal => "normal"
    case Overweight => "overweight"
    case ObeseI | ObeseII | ObeseIII => "obese"
  }

  /** `BMI_CATEGORIES`: key, range and description, in declaration order. */
  const CategoryTable: seq<(string, string, string)> := [
    ("underweight", "< 18.5", "Below normal weight"),
    ("normal", "18.5 - 24.9", "Normal weight"),
    ("overweight", "25.0 - 29.9", "Above normal weight"),
    ("obese_class_1", "30.0 - 34.9", "Obesity Class I (Moderately obese)"),
    ("obese_class_2", "35.0 - 39.9", "Obesity Class II (Severely obese)"),
    ("obese_class_3", "≥ 40.0", "Obesity Class III (Very severely obese)")
  ]

  /** `BMI_HEALTH_RISKS`: key and list of risks. */
  const RiskTable: seq<(string, seq<string>)> := [
    ("underweight", ["Increased risk of malnutrition", "Weakened immune system",
                     "Increased risk of infections", "Delayed wound healing", "Loss of bone density"]),
    ("normal", ["Lowest risk of weight-related health problems", "Optimal health range for most people"]),
    ("overweight", ["Increased risk of type 2 diabetes", "Increased risk of high blood pressure",
                    "Increased risk of heart disease", "Sleep apnea risk"]),
    ("obese", ["High risk of type 2 diabetes", "High risk of cardiovascular disease",
               "Increased risk of certain cancers", "Sleep apnea and breathing problems",
               "Osteoarthritis", "Fatty liver disease", "Kidney disease"])
  ]

  /** `BMI_CATEGORIES.get(key, {}).get("description", "")` */
  function DescriptionOf(key: string): string {
    DescriptionIn(CategoryTable, key)
  }

  function DescriptionIn(table: seq<(string, string, string)>, key: string): (d: string)
    ensures (forall i :: 0 <= i < |table| ==> table[i].0 != key) ==> d == ""
    ensures forall i :: 0 <= i < |table| && table[i].0 == key && (forall j :: 0 <= j < i ==> table[j].0 != key) ==>
              d == table[i].2
  {
    if |table| == 0 then ""
    else if table[0].0 == key then table[0].2
    else DescriptionIn(table[1..], key)
  }

  /** `BMI_HEALTH_RISKS.get(key, [])` */
  function RisksOf(key: string): seq<string> {
    RisksIn(RiskTable, key)
  }

  function RisksIn(table: seq<(string, seq<string>)>, key: string): (r: seq<string>)
    ensures (forall i :: 0 <= i < |table| ==> table[i].0 != key) ==> r == []
    ensures forall i :: 0 <= i < |table| && table[i].0 == key && (forall j :: 0 <= j < i ==> table[j].0 != key) ==>
              r == table[i].1
  {
    if |table| == 0 then []
    else if table[0].0 == key then table[0].1
    else RisksIn(table[1..], key)
  }

  /** The interpretation text: the key with "obese" replaced by "obese_class_1", looked up. */
  function Interpretation(c: Category): (d: string)
    ensures d == DescriptionOf(if c in {ObeseI, ObeseII, ObeseIII} then "obese_class_1" else Key(c))
  {
    InterpretationKey(c);
    DescriptionOf(Replace(Key(c), "obese", "obese_class_1"))
  }

  /** `consult_healthcare`: advised exactly outside the normal and overweight bands. */
  predicate ConsultHealthcare(bmi: real)
    ensures ConsultHealthcare(bmi) <==> Classify(bmi) !in {Normal, Overweight}
  {
    bmi < 18.5 || bmi >= 30.0
  }

  lemma SquarePositive(height: real)
    requires height > 0.0
    ensures height * height > 0.0
  {
  }

  /** The result of the shared `calculate_bmi`. */
  datatype BmiReport =
    | InvalidInput(error: string, weight: real, height: real)
    | Assessed(bmi: real, category: string, categoryRange: string, weight: real, height: real,
               risks: seq<string>, interpretation: string, consultHealthcare: bool)

  const InvalidInputMessage := "Height and weight must be positive numbers"

  /** The report for a computed BMI: category, range, risks, interpretation and advice. */
  function Assess(bmi: real, weight: real, height: real): (r: BmiReport)
    ensures r.Assessed? && r.bmi == bmi
    ensures r.category == Label(Classify(bmi)) && r.categoryRange == RangeText(Classify(bmi))
    ensures r.risks == RisksOf(Key(Classify(bmi)))
    ensures r.consultHealthcare <==> Classify(bmi) !in {Normal, Overweight}
    ensures r.interpretation == Interpretation(Classify(bmi))
    ensures r.weight == weight && r.height == height
  {
    var c := Classify(bmi);
    Assessed(bmi, Label(c), RangeText(c), weight, height, RisksOf(Key(c)), Interpretation(c),
             ConsultHealthcare(bmi))
  }

  /** The shared `calculate_bmi`: both inputs must be positive. */
  function CalculateBmi(weight: real, height: real): (r: BmiReport)
    ensures r.InvalidInput? <==> height <= 0.0 || weight <= 0.0
    ensures r.InvalidInput? ==> r.error == InvalidInputMessage
    ensures r.Assessed? ==> r == Assess(weight / (height * height), weight, height)
  {
    if height <= 0.0 || weight <= 0.0 then InvalidInput(InvalidInputMessage, weight, height)
    else
      SquarePositive(height);
      Assess(weight / (height * height), weight, height)
  }

  /** Every category's key has a risk list: the empty default is never used. */
  lemma EveryCategoryHasRisks(c: Category)
    ensures |RisksOf(Key(c))| > 0
  {
    match c
    case Underweight => assert RisksOf("underweight") == RiskTable[0].1;
    case Normal => assert RisksOf("normal") == RiskTable[1].1;
    case Overweight => assert RisksOf("overweight") == RiskTable[2].1;
    case ObeseI | ObeseII | ObeseIII => assert RisksOf("obese") == RiskTable[3].1;
  }

  /** Every category gets a description: the empty default is never used. */
  lemma EveryCategoryInterpreted(c: Category)
    ensures Interpretation(c) != ""
  {
    InterpretationKey(c);
    ShippedDescriptions();
  }

  /** The descriptions of the four keys the interpretation looks up. */
  lemma ShippedDescriptions()
    ensures DescriptionOf("underweight") == "Below normal weight"
    ensures DescriptionOf("normal") == "Normal weight"
    ensures DescriptionOf("overweight") == "Above normal weight"
    ensures DescriptionOf("obese_class_1") == "Obesity Class I (Moderately obese)"
  {
  }

  /** The key that is looked up: the three obesity classes all look up class I. */
  lemma InterpretationKey(c: Category)
    ensures Replace(Key(c), "obese", "obese_class_1")
            == if c in {ObeseI, ObeseII, ObeseIII} then "obese_class_1" else Key(c)
  {
    var k := Key(c);
    if c in {ObeseI, ObeseII, ObeseIII} {
      assert StartsWith(k, "obese");
      assert k[5..] == [];
    } else {
      AbsentChar(k, "obese", 1);
    }
  }

  /**
   * Class II and class III results carry the class I description, though
   * the table has descriptions of their own.
   */
  lemma HeavierClassesReadAsClassI()
    ensures Interpretation(ObeseII) == "Obesity Class I (Moderately obese)"
    ensures Interpretation(ObeseIII) == "Obesity Class I (Moderately obese)"
    ensures DescriptionOf("obese_class_2") == "Obesity Class II (Severely obese)"
  {
    InterpretationKey(ObeseII);
    InterpretationKey(ObeseIII);
  }

  /** The worked example of the calculation guide: 70 kg at 1.75 m is normal weight. */
  lemma GuideExample()
    ensures CalculateBmi(70.0, 1.75).Assessed?
    ensures CalculateBmi(70.0, 1.75).category == "Normal weight"
  {
    var bmi := 70.0 / (1.75 * 1.75);
    assert 18.5 <= bmi < 25.0;
  }

  /** The single-server `calculate_bmi`: only the height is checked. */
  function CalculateBmiBare(weight: real, height: real): (r: Result<real, PyError>)
    ensures r.Failure? <==> height <= 0.0
    ensures r.Failure? ==> r.error == ValueError("Height must be greater than zero.")
    ensures r.Success? ==> r.value * (height * height) == weight
  {
    if height <= 0.0 then Failure(ValueError("Height must be greater than zero."))
    else SquarePositive(height); Success(weight / (height * height))
  }

  /**
   * A non-positive weight is not refused there, while the shared tool
   * refuses it.
   */
  lemma BareAcceptsNonPositiveWeight(weight: real, height: real)
    requires weight <= 0.0 && height > 0.0
    ensures CalculateBmiBare(weight, height).Success?
    ensures CalculateBmi(weight, height).InvalidInput?
  {
  }
}
