/**
 The recipe-scaling demo of the demo page: four base quantities written for
 four servings are scaled to the slider's value, the eggs to a whole number
 and the rest to one decimal place; and the page's playback state with the
 handlers that change it.

 Quantities are exact rationals (`real`). Every value the page scales is a
 base of 1, 1.5, 2 or 3 times a whole number of servings over 4, so it is a
 dyadic fraction that an IEEE double holds exactly; `Math.round` and
 `toFixed(1)` then round that exact value half up.
 */
module DemoPage {
  import opened Text

  /** One row of the scaling table before scaling. */
  datatype BaseIngredient = BaseIngredient(name: string, unit: string, base: real)

  /** What a row displays: a whole number (the eggs) or a number of tenths. */
  datatype Amount = Whole(n: nat) | OneDecimal(tenths: nat)

  /** A scaled row: name, amount, unit, as the row renders them. */
  datatype Row = Row(name: string, amount: Amount, unit: string)

  const BaseServings := 4
  const MinServings := 1
  const MaxServings := 12
  const InitialDemo := "ai-suggestions"
  const ScalingDemo := "recipe-scaling"

  const Flour := BaseIngredient("Flour", "cups", 2.0)
  const Sugar := BaseIngredient("Sugar", "cups", 1.0)
  const Eggs := BaseIngredient("Eggs", "pcs", 3.0)
  const Milk := BaseIngredient("Milk", "cups", 1.5)

  /** The table the demo scales, in display order. */
  const ScalingBase: seq<BaseIngredient> := [Flour, Sugar, Eggs, Milk]

  // ---------------------------------------------------------------------
  // Rounding and formatting
  // ---------------------------------------------------------------------

  /** `Math.round`: the nearest integer, halves rounded up. */
  function RoundHalfUp(x: real): (r: int)
    ensures r as real - 0.5 <= x < r as real + 0.5
  {
    (x + 0.5).Floor
  }

  lemma RoundHalfUpMonotone(x: real, y: real)
    requires x <= y
    ensures RoundHalfUp(x) <= RoundHalfUp(y)
  {
    var a, b := RoundHalfUp(x), RoundHalfUp(y);
    assert a as real - 0.5 <= x <= y < b as real + 0.5;
    assert a < b + 1;
  }

  lemma RoundHalfUpNonNegative(x: real)
    requires x >= 0.0
    ensures RoundHalfUp(x) >= 0
  {
  }

  /** Rounding a quarter: `k / 4` rounded half up is `(k + 2) div 4`. */
  lemma {:induction false} RoundQuarter(k: nat)
    ensures RoundHalfUp(k as real / 4.0) == (k + 2) / 4
  {
    var q := (k + 2) / 4;
    var r := (k + 2) % 4;
    assert k + 2 == 4 * q + r;
    assert k as real / 4.0 == q as real + (r as real - 2.0) / 4.0;
  }

  /** The text `toFixed(1)` gives for `tenths / 10`: the whole part, a point,
      and the tenths digit. */
  function TenthsText(tenths: nat): string {
    NatToString(tenths / 10) + "." + [DigitChar(tenths % 10)]
  }

  /** The text of a row's amount. */
  function AmountText(a: Amount): string {
    match a
    case Whole(n) => NatToString(n)
    case OneDecimal(t) => TenthsText(t)
  }

  /** The number an amount stands for. */
  function AmountValue(a: Amount): real {
    match a
    case Whole(n) => n as real
    case OneDecimal(t) => t as real / 10.0
  }

  /** A one-decimal text ends in a point and one digit, and reading the whole
      part back and appending the digit gives the tenths again. */
  lemma TenthsTextReadsBack(tenths: nat)
    ensures var s := TenthsText(tenths);
      && |s| >= 3
      && s[|s| - 2] == '.'
      && IsDigit(s[|s| - 1])
      && ParseDecimal(s[..|s| - 2]) * 10 + DigitValue(s[|s| - 1]) == tenths
  {
    var s := TenthsText(tenths);
    var w := NatToString(tenths / 10);
    assert s == w + "." + [DigitChar(tenths % 10)];
    assert s[..|s| - 2] == w;
    NatToStringRoundTrip(tenths / 10);
  }

  // ---------------------------------------------------------------------
  // Scaling
  // ---------------------------------------------------------------------

  /** The exact scaled quantity `base * servings / 4`. */
  function Exact(ing: BaseIngredient, servings: nat): real {
    ing.base * servings as real / BaseServings as real
  }

  /** One row's amount: eggs rounded to a whole number, the rest to tenths. */
  function Scale(ing: BaseIngredient, servings: nat): (a: Amount)
    requires ing.base >= 0.0
    ensures ing.name == "Eggs" <==> a.Whole?
    ensures a.Whole? ==> AmountValue(a) - 0.5 <= Exact(ing, servings) < AmountValue(a) + 0.5
    ensures a.OneDecimal? ==> AmountValue(a) - 0.05 <= Exact(ing, servings) < AmountValue(a) + 0.05
  {
    var x := Exact(ing, servings);
    if ing.name == "Eggs" then
      RoundHalfUpNonNegative(x);
      Whole(RoundHalfUp(x))
    else
      RoundHalfUpNonNegative(x * 10.0);
      OneDecimal(RoundHalfUp(x * 10.0))
  }

  /** The rows the scaling demo renders, one per base ingredient in base order. */
  function ScaledRows(servings: nat): (rows: seq<Row>)
    ensures |rows| == |ScalingBase|
    ensures forall i :: 0 <= i < |rows| ==>
      rows[i] == Row(ScalingBase[i].name, Scale(ScalingBase[i], servings), ScalingBase[i].unit)
  {
    seq(|ScalingBase|, i requires 0 <= i < |ScalingBase| => Row(ScalingBase[i].name, Scale(ScalingBase[i], servings), ScalingBase[i].unit))
  }

  /** The eggs are `3 * servings / 4` rounded half up, which is `(3 * servings + 2) div 4`. */
  lemma EggFormula(servings: nat)
    ensures Scale(Eggs, servings) == Whole((3 * servings + 2) / 4)
  {
    assert Exact(Eggs, servings) == (3 * servings) as real / 4.0;
    RoundQuarter(3 * servings);
  }

  /** Two servings take 2 eggs; five take 4 (3.75 rounds up). */
  lemma EggExamples()
    ensures Scale(Eggs, 2) == Whole(2)
    ensures Scale(Eggs, 5) == Whole(4)
  {
    EggFormula(2);
    EggFormula(5);
  }

  /** Flour is `2 * servings / 4`, an exact multiple of one half, so its
      tenths are `5 * servings`. */
  lemma FlourFormula(servings: nat)
    ensures Scale(Flour, servings) == OneDecimal(5 * servings)
  {
    assert Exact(Flour, servings) * 10.0 == (5 * servings) as real;
  }

  /** Sugar is `servings / 4`: its tenths are `2.5 * servings` rounded half up. */
  lemma SugarFormula(servings: nat)
    ensures Scale(Sugar, servings) == OneDecimal((10 * servings + 2) / 4)
  {
    assert Exact(Sugar, servings) * 10.0 == (10 * servings) as real / 4.0;
    RoundQuarter(10 * servings);
  }

  /** Milk is `1.5 * servings / 4`: its tenths are `3.75 * servings` rounded half up. */
  lemma MilkFormula(servings: nat)
    ensures Scale(Milk, servings) == OneDecimal((15 * servings + 2) / 4)
  {
    assert Exact(Milk, servings) * 10.0 == (15 * servings) as real / 4.0;
    RoundQuarter(15 * servings);
  }

  lemma DigitTexts()
    ensures NatToString(0) == "0" && NatToString(1) == "1" && NatToString(2) == "2"
    ensures NatToString(3) == "3" && NatToString(4) == "4" && NatToString(5) == "5"
  {
  }

  /** Flour for eight servings reads "4.0". */
  lemma FlourAtEight()
    ensures AmountText(Scale(Flour, 8)) == "4.0"
  {
    FlourFormula(8);
    DigitTexts();
  }

  /** At the base servings every row shows its base quantity: 3 eggs and
      "2.0", "1.0", "1.5" cups. */
  lemma IdentityAtBase()
    ensures var rows := ScaledRows(BaseServings);
      && forall i :: 0 <= i < |rows| ==> AmountValue(rows[i].amount) == ScalingBase[i].base
    ensures AmountText(Scale(Eggs, 4)) == "3"
    ensures AmountText(Scale(Flour, 4)) == "2.0"
    ensures AmountText(Scale(Sugar, 4)) == "1.0"
    ensures AmountText(Scale(Milk, 4)) == "1.5"
  {
    BaseAmounts();
    DigitTexts();
    var rows := ScaledRows(BaseServings);
    assert rows[0].amount == Scale(Flour, 4) && rows[1].amount == Scale(Sugar, 4);
    assert rows[2].amount == Scale(Eggs, 4) && rows[3].amount == Scale(Milk, 4);
  }

  /** The four amounts at the base servings. */
  lemma BaseAmounts()
    ensures Scale(Eggs, 4) == Whole(3) && Scale(Flour, 4) == OneDecimal(20)
    ensures Scale(Sugar, 4) == OneDecimal(10) && Scale(Milk, 4) == OneDecimal(15)
  {
    EggFormula(4);
    FlourFormula(4);
    SugarFormula(4);
    MilkFormula(4);
  }

  /** More servings never mean less of anything, rounded or not. */
  lemma ScaleMonotone(ing: BaseIngredient, s1: nat, s2: nat)
    requires ing.base >= 0.0 && s1 <= s2
    ensures Exact(ing, s1) <= Exact(ing, s2)
    ensures AmountValue(Scale(ing, s1)) <= AmountValue(Scale(ing, s2))
  {
    assert ing.base * s1 as real <= ing.base * s2 as real;
    var x1, x2 := Exact(ing, s1), Exact(ing, s2);
    if ing.name == "Eggs" {
      RoundHalfUpMonotone(x1, x2);
    } else {
      RoundHalfUpMonotone(x1 * 10.0, x2 * 10.0);
    }
  }

  // ---------------------------------------------------------------------
  // The page state
  // ---------------------------------------------------------------------

  /** The demo page's state: whether the demo plays, which demo is selected,
      and the slider's servings. */
  class DemoState {
    var isPlaying: bool
    var currentDemo: string
    var servings: int

    /** The slider keeps the servings within its range. */
    ghost predicate Valid()
      reads this
    {
      MinServings <= servings <= MaxServings
    }

    /** The initial state: paused, on the suggestions demo, four servings. */
    constructor ()
      ensures Valid()
      ensures !isPlaying && currentDemo == InitialDemo && servings == BaseServings
    {
      isPlaying := false;
      currentDemo := InitialDemo;
      servings := BaseServings;
    }

    /** `togglePlayback`: flips playing and pausing, nothing else. */
    method TogglePlayback()
      requires Valid()
      modifies this
      ensures Valid()
      ensures isPlaying == !old(isPlaying)
      ensures currentDemo == old(currentDemo) && servings == old(servings)
    {
      isPlaying := !isPlaying;
    }

    /** `resetDemo`: pauses and puts the servings back to four; the selected
        demo stays. */
    method ResetDemo()
      modifies this
      ensures Valid()
      ensures !isPlaying && servings == BaseServings
      ensures currentDemo == old(currentDemo)
    {
      isPlaying := false;
      servings := BaseServings;
    }

    /** `startDemo(id)`: selects the demo and plays it; the servings stay. */
    method StartDemo(id: string)
      requires Valid()
      modifies this
      ensures Valid()
      ensures currentDemo == id && isPlaying
      ensures servings == old(servings)
    {
      currentDemo := id;
      isPlaying := true;
    }

    /** The slider's `onChange`: the range input only yields whole numbers
        from 1 to 12. */
    method SetServings(value: int)
      requires MinServings <= value <= MaxServings
      modifies this
      ensures Valid()
      ensures servings == value
      ensures isPlaying == old(isPlaying) && currentDemo == old(currentDemo)
    {
      servings := value;
    }

    /** The rows on screen: the scaled table while the scaling demo plays,
        nothing otherwise. */
    function VisibleRows(): (rows: seq<Row>)
      reads this
      requires Valid()
      ensures rows != [] <==> isPlaying && currentDemo == ScalingDemo
      ensures rows != [] ==> rows == ScaledRows(servings)
    {
      if isPlaying && currentDemo == ScalingDemo then ScaledRows(servings) else []
    }
  }

  /** Toggling playback twice gives back the state it started from. */
  method TogglePlaybackTwice(d: DemoState)
    requires d.Valid()
    modifies d
    ensures d.Valid()
    ensures d.isPlaying == old(d.isPlaying)
    ensures d.currentDemo == old(d.currentDemo) && d.servings == old(d.servings)
  {
    d.TogglePlayback();
    d.TogglePlayback();
  }

  /** Starting the scaling demo shows the scaled rows for the current servings. */
  method StartScaling(d: DemoState) returns (rows: seq<Row>)
    requires d.Valid()
    modifies d
    ensures d.Valid() && d.isPlaying && d.currentDemo == ScalingDemo
    ensures rows == ScaledRows(d.servings) && |rows| == |ScalingBase|
  {
    d.StartDemo(ScalingDemo);
    rows := d.VisibleRows();
  }
}
