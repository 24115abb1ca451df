/**
 * The constraint picker: the user's energy, available time and context, edited through two
 * sliders and a text field, and the word shown beside the energy percentage.
 *
 * The picker holds no state of its own: each handler builds a new record from the one it
 * was given and hands it to its parent.
 */
module ConstraintPicker {

  /** `{ energy, time, context }`; the sliders only ever produce whole numbers. */
  datatype Constraints = Constraints(energy: int, time: int, context: string)

  /** getEnergyLabel: thresholds at 30 and 70. */
  function EnergyLabel(val: int): (word: string)
    ensures word == "Low" <==> val < 30
    ensures word == "Medium" <==> 30 <= val < 70
    ensures word == "High" <==> 70 <= val
  {
    if val < 30 then "Low"
    else if val < 70 then "Medium"
    else "High"
  }

  /** The order Low < Medium < High of the labels. */
  function LabelRank(word: string): nat
  {
    if word == "Low" then 0
    else if word == "Medium" then 1
    else 2
  }

  /** More energy never shows a lower label. */
  lemma EnergyLabelMonotone(a: int, b: int)
    requires a <= b
    ensures LabelRank(EnergyLabel(a)) <= LabelRank(EnergyLabel(b))
  {
  }

  /** handleEnergyChange: the slider reports its thumbs' values; the first becomes `energy`. */
  function OnEnergyChange(values: Constraints, val: seq<int>): (r: Constraints)
    requires |val| > 0
    ensures r.energy == val[0]
    ensures r.time == values.time && r.context == values.context
  {
    values.(energy := val[0])
  }

  /** handleTimeChange: the first slider value becomes `time`. */
  function OnTimeChange(values: Constraints, val: seq<int>): (r: Constraints)
    requires |val| > 0
    ensures r.time == val[0]
    ensures r.energy == values.energy && r.context == values.context
  {
    values.(time := val[0])
  }

  /** handleContextChange: the text field's value becomes `context`. */
  function OnContextChange(values: Constraints, text: string): (r: Constraints)
    ensures r.context == text
    ensures r.energy == values.energy && r.time == values.time
  {
    values.(context := text)
  }

  /** The handlers write disjoint fields, so edits to different fields can come in either
      order, and a second edit of the same field overrides the first. */
  lemma EditsCommute(values: Constraints, e: seq<int>, t: seq<int>, text: string)
    requires |e| > 0 && |t| > 0
    ensures OnTimeChange(OnEnergyChange(values, e), t) == OnEnergyChange(OnTimeChange(values, t), e)
    ensures OnContextChange(OnEnergyChange(values, e), text)
         == OnEnergyChange(OnContextChange(values, text), e)
    ensures OnContextChange(OnTimeChange(values, t), text)
         == OnTimeChange(OnContextChange(values, text), t)
    ensures OnEnergyChange(OnEnergyChange(values, t), e) == OnEnergyChange(values, e)
  {
  }

  /** The positions of the energy slider (no minimum, so 0; maximum 100; step 5), in order. */
  function EnergyPositions(): seq<int>
  {
    seq(21, i => 5 * i)
  }

  /** The positions of the time slider (minimum 5, maximum 120, step 5), in order. */
  function TimePositions(): seq<int>
  {
    seq(24, i => 5 + 5 * i)
  }

  /** The energy slider can report exactly the multiples of 5 from 0 to 100. */
  lemma EnergyPositionsAre(v: int)
    ensures v in EnergyPositions() <==> 0 <= v <= 100 && v % 5 == 0
  {
    if 0 <= v <= 100 && v % 5 == 0 {
      assert EnergyPositions()[v / 5] == v;
    }
  }

  /** The time slider can report exactly the multiples of 5 from 5 to 120. */
  lemma TimePositionsAre(v: int)
    ensures v in TimePositions() <==> 5 <= v <= 120 && v % 5 == 0
  {
    if 5 <= v <= 120 && v % 5 == 0 {
      assert TimePositions()[(v - 5) / 5] == v;
    }
  }

  /** Each label covers a contiguous stretch of the energy slider: six positions show Low,
      eight Medium and seven High. */
  lemma EnergyLabelsOnSlider(i: int)
    requires 0 <= i < |EnergyPositions()|
    ensures EnergyLabel(EnergyPositions()[i]) == "Low" <==> i < 6
    ensures EnergyLabel(EnergyPositions()[i]) == "Medium" <==> 6 <= i < 14
    ensures EnergyLabel(EnergyPositions()[i]) == "High" <==> 14 <= i
  {
  }
}
