/**
 * The goal editor: a text input whose trimmed content is appended to the goal list, and
 * removal of a goal by its position.
 */
module GoalEditor {

  /** ECMAScript white space and line terminators: what `String.prototype.trim` strips. */
  predicate IsWhitespace(c: char)
  {
    var n := c as int;
    n == 0x09 || n == 0x0A || n == 0x0B || n == 0x0C || n == 0x0D || n == 0x20 ||
    n == 0xA0 || n == 0x1680 || (0x2000 <= n <= 0x200A) || n == 0x2028 || n == 0x2029 ||
    n == 0x202F || n == 0x205F || n == 0x3000 || n == 0xFEFF
  }

  predicate Blank(s: string)
  {
    forall i :: 0 <= i < |s| ==> IsWhitespace(s[i])
  }

  /** The first position at or after `i` that is not white space (or |s|). */
  function SkipForward(s: string, i: nat): (k: nat)
    requires i <= |s|
    ensures i <= k <= |s|
    ensures k < |s| ==> !IsWhitespace(s[k])
    ensures forall j :: i <= j < k ==> IsWhitespace(s[j])
    decreases |s| - i
  {
    if i < |s| && IsWhitespace(s[i]) then SkipForward(s, i + 1) else i
  }

  /** The position just after the last non-space before `j` (or 0). */
  function SkipBackward(s: string, j: nat): (k: nat)
    requires j <= |s|
    ensures k <= j
    ensures k > 0 ==> !IsWhitespace(s[k - 1])
    ensures forall m :: k <= m < j ==> IsWhitespace(s[m])
    decreases j
  {
    if j > 0 && IsWhitespace(s[j - 1]) then SkipBackward(s, j - 1) else j
  }

  /** `s.trim()`: the piece of `s` between its leading and its trailing white space; empty
      exactly when `s` is blank, and otherwise starting and ending with a non-space. */
  function Trim(s: string): (r: string)
    ensures r == [] <==> Blank(s)
    ensures r != [] ==> !IsWhitespace(r[0]) && !IsWhitespace(r[|r| - 1])
    ensures r != [] ==> r == s[SkipForward(s, 0)..SkipBackward(s, |s|)]
    ensures forall j :: 0 <= j < SkipForward(s, 0) ==> IsWhitespace(s[j])
    ensures forall j :: SkipBackward(s, |s|) <= j < |s| ==> IsWhitespace(s[j])
  {
    var start := SkipForward(s, 0);
    var end := SkipBackward(s, |s|);
    if start < end then s[start..end] else ""
  }

  /** Trimming twice is trimming once. */
  lemma TrimIdempotent(s: string)
    ensures Trim(Trim(s)) == Trim(s)
  {
    var t := Trim(s);
    if t != [] {
      assert SkipForward(t, 0) == 0;
      assert SkipBackward(t, |t|) == |t|;
      assert t[0..|t|] == t;
    }
  }

  /** `goals.filter((_, i) => i !== index)`: drops the element at `index` if there is one. */
  function WithoutIndex<T>(s: seq<T>, index: int): (r: seq<T>)
    ensures 0 <= index < |s| ==> |r| == |s| - 1
    ensures 0 <= index < |s| ==> forall j :: 0 <= j < index ==> r[j] == s[j]
    ensures 0 <= index < |s| ==> forall j :: index <= j < |r| ==> r[j] == s[j + 1]
    ensures !(0 <= index < |s|) ==> r == s
    decreases |s|
  {
    if s == [] then []
    else (if index == 0 then [] else [s[0]]) + WithoutIndex(s[1..], index - 1)
  }

  /** addGoal on the list and the input: a non-blank input is appended trimmed and the input
      cleared; a blank input changes nothing. */
  function AddedGoal(goals: seq<string>, input: string): (r: (seq<string>, string))
    ensures !Blank(input) ==> r.0 == goals + [Trim(input)] && r.1 == "" && !Blank(r.0[|goals|])
    ensures Blank(input) ==> r == (goals, input)
  {
    if Trim(input) != "" then (goals + [Trim(input)], "") else (goals, input)
  }

  /** Every goal on the list is non-empty and already trimmed. */
  predicate Tidy(goals: seq<string>)
  {
    forall i :: 0 <= i < |goals| ==> goals[i] != [] && Trim(goals[i]) == goals[i]
  }

  /** Adding and removing goals keep a tidy list tidy, so a list built only through the
      editor never holds a blank or untrimmed goal. */
  lemma EditsKeepGoalsTidy(goals: seq<string>, input: string, index: int)
    requires Tidy(goals)
    ensures Tidy(AddedGoal(goals, input).0)
    ensures Tidy(WithoutIndex(goals, index))
  {
    TrimIdempotent(input);
    var removed := WithoutIndex(goals, index);
    if 0 <= index < |goals| {
      forall i | 0 <= i < |removed|
        ensures removed[i] != [] && Trim(removed[i]) == removed[i]
      {
        if i < index {
          assert removed[i] == goals[i];
        } else {
          assert removed[i] == goals[i + 1];
        }
      }
    }
  }

  /** Removing the goal just added gives back the list as it was. */
  lemma RemoveUndoesAdd(goals: seq<string>, input: string)
    requires !Blank(input)
    ensures WithoutIndex(AddedGoal(goals, input).0, |goals|) == goals
  {
    var added := AddedGoal(goals, input).0;
    var back := WithoutIndex(added, |goals|);
    assert |back| == |goals|;
    forall j | 0 <= j < |goals|
      ensures back[j] == goals[j]
    {
      assert back[j] == added[j];
    }
  }

  /** The editor: the list it shows (owned by its parent and replaced through `onChange`)
      and its own input text. */
  class Editor {
    var goals: seq<string>
    var newGoal: string

    constructor (goals: seq<string>)
      ensures this.goals == goals && newGoal == ""
    {
      this.goals := goals;
      newGoal := "";
    }

    /** Typing in the input. */
    method SetNewGoal(text: string)
      modifies this
      ensures newGoal == text && goals == old(goals)
    {
      newGoal := text;
    }

    method AddGoal()
      modifies this
      ensures (goals, newGoal) == AddedGoal(old(goals), old(newGoal))
    {
      var trimmed := Trim(newGoal);
      if trimmed != "" {
        goals := goals + [trimmed];
        newGoal := "";
      }
    }

    method RemoveGoal(index: int)
      modifies this
      ensures goals == WithoutIndex(old(goals), index) && newGoal == old(newGoal)
    {
      goals := WithoutIndex(goals, index);
    }

    /** handleKeyDown: Enter adds, any other key changes nothing. */
    method HandleKeyDown(key: string)
      modifies this
      ensures key == "Enter" ==> (goals, newGoal) == AddedGoal(old(goals), old(newGoal))
      ensures key != "Enter" ==> goals == old(goals) && newGoal == old(newGoal)
    {
      if key == "Enter" {
        AddGoal();
      }
    }

    /** The add button is disabled exactly when the input is blank. */
    function AddDisabled(): (disabled: bool)
      reads this
      ensures disabled <==> Blank(newGoal)
    {
      Trim(newGoal) == ""
    }
  }
}
