/**
 * The three request/response schemas, as predicates over parsed JSON values, and the
 * typed values a successful parse yields. Unknown object keys are ignored, as the
 * schema library's default object parsing does.
 */
module Schemas {
  import opened Wrappers

  /** A parsed JSON value; JSON numbers are read as reals. */
  datatype Json =
    | JNull
    | JBool(b: bool)
    | JNumber(n: real)
    | JString(s: string)
    | JArray(items: seq<Json>)
    | JObject(fields: map<string, Json>)

  type Fields = map<string, Json>

  predicate StringField(o: Fields, key: string)
  {
    key in o && o[key].JString?
  }

  predicate NumberField(o: Fields, key: string)
  {
    key in o && o[key].JNumber?
  }

  /** A number field within [lo, hi], both bounds included. */
  predicate NumberFieldIn(o: Fields, key: string, lo: real, hi: real)
  {
    NumberField(o, key) && lo <= o[key].n <= hi
  }

  /** `.nullable().optional()` on a string: absent, null or a string. */
  predicate OptionalNullableString(o: Fields, key: string)
  {
    key !in o || o[key].JNull? || o[key].JString?
  }

  /** The value of such a field: null and absent both read as None. */
  function OptionalText(o: Fields, key: string): (r: Option<string>)
    requires OptionalNullableString(o, key)
    ensures r.Some? <==> key in o && o[key].JString?
    ensures r.Some? ==> r.value == o[key].s
  {
    if key in o && o[key].JString? then Some(o[key].s) else None
  }

  // ---------------------------------------------------------------- next-action input

  datatype Context = HOME | WORK | OUTSIDE

  const CONTEXT_NAMES: set<string> := {"HOME", "WORK", "OUTSIDE"}

  datatype GoalInput = GoalInput(id: string, title: string, description: string,
                                 priority: real, deadline: Option<string>)

  datatype NextActionInput = NextActionInput(availableMinutes: real, energy: real, context: Context,
                                             goals: Option<seq<GoalInput>>)

  predicate AvailableMinutesOk(o: Fields)
  {
    NumberFieldIn(o, "availableMinutes", 5.0, 1440.0)
  }

  predicate EnergyOk(o: Fields)
  {
    NumberFieldIn(o, "energy", 1.0, 5.0)
  }

  predicate ContextOk(o: Fields)
  {
    StringField(o, "context") && o["context"].s in CONTEXT_NAMES
  }

  predicate GoalOk(g: Json)
  {
    && g.JObject?
    && StringField(g.fields, "id")
    && StringField(g.fields, "title")
    && StringField(g.fields, "description")
    && NumberField(g.fields, "priority")
    && OptionalNullableString(g.fields, "deadline")
  }

  /** `goals` is optional, but when present it is an array of goal objects (not null). */
  predicate GoalsOk(o: Fields)
  {
    "goals" !in o ||
    (o["goals"].JArray? && forall i :: 0 <= i < |o["goals"].items| ==> GoalOk(o["goals"].items[i]))
  }

  /** nextActionInputSchema */
  predicate NextActionInputValid(j: Json)
  {
    j.JObject? && AvailableMinutesOk(j.fields) && EnergyOk(j.fields) && ContextOk(j.fields) && GoalsOk(j.fields)
  }

  /** The enum name of a context. */
  function ContextName(c: Context): (name: string)
    ensures name in CONTEXT_NAMES
  {
    match c
    case HOME => "HOME"
    case WORK => "WORK"
    case OUTSIDE => "OUTSIDE"
  }

  /** The context an accepted enum name denotes: the one whose name it is. */
  function ContextNamed(name: string): (c: Context)
    requires name in CONTEXT_NAMES
    ensures ContextName(c) == name
  {
    if name == "HOME" then HOME else if name == "WORK" then WORK else OUTSIDE
  }

  /** Names and contexts correspond one to one. */
  lemma ContextNamesCorrespond(c: Context)
    ensures ContextNamed(ContextName(c)) == c
  {
  }

  function ParseGoal(g: Json): (r: GoalInput)
    requires GoalOk(g)
    ensures r.id == g.fields["id"].s && r.title == g.fields["title"].s
    ensures r.description == g.fields["description"].s && r.priority == g.fields["priority"].n
    ensures r.deadline == OptionalText(g.fields, "deadline")
  {
    GoalInput(g.fields["id"].s, g.fields["title"].s, g.fields["description"].s,
              g.fields["priority"].n, OptionalText(g.fields, "deadline"))
  }

  /** What `nextActionInputSchema.safeParse` yields: a typed input exactly when the JSON is valid. */
  function ParseNextActionInput(j: Json): (r: Option<NextActionInput>)
    ensures r.Some? <==> NextActionInputValid(j)
    ensures r.Some? ==> 5.0 <= r.value.availableMinutes <= 1440.0 && 1.0 <= r.value.energy <= 5.0
    ensures r.Some? ==> r.value.availableMinutes == j.fields["availableMinutes"].n &&
                        r.value.energy == j.fields["energy"].n &&
                        ContextName(r.value.context) == j.fields["context"].s
    ensures r.Some? ==> (r.value.goals.Some? <==> "goals" in j.fields)
    ensures r.Some? && r.value.goals.Some? ==>
              |r.value.goals.value| == |j.fields["goals"].items| &&
              forall i :: 0 <= i < |r.value.goals.value| ==>
                r.value.goals.value[i] == ParseGoal(j.fields["goals"].items[i])
  {
    if !NextActionInputValid(j) then None
    else
      var o := j.fields;
      var goals :=
        if "goals" in o then
          var items := o["goals"].items;
          Some(seq(|items|, i requires 0 <= i < |items| => ParseGoal(items[i])))
        else None;
      Some(NextActionInput(o["availableMinutes"].n, o["energy"].n, ContextNamed(o["context"].s), goals))
  }

  /** A goal as a client would send it; an absent deadline is either left out or sent as
      null. */
  function EncodeGoal(g: GoalInput, nullDeadline: bool): Json
  {
    var base := map["id" := JString(g.id), "title" := JString(g.title),
                     "description" := JString(g.description), "priority" := JNumber(g.priority)];
    JObject(if g.deadline.Some? then base["deadline" := JString(g.deadline.value)]
            else if nullDeadline then base["deadline" := JNull]
            else base)
  }

  /** Every goal survives sending and parsing, whichever way a missing deadline is sent. */
  lemma GoalRoundTrip(g: GoalInput, nullDeadline: bool)
    ensures GoalOk(EncodeGoal(g, nullDeadline))
    ensures ParseGoal(EncodeGoal(g, nullDeadline)) == g
  {
  }

  /** A next-action request as a client would send it (goals left out when absent). */
  function EncodeNextActionInput(x: NextActionInput): Json
  {
    var base := map["availableMinutes" := JNumber(x.availableMinutes), "energy" := JNumber(x.energy),
                     "context" := JString(ContextName(x.context))];
    JObject(if x.goals.Some? then
              base["goals" := JArray(seq(|x.goals.value|, i requires 0 <= i < |x.goals.value| =>
                                           EncodeGoal(x.goals.value[i], false)))]
            else base)
  }

  /** A sent request is accepted exactly when its minutes and energy are in range, and then
      parses back to itself. */
  lemma NextActionInputRoundTrip(x: NextActionInput)
    ensures NextActionInputValid(EncodeNextActionInput(x)) <==>
              5.0 <= x.availableMinutes <= 1440.0 && 1.0 <= x.energy <= 5.0
    ensures 5.0 <= x.availableMinutes <= 1440.0 && 1.0 <= x.energy <= 5.0 ==>
              ParseNextActionInput(EncodeNextActionInput(x)) == Some(x)
  {
    var j := EncodeNextActionInput(x);
    if x.goals.Some? {
      var items := j.fields["goals"].items;
      forall i | 0 <= i < |items|
        ensures GoalOk(items[i]) && ParseGoal(items[i]) == x.goals.value[i]
      {
        GoalRoundTrip(x.goals.value[i], false);
      }
    }
    ContextNamesCorrespond(x.context);
    if 5.0 <= x.availableMinutes <= 1440.0 && 1.0 <= x.energy <= 5.0 {
      var r := ParseNextActionInput(j);
      assert r.Some?;
      if x.goals.Some? {
        assert r.value.goals.value == x.goals.value;
      }
    }
  }

  // ---------------------------------------------------------------- model response

  datatype LlmAction = LlmAction(title: string, whyThis: string, steps: seq<string>, timeMinutes: real,
                                 difficulty: real, successCriteria: string, fallbackIfStuck: string)

  predicate StepsOk(o: Fields)
  {
    && "steps" in o
    && o["steps"].JArray?
    && 3 <= |o["steps"].items| <= 6
    && forall i :: 0 <= i < |o["steps"].items| ==> o["steps"].items[i].JString?
  }

  /** llmActionResponseSchema; `time_minutes` is any number, with no bound. */
  predicate LlmResponseValid(j: Json)
  {
    && j.JObject?
    && StringField(j.fields, "title")
    && StringField(j.fields, "why_this")
    && StepsOk(j.fields)
    && NumberField(j.fields, "time_minutes")
    && NumberFieldIn(j.fields, "difficulty", 1.0, 5.0)
    && StringField(j.fields, "success_criteria")
    && StringField(j.fields, "fallback_if_stuck")
  }

  /** What `llmActionResponseSchema.parse` yields: the typed action exactly when the JSON is
      valid, carrying the JSON's own field values. */
  function ParseLlmAction(j: Json): (r: Option<LlmAction>)
    ensures r.Some? <==> LlmResponseValid(j)
    ensures r.Some? ==> 3 <= |r.value.steps| <= 6 && 1.0 <= r.value.difficulty <= 5.0
    ensures r.Some? ==> |r.value.steps| == |j.fields["steps"].items| &&
                        forall i :: 0 <= i < |r.value.steps| ==> r.value.steps[i] == j.fields["steps"].items[i].s
    ensures r.Some? ==> r.value.title == j.fields["title"].s && r.value.whyThis == j.fields["why_this"].s &&
                        r.value.timeMinutes == j.fields["time_minutes"].n &&
                        r.value.difficulty == j.fields["difficulty"].n &&
                        r.value.successCriteria == j.fields["success_criteria"].s &&
                        r.value.fallbackIfStuck == j.fields["fallback_if_stuck"].s
  {
    if !LlmResponseValid(j) then None
    else
      var o := j.fields;
      var items := o["steps"].items;
      Some(LlmAction(o["title"].s, o["why_this"].s,
                     seq(|items|, i requires 0 <= i < |items| => items[i].s),
                     o["time_minutes"].n, o["difficulty"].n,
                     o["success_criteria"].s, o["fallback_if_stuck"].s))
  }

  /** A response whose fields are all well formed except the number of steps. */
  function SampleResponse(steps: nat, minutes: real): Json
  {
    JObject(map[
      "title" := JString("Outline the report"),
      "why_this" := JString("Smallest next step"),
      "steps" := JArray(seq(steps, _ => JString("step"))),
      "time_minutes" := JNumber(minutes),
      "difficulty" := JNumber(2.0),
      "success_criteria" := JString("Outline exists"),
      "fallback_if_stuck" := JString("Write one heading")])
  }

  /** The step bounds are inclusive on both ends, and the minutes are not bounded at all:
      a negative estimate passes the schema. */
  lemma StepBoundsAndUnboundedMinutes()
    ensures LlmResponseValid(SampleResponse(3, 10.0)) && LlmResponseValid(SampleResponse(6, 10.0))
    ensures !LlmResponseValid(SampleResponse(2, 10.0)) && !LlmResponseValid(SampleResponse(7, 10.0))
    ensures LlmResponseValid(SampleResponse(4, -15.0))
  {
    var sample := SampleResponse(2, 10.0);
    assert |sample.fields["steps"].items| == 2;
    sample := SampleResponse(7, 10.0);
    assert |sample.fields["steps"].items| == 7;
  }

  // ---------------------------------------------------------------- feedback input

  datatype FeedbackType = DONE | TOO_HARD | NOT_RELEVANT | RETRY

  const FEEDBACK_TYPE_NAMES: set<string> := {"DONE", "TOO_HARD", "NOT_RELEVANT", "RETRY"}

  datatype FeedbackInput = FeedbackInput(actionId: string, kind: FeedbackType, note: Option<string>)

  /** feedbackInputSchema */
  predicate FeedbackInputValid(j: Json)
  {
    && j.JObject?
    && StringField(j.fields, "actionId")
    && StringField(j.fields, "type") && j.fields["type"].s in FEEDBACK_TYPE_NAMES
    && OptionalNullableString(j.fields, "note")
  }

  /** The enum name of a feedback type. */
  function FeedbackTypeName(t: FeedbackType): (name: string)
    ensures name in FEEDBACK_TYPE_NAMES
  {
    match t
    case DONE => "DONE"
    case TOO_HARD => "TOO_HARD"
    case NOT_RELEVANT => "NOT_RELEVANT"
    case RETRY => "RETRY"
  }

  /** The feedback type an accepted enum name denotes: the one whose name it is. */
  function FeedbackTypeNamed(name: string): (t: FeedbackType)
    requires name in FEEDBACK_TYPE_NAMES
    ensures FeedbackTypeName(t) == name
  {
    if name == "DONE" then DONE
    else if name == "TOO_HARD" then TOO_HARD
    else if name == "NOT_RELEVANT" then NOT_RELEVANT
    else RETRY
  }

  /** Names and feedback types correspond one to one. */
  lemma FeedbackTypeNamesCorrespond(t: FeedbackType)
    ensures FeedbackTypeNamed(FeedbackTypeName(t)) == t
  {
  }

  /** What `feedbackInputSchema.safeParse` yields. */
  function ParseFeedbackInput(j: Json): (r: Option<FeedbackInput>)
    ensures r.Some? <==> FeedbackInputValid(j)
    ensures r.Some? ==> r.value.actionId == j.fields["actionId"].s &&
                        r.value.kind == FeedbackTypeNamed(j.fields["type"].s) &&
                        r.value.note == OptionalText(j.fields, "note")
  {
    if !FeedbackInputValid(j) then None
    else
      Some(FeedbackInput(j.fields["actionId"].s, FeedbackTypeNamed(j.fields["type"].s),
                         OptionalText(j.fields, "note")))
  }

  /** Feedback as a client would send it; a missing note is either left out or sent as null. */
  function EncodeFeedback(f: FeedbackInput, nullNote: bool): Json
  {
    var base := map["actionId" := JString(f.actionId), "type" := JString(FeedbackTypeName(f.kind))];
    JObject(if f.note.Some? then base["note" := JString(f.note.value)]
            else if nullNote then base["note" := JNull]
            else base)
  }

  /** Every feedback input is accepted and parses back to itself, whichever way a missing note
      is sent. */
  lemma FeedbackRoundTrip(f: FeedbackInput, nullNote: bool)
    ensures FeedbackInputValid(EncodeFeedback(f, nullNote))
    ensures ParseFeedbackInput(EncodeFeedback(f, nullNote)) == Some(f)
  {
    FeedbackTypeNamesCorrespond(f.kind);
  }
}
