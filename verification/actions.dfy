/**
 * The recommendation generator: goal resolution, a bounded two-attempt request loop
 * against the language model (with its reply parsed and validated), persistence of the
 * accepted action, the per-user history, and feedback with its ownership check.
 */
module Actions {
  import opened Wrappers
  import opened Schemas
  import opened Entitlements

  const MAX_ATTEMPTS: nat := 2
  const HISTORY_LIMIT: nat := 20
  const MODEL_USED: string := "gpt-3.5-turbo"
  const UNKNOWN_ERROR: string := "Unknown error"
  const NOT_FOUND: string := "Action not found or unauthorized"

  // ---------------------------------------------------------------- goals

  /** A row of the goal table, as the generator selects it. */
  datatype StoredGoal = StoredGoal(id: string, userId: UserId, title: string, description: string,
                                   priority: int, deadline: Option<Timestamp>)

  /** The user's goals, in table order. */
  function UserGoals(stored: seq<StoredGoal>, user: UserId): (r: seq<StoredGoal>)
    ensures |r| <= |stored|
    ensures forall i :: 0 <= i < |r| ==> r[i].userId == user
    ensures forall g :: g in stored && g.userId == user <==> g in r
    decreases |stored|
  {
    if stored == [] then []
    else
      var rest := UserGoals(stored[..|stored| - 1], user);
      var last := stored[|stored| - 1];
      assert stored == stored[..|stored| - 1] + [last];
      if last.userId == user then rest + [last] else rest
  }

  /** Selecting from a concatenation of tables selects from each in turn: the user's goals
      keep their table order and each appears as often as it is stored. */
  lemma {:induction false} UserGoalsAppend(a: seq<StoredGoal>, b: seq<StoredGoal>, user: UserId)
    ensures UserGoals(a + b, user) == UserGoals(a, user) + UserGoals(b, user)
    decreases |b|
  {
    if b == [] {
      assert a + b == a;
    } else {
      var init := b[..|b| - 1];
      assert (a + b)[..|a + b| - 1] == a + init;
      assert (a + b)[|a + b| - 1] == b[|b| - 1];
      UserGoalsAppend(a, init, user);
    }
  }

  /** A single row is selected exactly when the user owns it. */
  lemma UserGoalsSingle(g: StoredGoal, user: UserId)
    ensures UserGoals([g], user) == if g.userId == user then [g] else []
  {
    assert [g][..0] == [];
  }

  /** A stored goal in the input shape; the deadline becomes its ISO text, or null. */
  function AsGoalInput(g: StoredGoal, iso: Timestamp -> string): GoalInput
  {
    GoalInput(g.id, g.title, g.description, g.priority as real,
              if g.deadline.Some? then Some(iso(g.deadline.value)) else None)
  }

  /** The goals the prompt embeds: the caller's when non-empty, all of the user's otherwise. */
  function ResolveGoals(given: Option<seq<GoalInput>>, stored: seq<StoredGoal>, user: UserId,
                        iso: Timestamp -> string): (goals: seq<GoalInput>)
    ensures given.Some? && given.value != [] ==> goals == given.value
    ensures !(given.Some? && given.value != []) ==>
              |goals| == |UserGoals(stored, user)| &&
              forall i :: 0 <= i < |goals| ==> goals[i] == AsGoalInput(UserGoals(stored, user)[i], iso)
  {
    if given.Some? && given.value != [] then given.value
    else
      var mine := UserGoals(stored, user);
      seq(|mine|, i requires 0 <= i < |mine| => AsGoalInput(mine[i], iso))
  }

  // ---------------------------------------------------------------- the model call

  /** A chat message; the prompt texts themselves are not modelled, only what they carry. */
  datatype Message =
    | SystemPrompt
    | UserPrompt(input: NextActionInput, goals: seq<GoalInput>)
    | RetryNote(lastError: string)

  /** What one attempt's request produced: it threw (the call failed, or the reply was not
      JSON), or it returned content that parsed to `body`; `issues` is the schema library's
      message, used should `body` fail the schema. */
  datatype Completion =
    | Threw(message: string)
    | Parsed(content: Option<string>, body: Json, issues: string)

  /** The accepted reply of one attempt: the raw text and the validated action. */
  datatype Reply = Reply(rawJson: string, action: LlmAction)

  /** The outcome of the request loop: which attempt succeeded, with its reply. */
  datatype Generated = Generated(attempts: nat, reply: Reply)

  /** `content || '{}'` */
  function RawJson(content: Option<string>): (raw: string)
    ensures raw != ""
    ensures content.Some? && content.value != "" ==> raw == content.value
  {
    if content.Some? && content.value != "" then content.value else "{}"
  }

  /** `error.message || 'Unknown error'` */
  function OrUnknown(message: string): (m: string)
    ensures m != ""
    ensures message != "" ==> m == message
  {
    if message != "" then message else UNKNOWN_ERROR
  }

  /** The loop's failure message: a fixed text ending with the last attempt's error. */
  function FailureText(lastError: string): (text: string)
    ensures |text| > |lastError| && text[|text| - |lastError|..] == lastError
  {
    "Failed to generate valid action after 2 attempts. Last error: " + lastError
  }

  /** The try block of one attempt: accepted reply, or the error message it records. */
  function Judge(c: Completion): (v: Result<Reply, string>)
    ensures v.Ok? <==> c.Parsed? && LlmResponseValid(c.body)
    ensures v.Ok? ==> v.value.rawJson == RawJson(c.content) && ParseLlmAction(c.body) == Some(v.value.action)
    ensures v.Err? ==> v.error != ""
    ensures v.Err? && c.Threw? && c.message != "" ==> v.error == c.message
  {
    match c
    case Threw(message) => Err(OrUnknown(message))
    case Parsed(content, body, issues) =>
      match ParseLlmAction(body)
      case Some(action) => Ok(Reply(RawJson(content), action))
      case None => Err(OrUnknown(issues))
  }

  /** The two messages every attempt starts with. */
  function Opening(input: NextActionInput, goals: seq<GoalInput>): seq<Message>
  {
    [SystemPrompt, UserPrompt(input, goals)]
  }

  /** The loop's outcome, attempt by attempt: the first attempt's reply if it is accepted;
      otherwise a second attempt told the first one's error; otherwise failure. */
  function Generation(input: NextActionInput, goals: seq<GoalInput>,
                      llm: (nat, seq<Message>) -> Completion): (g: Result<Generated, string>)
    ensures g.Ok? ==> 1 <= g.value.attempts <= MAX_ATTEMPTS
    ensures (g.Ok? && g.value.attempts == 1) <==> Judge(llm(1, Opening(input, goals))).Ok?
    ensures g.Err? <==>
              && Judge(llm(1, Opening(input, goals))).Err?
              && Judge(llm(2, Opening(input, goals) + [RetryNote(Judge(llm(1, Opening(input, goals))).error)])).Err?
  {
    var first := Judge(llm(1, Opening(input, goals)));
    if first.Ok? then Ok(Generated(1, first.value))
    else
      var second := Judge(llm(2, Opening(input, goals) + [RetryNote(first.error)]));
      if second.Ok? then Ok(Generated(2, second.value))
      else Err(FailureText(second.error))
  }

  /** The request loop of generateNextAction. `llm(k, messages)` is what the model call,
      JSON.parse and the schema make of attempt k sent with `messages`; `asked` lists the
      conversations actually sent. */
  method RequestAction(input: NextActionInput, goals: seq<GoalInput>, llm: (nat, seq<Message>) -> Completion)
    returns (outcome: Result<Generated, string>, asked: seq<seq<Message>>)
    ensures 1 <= |asked| <= MAX_ATTEMPTS
    ensures asked[0] == Opening(input, goals)
    ensures |asked| == 2 ==> Judge(llm(1, asked[0])).Err? &&
                             asked[1] == asked[0] + [RetryNote(Judge(llm(1, asked[0])).error)]
    ensures outcome.Ok? <==> Judge(llm(|asked|, asked[|asked| - 1])).Ok?
    ensures outcome.Ok? ==> outcome.value == Generated(|asked|, Judge(llm(|asked|, asked[|asked| - 1])).value)
    ensures outcome.Err? ==> |asked| == MAX_ATTEMPTS &&
                             outcome.error == FailureText(Judge(llm(2, asked[1])).error)
    ensures outcome == Generation(input, goals, llm)
  {
    var attempts := 0;
    var lastError := "";
    var parsed: Option<Reply> := None;
    asked := [];
    while attempts < MAX_ATTEMPTS && parsed.None?
      invariant 0 <= attempts <= MAX_ATTEMPTS
      invariant |asked| == attempts
      invariant attempts >= 1 ==> asked[0] == Opening(input, goals)
      invariant attempts == 0 ==> lastError == "" && parsed.None?
      invariant attempts == 2 ==> Judge(llm(1, asked[0])).Err? &&
                                  asked[1] == asked[0] + [RetryNote(Judge(llm(1, asked[0])).error)]
      invariant attempts >= 1 && parsed.None? ==>
                  attempts < MAX_ATTEMPTS && Judge(llm(attempts, asked[attempts - 1])).Err? &&
                  lastError == Judge(llm(attempts, asked[attempts - 1])).error
      invariant parsed.Some? ==> attempts >= 1 && Judge(llm(attempts, asked[attempts - 1])) == Ok(parsed.value)
    {
      attempts := attempts + 1;
      var messages := Opening(input, goals);
      if lastError != "" && attempts > 1 {
        messages := messages + [RetryNote(lastError)];
      }
      asked := asked + [messages];
      var verdict := Judge(llm(attempts, messages));
      match verdict {
        case Ok(reply) =>
          parsed := Some(reply);
        case Err(message) =>
          lastError := message;
          if attempts == MAX_ATTEMPTS {
            outcome := Err(FailureText(lastError));
            return;
          }
      }
    }
    // the loop only ends here with an accepted reply, so the source's
    // "Failed to generate action" guard after it never fires
    outcome := Ok(Generated(attempts, parsed.value));
  }

  // ---------------------------------------------------------------- stored records

  datatype ActionRecord = ActionRecord(
    id: string, userId: UserId, goalId: Option<string>,
    title: string, whyThis: string, steps: seq<string>, timeMinutes: real, difficulty: real,
    successCriteria: string, fallbackIfStuck: string,
    modelUsed: string, rawJson: string, createdAt: Timestamp)

  datatype FeedbackRecord = FeedbackRecord(userId: UserId, actionId: string, kind: FeedbackType, note: Option<string>)

  /** The record persisted for an accepted reply: its parsed fields, no goal, the model name
      and the raw reply text. */
  function NewRecord(id: string, user: UserId, g: Generated, now: Timestamp): (rec: ActionRecord)
    ensures RecordedAction(rec) == g.reply.action
    ensures rec.id == id && rec.userId == user && rec.createdAt == now
    ensures rec.goalId == None && rec.modelUsed == MODEL_USED && rec.rawJson == g.reply.rawJson
  {
    var a := g.reply.action;
    ActionRecord(id, user, None, a.title, a.whyThis, a.steps, a.timeMinutes, a.difficulty,
                 a.successCriteria, a.fallbackIfStuck, MODEL_USED, g.reply.rawJson, now)
  }

  /** The validated action a stored record carries. */
  function RecordedAction(rec: ActionRecord): LlmAction
  {
    LlmAction(rec.title, rec.whyThis, rec.steps, rec.timeMinutes, rec.difficulty,
              rec.successCriteria, rec.fallbackIfStuck)
  }

  /** An accepted reply satisfies the response schema, so the persisted record has 3 to 6
      steps and a difficulty in [1, 5]. */
  lemma {:induction false} GeneratedRecordWithinSchema(input: NextActionInput, goals: seq<GoalInput>,
                                                       llm: (nat, seq<Message>) -> Completion,
                                                       id: string, user: UserId, now: Timestamp)
    requires Generation(input, goals, llm).Ok?
    ensures var rec := NewRecord(id, user, Generation(input, goals, llm).value, now);
            3 <= |rec.steps| <= 6 && 1.0 <= rec.difficulty <= 5.0 &&
            rec.goalId == None && rec.modelUsed == MODEL_USED
  {
    var first := Judge(llm(1, Opening(input, goals)));
    if !first.Ok? {
      var second := Judge(llm(2, Opening(input, goals) + [RetryNote(first.error)]));
      assert second.Ok?;
    }
  }

  /** The first action with a given id, as a unique-key lookup finds it. */
  function FindAction(actions: seq<ActionRecord>, id: string): (r: Option<ActionRecord>)
    ensures r.None? <==> forall i :: 0 <= i < |actions| ==> actions[i].id != id
    ensures r.Some? ==> r.value in actions && r.value.id == id
    decreases |actions|
  {
    if actions == [] then None
    else if actions[0].id == id then Some(actions[0])
    else
      var r := FindAction(actions[1..], id);
      assert forall i :: 1 <= i < |actions| ==> actions[i] == actions[1..][i - 1];
      r
  }

  /** Action ids are a unique key. */
  ghost predicate DistinctIds(actions: seq<ActionRecord>)
  {
    forall i, j :: 0 <= i < j < |actions| ==> actions[i].id != actions[j].id
  }

  /** With unique ids the lookup finds the one action that has the id. */
  lemma {:induction false} FindActionUnique(actions: seq<ActionRecord>, k: int)
    requires DistinctIds(actions)
    requires 0 <= k < |actions|
    ensures FindAction(actions, actions[k].id) == Some(actions[k])
    decreases |actions|
  {
    if k > 0 {
      assert actions[0].id != actions[k].id;
      assert DistinctIds(actions[1..]) by {
        forall i, j | 0 <= i < j < |actions| - 1
          ensures actions[1..][i].id != actions[1..][j].id
        {
          assert actions[1..][i] == actions[i + 1] && actions[1..][j] == actions[j + 1];
        }
      }
      assert actions[1..][k - 1] == actions[k];
      FindActionUnique(actions[1..], k - 1);
    }
  }

  /** The user's actions in the order they were stored. */
  function OwnedBy(actions: seq<ActionRecord>, user: UserId): seq<ActionRecord>
    decreases |actions|
  {
    if actions == [] then []
    else
      var last := actions[|actions| - 1];
      OwnedBy(actions[..|actions| - 1], user) + (if last.userId == user then [last] else [])
  }

  function Reverse<T>(s: seq<T>): seq<T>
    decreases |s|
  {
    if s == [] then [] else [s[|s| - 1]] + Reverse(s[..|s| - 1])
  }

  /** The user's `n` most recent actions, newest first (creation order is storage order). */
  function Latest(actions: seq<ActionRecord>, user: UserId, n: nat): (r: seq<ActionRecord>)
    ensures |r| <= n
    ensures forall i :: 0 <= i < |r| ==> r[i].userId == user && r[i] in actions
    decreases |actions|
  {
    if n == 0 || actions == [] then []
    else
      var last := actions[|actions| - 1];
      var older := actions[..|actions| - 1];
      assert forall a :: a in older ==> a in actions;
      if last.userId == user then [last] + Latest(older, user, n - 1)
      else Latest(older, user, n)
  }

  /** getHistory's result is the first `n` of the user's actions in reverse storage order,
      i.e. the newest ones, newest first; and it has min(n, number of the user's actions)
      entries. */
  lemma {:induction false} LatestIsNewestOwned(actions: seq<ActionRecord>, user: UserId, n: nat)
    ensures var mine := Reverse(OwnedBy(actions, user));
            |Reverse(OwnedBy(actions, user))| == |OwnedBy(actions, user)| &&
            Latest(actions, user, n) == mine[..if n <= |mine| then n else |mine|]
    decreases |actions|
  {
    ReverseLength(OwnedBy(actions, user));
    if actions == [] {
    } else {
      var last := actions[|actions| - 1];
      var older := actions[..|actions| - 1];
      LatestIsNewestOwned(older, user, if last.userId == user && n > 0 then n - 1 else n);
      ReverseLength(OwnedBy(older, user));
      if last.userId == user {
        ReverseSnoc(OwnedBy(older, user), last);
      } else {
        assert OwnedBy(actions, user) == OwnedBy(older, user) + [];
        assert OwnedBy(older, user) + [] == OwnedBy(older, user);
      }
    }
  }

  lemma {:induction false} ReverseLength<T>(s: seq<T>)
    ensures |Reverse(s)| == |s|
    decreases |s|
  {
    if s != [] {
      ReverseLength(s[..|s| - 1]);
    }
  }

  lemma ReverseSnoc<T>(s: seq<T>, x: T)
    ensures Reverse(s + [x]) == [x] + Reverse(s)
  {
    assert (s + [x])[..|s + [x]| - 1] == s;
  }

  /** An action just appended heads its owner's history, the rest of that history is the
      owner's previous newest 19, and no other user's history changes. */
  lemma NewActionHeadsHistory(actions: seq<ActionRecord>, rec: ActionRecord, other: UserId)
    requires other != rec.userId
    ensures Latest(actions + [rec], rec.userId, HISTORY_LIMIT)
         == [rec] + Latest(actions, rec.userId, HISTORY_LIMIT - 1)
    ensures Latest(actions + [rec], other, HISTORY_LIMIT) == Latest(actions, other, HISTORY_LIMIT)
  {
    assert (actions + [rec])[..|actions + [rec]| - 1] == actions;
  }

  // ---------------------------------------------------------------- the service

  /** The goal, action and feedback tables the service reads and appends to. */
  class ActionStore {
    var goals: seq<StoredGoal>
    var actions: seq<ActionRecord>
    var feedback: seq<FeedbackRecord>

    /** No two stored actions share an id. */
    ghost predicate Valid()
      reads this
    {
      DistinctIds(actions)
    }

    constructor (goals: seq<StoredGoal>)
      ensures Valid()
      ensures this.goals == goals && actions == [] && feedback == []
    {
      this.goals := goals;
      actions := [];
      feedback := [];
    }

    /** generateNextAction: resolve goals, run the request loop, and append exactly one
        record on success; on failure throw the loop's message and append nothing.
        `newId` and `now` are the database's generated id and creation time. */
    method GenerateNextAction(user: UserId, input: NextActionInput, llm: (nat, seq<Message>) -> Completion,
                              iso: Timestamp -> string, newId: string, now: Timestamp)
      returns (r: Result<ActionRecord, string>)
      requires Valid()
      requires forall i :: 0 <= i < |actions| ==> actions[i].id != newId
      modifies this
      ensures Valid()
      ensures goals == old(goals) && feedback == old(feedback)
      ensures var g := Generation(input, ResolveGoals(input.goals, old(goals), user, iso), llm);
              (g.Ok? ==> r == Ok(NewRecord(newId, user, g.value, now)) && actions == old(actions) + [r.value]) &&
              (g.Err? ==> r == Err(g.error) && actions == old(actions))
      ensures r.Ok? ==> 3 <= |r.value.steps| <= 6 && 1.0 <= r.value.difficulty <= 5.0
    {
      var resolved := ResolveGoals(input.goals, goals, user, iso);
      var outcome, _ := RequestAction(input, resolved, llm);
      match outcome {
        case Err(message) =>
          r := Err(message);
        case Ok(g) =>
          GeneratedRecordWithinSchema(input, resolved, llm, newId, user, now);
          var rec := NewRecord(newId, user, g, now);
          actions := actions + [rec];
          r := Ok(rec);
      }
    }

    /** getHistory: the caller's newest actions, at most 20, newest first. */
    function GetHistory(user: UserId): (h: seq<ActionRecord>)
      reads this
      ensures |h| <= HISTORY_LIMIT
      ensures forall i :: 0 <= i < |h| ==> h[i].userId == user && h[i] in actions
      ensures var mine := Reverse(OwnedBy(actions, user));
              h == mine[..if HISTORY_LIMIT <= |mine| then HISTORY_LIMIT else |mine|]
    {
      LatestIsNewestOwned(actions, user, HISTORY_LIMIT);
      Latest(actions, user, HISTORY_LIMIT)
    }

    /** submitFeedback: refuse when the action is missing or someone else's; otherwise
        append one feedback record. */
    method SubmitFeedback(user: UserId, actionId: string, kind: FeedbackType, note: Option<string>)
      returns (r: Result<FeedbackRecord, string>)
      requires Valid()
      modifies this
      ensures Valid()
      ensures goals == old(goals) && actions == old(actions)
      ensures var found := FindAction(actions, actionId);
              if found.Some? && found.value.userId == user then
                r == Ok(FeedbackRecord(user, actionId, kind, note)) && feedback == old(feedback) + [r.value]
              else
                r == Err(NOT_FOUND) && feedback == old(feedback)
      ensures forall k :: 0 <= k < |actions| && actions[k].id == actionId ==>
                (r.Ok? <==> actions[k].userId == user)
    {
      forall k | 0 <= k < |actions| && actions[k].id == actionId {
        FindActionUnique(actions, k);
      }
      var action := FindAction(actions, actionId);
      if action.None? || action.value.userId != user {
        return Err(NOT_FOUND);
      }
      var rec := FeedbackRecord(user, actionId, kind, note);
      feedback := feedback + [rec];
      r := Ok(rec);
    }
  }
}
