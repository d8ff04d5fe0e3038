/**
 * Whole interviews. A user turn is one run of the script with the chat input
 * and, when that run calls `st.rerun()`, one more run with no input (line 105
 * reads `None` on a rerun). A session is a sequence of such turns.
 */
module Runs {
  import opened Wrappers
  import PyStr
  import opened Store
  import opened Controller

  /** One submission of the chat box: what was typed (or nothing) and the uuid a save in this turn would draw. */
  datatype UserTurn = UserTurn(input: Option<string>, id: string)

  /** A run with the input, then the rerun it asks for; the rerun itself never asks for another. */
  function Turn(s: State, input: Option<string>, env: Env, id: string): (o: Outcome)
    requires WellFormed(s)
    ensures WellFormed(o.next) && !o.rerun
  {
    TransitionWellFormed(s, input, env, id);
    var first := Transition(s, input, env, id);
    if !first.rerun then first
    else
      TransitionWellFormed(first.next, None, env, id);
      RerunOnlyOnInput(first.next, None, env, id);
      Transition(first.next, None, env, id)
  }

  /** The first run of a turn that asks for a rerun saves nothing, so the turn's save is the rerun's. */
  lemma RerunSavesNothing(s: State, input: Option<string>, env: Env, id: string)
    requires WellFormed(s) && Transition(s, input, env, id).rerun
    ensures Transition(s, input, env, id).saved == None
  {
    RerunOnlyOnInput(s, input, env, id);
    SavesOnlyInEvaluate(s, input, env, id);
  }

  /**
   * A turn moves the stage forward by at most two, only extends the
   * transcript, and leaves the greeting flag set.
   */
  lemma TurnForward(s: State, input: Option<string>, env: Env, id: string)
    requires WellFormed(s)
    ensures var t := Turn(s, input, env, id).next;
            s.stage.Rank() <= t.stage.Rank() <= s.stage.Rank() + 2
            && Extends(s, t) && t.introShown
  {
    var first := Transition(s, input, env, id);
    StageAdvances(s, input, env, id);
    TranscriptGrows(s, input, env, id);
    GreetingStep(s, input, env, id);
    if first.rerun {
      TransitionWellFormed(s, input, env, id);
      StageAdvances(first.next, None, env, id);
      TranscriptGrows(first.next, None, env, id);
      GreetingStep(first.next, None, env, id);
      ExtendsTrans(s, first.next, Turn(s, input, env, id).next);
    }
  }

  /** Appending is transitive. */
  lemma ExtendsTrans(a: State, b: State, c: State)
    requires Extends(a, b) && Extends(b, c)
    ensures Extends(a, c)
  {
    assert c.messages[..|a.messages|] == c.messages[..|b.messages|][..|a.messages|];
  }

  /** A turn saves a record only when it ends the interview, and saves the record as it then stands. */
  lemma TurnSaves(s: State, input: Option<string>, env: Env, id: string)
    requires WellFormed(s)
    ensures var o := Turn(s, input, env, id);
            o.saved.Some? ==> o.next.stage == Done && o.saved == Some(SaveResult(id, o.next.candidate))
    ensures s.stage == Done ==> Turn(s, input, env, id) == Quiet(s)
  {
    var first := Transition(s, input, env, id);
    TransitionWellFormed(s, input, env, id);
    SavesOnlyInEvaluate(s, input, env, id);
    if s.stage == Evaluate {
      EvaluateFinishes(s, input, env, id);
    } else if first.rerun {
      SavesOnlyInEvaluate(first.next, None, env, id);
      if first.next.stage == Evaluate {
        EvaluateFinishes(first.next, None, env, id);
      }
    }
    if s.stage == Done {
      DoneIsFinal(s, input, env, id);
    }
  }

  /**
   * Answering the last question ends the interview in the same turn: the
   * rerun evaluates, saves and says goodbye.
   */
  lemma LastAnswerFinishes(s: State, input: Option<string>, env: Env, id: string)
    requires WellFormed(s) && s.stage == AskQuestions && s.questionIndex + 1 == |s.questions| && Given(input)
    ensures var o := Turn(s, input, env, id);
            o.next.stage == Done && o.saved.Some?
            && o.next.candidate.evaluation == Some(env.evaluate(s.questions, o.next.answers))
  {
    var first := Transition(s, input, env, id);
    IndexAdvance(s, input, env, id);
    TransitionWellFormed(s, input, env, id);
    EvaluateFinishes(first.next, None, env, id);
  }

  /**
   * Entering the skills ends the turn in the question stage: the rerun shows
   * the first generated question before the next input is read.
   */
  lemma SkillsTurnShowsFirst(s: State, input: Option<string>, env: Env, id: string)
    requires WellFormed(s) && s.stage == AskTechStack && Given(input)
    ensures var t := Turn(s, input, env, id).next;
            t.stage == AskQuestions && t.questionIndex == 0
            && t.questions == env.generate(PyStr.Strip(input.value), s.candidate.experience.value)
            && (t.questions != [] ==> Shown(t.messages, t.questions[0]))
  {
    var first := Transition(s, input, env, id);
    TransitionWellFormed(s, input, env, id);
    SkillsGenerateQuestions(s, input, env, id);
    if first.next.questions != [] {
      QuestionShownIffNew(first.next, None, env, id);
    }
  }

  /** Answering any other question shows the next one in the same turn, unless it is already on screen. */
  lemma AnswerShowsNext(s: State, input: Option<string>, env: Env, id: string)
    requires WellFormed(s) && s.stage == AskQuestions && s.questionIndex + 1 < |s.questions| && Given(input)
    ensures var t := Turn(s, input, env, id).next;
            t.stage == AskQuestions && t.questionIndex == s.questionIndex + 1
            && Shown(t.messages, s.questions[s.questionIndex + 1])
  {
    var first := Transition(s, input, env, id);
    IndexAdvance(s, input, env, id);
    TransitionWellFormed(s, input, env, id);
    QuestionShownIffNew(first.next, None, env, id);
  }

  /** The states a session passes through: the start, then the state after each turn. */
  function States(s: State, turns: seq<UserTurn>, env: Env): (states: seq<State>)
    requires WellFormed(s)
    ensures |states| == |turns| + 1 && states[0] == s
    decreases |turns|
  {
    if turns == [] then [s]
    else [s] + States(Turn(s, turns[0].input, env, turns[0].id).next, turns[1..], env)
  }

  /** The records a session saves, in order. */
  function Saves(s: State, turns: seq<UserTurn>, env: Env): seq<Saved>
    requires WellFormed(s)
    decreases |turns|
  {
    if turns == [] then []
    else
      var o := Turn(s, turns[0].input, env, turns[0].id);
      (if o.saved.Some? then [o.saved.value] else []) + Saves(o.next, turns[1..], env)
  }

  /** Every state of a session is reachable. */
  lemma {:induction false} SessionWellFormed(s: State, turns: seq<UserTurn>, env: Env)
    requires WellFormed(s)
    ensures forall k :: 0 <= k < |States(s, turns, env)| ==> WellFormed(States(s, turns, env)[k])
    decreases |turns|
  {
    if turns != [] {
      var t := Turn(s, turns[0].input, env, turns[0].id).next;
      SessionWellFormed(t, turns[1..], env);
      assert States(s, turns, env) == [s] + States(t, turns[1..], env);
    }
  }

  /** Each state of a session is reachable and the next one is what its turn makes of it. */
  lemma {:induction false} StatesChain(s: State, turns: seq<UserTurn>, env: Env, k: nat)
    requires WellFormed(s) && k < |turns|
    ensures var st := States(s, turns, env);
            WellFormed(st[k]) && st[k + 1] == Turn(st[k], turns[k].input, env, turns[k].id).next
    decreases |turns|
  {
    var t := Turn(s, turns[0].input, env, turns[0].id).next;
    var rest := States(t, turns[1..], env);
    assert States(s, turns, env) == [s] + rest;
    if k > 0 {
      StatesChain(t, turns[1..], env, k - 1);
    }
  }

  /** In a sequence of states where each step keeps the stage from falling and extends the transcript, every later state does. */
  lemma {:induction false} ChainMonotone(st: seq<State>, i: nat, j: nat)
    requires forall k :: 0 <= k < |st| - 1 ==> st[k].stage.Rank() <= st[k + 1].stage.Rank() && Extends(st[k], st[k + 1])
    requires i <= j < |st|
    ensures st[i].stage.Rank() <= st[j].stage.Rank() && Extends(st[i], st[j])
    decreases j - i
  {
    if i == j {
      assert st[i].messages[..|st[i].messages|] == st[i].messages;
    } else {
      ChainMonotone(st, i + 1, j);
      ExtendsTrans(st[i], st[i + 1], st[j]);
    }
  }

  /** Across a session stages only move forward and the transcript is append-only. */
  lemma SessionMonotone(s: State, turns: seq<UserTurn>, env: Env, i: nat, j: nat)
    requires WellFormed(s) && i <= j < |States(s, turns, env)|
    ensures var st := States(s, turns, env);
            st[i].stage.Rank() <= st[j].stage.Rank() && Extends(st[i], st[j])
  {
    var st := States(s, turns, env);
    forall k | 0 <= k < |st| - 1
      ensures st[k].stage.Rank() <= st[k + 1].stage.Rank() && Extends(st[k], st[k + 1])
    {
      StatesChain(s, turns, env, k);
      TurnForward(st[k], turns[k].input, env, turns[k].id);
    }
    ChainMonotone(st, i, j);
  }

  /** A turn never overwrites a candidate detail that is already set, the stored digests included. */
  lemma TurnKeepsDetails(s: State, input: Option<string>, env: Env, id: string)
    requires WellFormed(s)
    ensures KeepsDetails(s, Turn(s, input, env, id).next)
  {
    var first := Transition(s, input, env, id);
    DetailsSetOnce(s, input, env, id);
    if first.rerun {
      TransitionWellFormed(s, input, env, id);
      DetailsSetOnce(first.next, None, env, id);
      KeepsDetailsTrans(s, first.next, Turn(s, input, env, id).next);
    }
  }

  /** In a sequence of states where each step keeps the details set so far, every later state keeps them. */
  lemma {:induction false} ChainKeepsDetails(st: seq<State>, i: nat, j: nat)
    requires forall k :: 0 <= k < |st| - 1 ==> KeepsDetails(st[k], st[k + 1])
    requires i <= j < |st|
    ensures KeepsDetails(st[i], st[j])
    decreases j - i
  {
    if i < j {
      ChainKeepsDetails(st, i + 1, j);
      KeepsDetailsTrans(st[i], st[i + 1], st[j]);
    }
  }

  /**
   * Across a session a detail, once set, keeps its value: the name, the
   * e-mail and phone digests and the other answers a saved record carries are
   * the ones first given.
   */
  lemma SessionKeepsDetails(s: State, turns: seq<UserTurn>, env: Env, i: nat, j: nat)
    requires WellFormed(s) && i <= j < |States(s, turns, env)|
    ensures KeepsDetails(States(s, turns, env)[i], States(s, turns, env)[j])
  {
    var st := States(s, turns, env);
    forall k | 0 <= k < |st| - 1
      ensures KeepsDetails(st[k], st[k + 1])
    {
      StatesChain(s, turns, env, k);
      TurnKeepsDetails(st[k], turns[k].input, env, turns[k].id);
    }
    ChainKeepsDetails(st, i, j);
  }

  /**
   * The greeting goes out at most once in a session: only a turn that starts
   * with the flag unset sends it, and after the first turn the flag is set.
   */
  lemma GreetingAtMostOnce(s: State, turns: seq<UserTurn>, env: Env, k: nat)
    requires WellFormed(s) && 0 < k < |States(s, turns, env)|
    ensures States(s, turns, env)[k].introShown
  {
    var st := States(s, turns, env);
    StatesChain(s, turns, env, k - 1);
    TurnForward(st[k - 1], turns[k - 1].input, env, turns[k - 1].id);
  }

  /** A session saves at most one record, and none once the interview is done. */
  lemma {:induction false} SavesAtMostOnce(s: State, turns: seq<UserTurn>, env: Env)
    requires WellFormed(s)
    ensures |Saves(s, turns, env)| <= 1
    ensures s.stage == Done ==> Saves(s, turns, env) == []
    decreases |turns|
  {
    if turns != [] {
      var o := Turn(s, turns[0].input, env, turns[0].id);
      TurnSaves(s, turns[0].input, env, turns[0].id);
      SavesAtMostOnce(o.next, turns[1..], env);
    }
  }

  /** With no questions generated, no input ever moves the session out of the question stage. */
  lemma {:induction false} NoQuestionsForever(s: State, turns: seq<UserTurn>, env: Env)
    requires WellFormed(s) && s.stage == AskQuestions && s.questions == []
    ensures forall k :: 0 <= k < |States(s, turns, env)| ==> States(s, turns, env)[k] == s
    ensures Saves(s, turns, env) == []
    decreases |turns|
  {
    if turns != [] {
      NoQuestionsStuck(s, turns[0].input, env, turns[0].id);
      assert Turn(s, turns[0].input, env, turns[0].id) == Quiet(s);
      NoQuestionsForever(s, turns[1..], env);
      assert States(s, turns, env) == [s] + States(s, turns[1..], env);
    }
  }

  /** A session's first turn answers the last question: that turn finishes it and saves the one record. */
  lemma LastAnswerSession(s: State, turns: seq<UserTurn>, env: Env)
    requires WellFormed(s) && s.stage == AskQuestions && s.questionIndex + 1 == |s.questions|
    requires |turns| == 1 && Given(turns[0].input)
    ensures States(s, turns, env)[1].stage == Done
    ensures |Saves(s, turns, env)| == 1
  {
    var o := Turn(s, turns[0].input, env, turns[0].id);
    LastAnswerFinishes(s, turns[0].input, env, turns[0].id);
    assert turns[1..] == [];
    assert States(s, turns, env) == [s, o.next];
    assert Saves(s, turns, env) == [o.saved.value];
  }

  /** Answering a question other than the last moves to the next one, keeps the questions and saves nothing. */
  lemma AnswerTurn(s: State, input: Option<string>, env: Env, id: string)
    requires WellFormed(s) && s.stage == AskQuestions && s.questionIndex + 1 < |s.questions| && Given(input)
    ensures var o := Turn(s, input, env, id);
            o.next.stage == AskQuestions && o.next.questions == s.questions
            && o.next.questionIndex == s.questionIndex + 1 && o.saved == None
  {
    var first := Transition(s, input, env, id);
    IndexAdvance(s, input, env, id);
    TransitionWellFormed(s, input, env, id);
    QuestionWithoutInput(first.next, None, env, id);
  }

  /**
   * A session's first turn answers a question other than the last: the rest
   * of the session starts at the next question, with nothing saved yet.
   */
  lemma AnswerSession(s: State, turns: seq<UserTurn>, env: Env)
    requires WellFormed(s) && s.stage == AskQuestions && s.questionIndex + 1 < |s.questions|
    requires |turns| > 0 && Given(turns[0].input)
    ensures var t := Turn(s, turns[0].input, env, turns[0].id).next;
            WellFormed(t) && t.stage == AskQuestions
            && t.questions == s.questions && t.questionIndex == s.questionIndex + 1
            && States(s, turns, env)[|turns|] == States(t, turns[1..], env)[|turns| - 1]
            && Saves(s, turns, env) == Saves(t, turns[1..], env)
  {
    var o := Turn(s, turns[0].input, env, turns[0].id);
    AnswerTurn(s, turns[0].input, env, turns[0].id);
    assert States(s, turns, env) == [s] + States(o.next, turns[1..], env);
  }

  /**
   * Answering every remaining question finishes the interview: after one
   * answer per question the session is done and exactly one record is saved.
   */
  lemma {:induction false} AnsweringCompletes(s: State, turns: seq<UserTurn>, env: Env)
    requires WellFormed(s) && s.stage == AskQuestions && s.questionIndex < |s.questions|
    requires |turns| == |s.questions| - s.questionIndex
    requires forall k :: 0 <= k < |turns| ==> Given(turns[k].input)
    ensures States(s, turns, env)[|turns|].stage == Done
    ensures |Saves(s, turns, env)| == 1
    decreases |turns|
  {
    assert Given(turns[0].input);
    if s.questionIndex + 1 == |s.questions| {
      LastAnswerSession(s, turns, env);
    } else {
      var t := Turn(s, turns[0].input, env, turns[0].id).next;
      var rest := turns[1..];
      AnswerSession(s, turns, env);
      forall k | 0 <= k < |rest|
        ensures Given(rest[k].input)
      {
        assert rest[k] == turns[k + 1];
      }
      AnsweringCompletes(t, rest, env);
    }
  }
}
