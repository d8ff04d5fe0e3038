/**
 * The interview controller (app.py lines 91-195): one run of the script is
 * one step of a state machine over the session state. The stage decides what
 * a step does with the chat input; `st.rerun()` asks for one more step with
 * no input, which `Runs` folds into a turn.
 */
module Controller {
  import opened Wrappers
  import opened PyStr
  import opened Questions
  import opened Evaluator
  import opened Store

  /** The interview stages, in the order the script walks through them. */
  datatype Stage = Intro | AskEmail | AskPhone | AskRole | AskExperience | AskTechStack | AskQuestions | Evaluate | Done
  {
    /** The position of the stage in the interview. */
    function Rank(): nat
    {
      match this
      case Intro => 0
      case AskEmail => 1
      case AskPhone => 2
      case AskRole => 3
      case AskExperience => 4
      case AskTechStack => 5
      case AskQuestions => 6
      case Evaluate => 7
      case Done => 8
    }

    /** The stage that follows this one; `Done` is final. */
    function Next(): (n: Stage)
      ensures this != Done ==> n.Rank() == Rank() + 1
      ensures this == Done ==> n == Done
    {
      match this
      case Intro => AskEmail
      case AskEmail => AskPhone
      case AskPhone => AskRole
      case AskRole => AskExperience
      case AskExperience => AskTechStack
      case AskTechStack => AskQuestions
      case AskQuestions => Evaluate
      case Evaluate => Done
      case Done => Done
    }

    /** The stages that read one answer from the chat input and move on. */
    predicate IsField()
    {
      AskEmail.Rank() <= Rank() <= AskTechStack.Rank()
    }
  }

  /** Who wrote a transcript entry. */
  datatype Role = User | Assistant

  /** One transcript entry (`{"role": ..., "content": ...}`). */
  datatype Message = Message(role: Role, content: string)

  /** The session state (`st.session_state`), `intro_shown` as a flag that is false while the key is absent. */
  datatype State = State(
    stage: Stage,
    messages: seq<Message>,
    candidate: Candidate,
    questions: seq<string>,
    answers: map<string, string>,
    questionIndex: nat,
    introShown: bool)

  /**
   * The helpers a run calls: `generate_questions(tech_stack, experience)`,
   * `evaluate_answers(questions, answers)` and `hash_data`. `Helpers` builds
   * them from the language model and `json.loads` as the script defines them.
   */
  datatype Env = Env(generate: (string, string) -> seq<string>,
                     evaluate: (seq<string>, map<string, string>) -> Json,
                     digest: string -> string)

  /** What one run of the script produces: the new state, whether it asked for a rerun, and the record it saved. */
  datatype Outcome = Outcome(next: State, rerun: bool, saved: Option<Saved>)

  /** `env` generates and evaluates as the script does, over the model `oracle` and the JSON parser `parse`. */
  ghost predicate Implements(env: Env, oracle: string -> string, parse: string -> Option<Json>)
  {
    (forall stack, experience :: env.generate(stack, experience) == Generated(oracle, experience, Techs(stack)))
    && (forall qs, answers :: env.evaluate(qs, answers) == Evaluation(oracle, parse, qs, answers))
  }

  /** The helpers as the script defines them, with `digest` for the SHA-256 hex digest. */
  function Helpers(oracle: string -> string, parse: string -> Option<Json>, digest: string -> string): (env: Env)
    ensures Implements(env, oracle, parse) && env.digest == digest
  {
    Env((stack, experience) => Generated(oracle, experience, Techs(stack)),
        (qs, answers) => Evaluation(oracle, parse, qs, answers),
        digest)
  }

  /** The state the session starts in (lines 91-97). */
  const Initial: State := State(Intro, [], NoCandidate, [], map[], 0, false)

  // ---------------------------------------------------------------------------
  // The assistant's fixed lines

  const Greeting: string := "Hello! I'm TalentScoutBot. What's your name?"
  // Each reply to an answer asks for the next field and is named after what it asks.
  const PhoneQuestion: string := "Thanks! And what's your **phone number**?"
  const RoleQuestion: string := "Great! What **role** are you applying for?"
  const ExperienceQuestion: string := "Nice! How many **years of experience** do you have?"
  const SkillsQuestion: string := "And finally, what are your main **tech skills**? (Separate by commas)"
  const GeneratingNotice: string := "Thanks! Generating your interview questions, please wait..."
  const AllAnswered: string := "Thanks for answering all questions! Evaluating your responses..."
  const Farewell: string := " Thank you! If everything looks good, our HR team will reach out to you within 24 hours."

  const NameHead: string := "Hello **"
  const NameTail: string := "**, nice to meet you! Could you share your **email address**?"

  /** The reply to the name, which greets the candidate by it. */
  function NameReply(name: string): string
  {
    NameHead + name + NameTail
  }

  // ---------------------------------------------------------------------------
  // Invariant

  /** Python's truthiness of the chat input: present and not empty. */
  predicate Given(input: Option<string>)
  {
    input.Some? && input.value != ""
  }

  /** The questions answered so far: those before the current index. */
  function AskedSoFar(s: State): set<string>
    requires s.questionIndex <= |s.questions|
  {
    set q | q in s.questions[..s.questionIndex]
  }

  /** Which candidate keys are set at each stage, and what the final record holds. */
  predicate CandidateFits(s: State)
  {
    var c := s.candidate;
    var r := s.stage.Rank();
    (c.name.Some? <==> r >= AskEmail.Rank())
    && (c.email.Some? <==> r >= AskPhone.Rank())
    && (c.phone.Some? <==> r >= AskRole.Rank())
    && (c.role.Some? <==> r >= AskExperience.Rank())
    && (c.experience.Some? <==> r >= AskTechStack.Rank())
    && (c.techStack.Some? <==> r >= AskQuestions.Rank())
    && (c.answers.Some? <==> s.stage == Done)
    && (c.questions.Some? <==> s.stage == Done)
    && (c.evaluation.Some? <==> s.stage == Done)
    && (s.stage == Done ==> c.answers == Some(s.answers) && c.questions == Some(s.questions))
  }

  /**
   * The states the script can reach: the index never passes the questions,
   * the answers are keyed by exactly the questions already asked, nothing
   * about questions exists before they are generated, the question stage
   * always has a current question unless there are none, and evaluation
   * starts only once every question is answered.
   */
  predicate WellFormed(s: State)
  {
    s.questionIndex <= |s.questions|
    && s.answers.Keys == AskedSoFar(s)
    && (s.stage.Rank() < AskQuestions.Rank() ==> s.questions == [] && s.questionIndex == 0)
    && (s.stage == AskQuestions ==> s.questionIndex < |s.questions| || s.questions == [])
    && (s.stage.Rank() >= Evaluate.Rank() ==> s.questionIndex == |s.questions|)
    && (s.stage != Intro ==> s.introShown)
    && CandidateFits(s)
  }

  // ---------------------------------------------------------------------------
  // One run of the script

  /** A step that asks for no rerun and saves nothing. */
  function Quiet(s: State): Outcome
  {
    Outcome(s, false, None)
  }

  /** `chat("user", v)`, `chat("assistant", text)`, then the next stage. */
  function Reply(s: State, v: string, text: string): State
  {
    s.(messages := s.messages + [Message(User, v)] + [Message(Assistant, text)], stage := s.stage.Next())
  }

  /** Whether an assistant entry holds `q` as a substring. */
  predicate ShownIn(m: Message, q: string)
  {
    m.role == Assistant && Contains(m.content, q)
  }

  /** `any(q in m["content"] for m in messages if m["role"] == "assistant")`. */
  predicate Shown(messages: seq<Message>, q: string)
  {
    exists i :: 0 <= i < |messages| && ShownIn(messages[i], q)
  }

  /** The intro stage (lines 107-117): the greeting once; after it, the name. */
  function IntroStep(s: State, input: Option<string>): Outcome
  {
    if !s.introShown then
      Quiet(s.(messages := s.messages + [Message(Assistant, Greeting)], introShown := true))
    else if Given(input) then
      var name := Strip(input.value);
      Quiet(Reply(s.(candidate := s.candidate.(name := Some(name))), input.value, NameReply(name)))
    else Quiet(s)
  }

  /** The four plain field stages (lines 119-149): store the stripped answer (hashed for contacts) and ask the next one. */
  function FieldStep(s: State, input: Option<string>, env: Env): Outcome
    requires s.stage.IsField() && s.stage != AskTechStack
  {
    if !Given(input) then Quiet(s)
    else
      var v := input.value;
      var a := Strip(v);
      var c := s.candidate;
      match s.stage
      case AskEmail => Quiet(Reply(s.(candidate := c.(email := Some(env.digest(a)))), v, PhoneQuestion))
      case AskPhone => Quiet(Reply(s.(candidate := c.(phone := Some(env.digest(a)))), v, RoleQuestion))
      case AskRole => Quiet(Reply(s.(candidate := c.(role := Some(a))), v, ExperienceQuestion))
      case AskExperience => Quiet(Reply(s.(candidate := c.(experience := Some(a))), v, SkillsQuestion))
  }

  /** The skills stage (lines 151-159): store them, generate the questions, and rerun. */
  function TechStackStep(s: State, input: Option<string>, env: Env): Outcome
    requires s.candidate.experience.Some?
  {
    if !Given(input) then Quiet(s)
    else
      var stack := Strip(input.value);
      var t := Reply(s.(candidate := s.candidate.(techStack := Some(stack))), input.value, GeneratingNotice);
      Outcome(t.(questions := env.generate(stack, s.candidate.experience.value)), true, None)
  }

  /**
   * The question stage (lines 161-180): show the current question unless an
   * assistant entry already holds it; on input, record the answer under the
   * question's text, advance the index and rerun, moving to evaluation after
   * the last question.
   */
  function QuestionStep(s: State, input: Option<string>): Outcome
  {
    if s.questionIndex >= |s.questions| then Quiet(s)
    else
      var q := s.questions[s.questionIndex];
      var shown := if Shown(s.messages, q) then s.messages else s.messages + [Message(Assistant, q)];
      if !Given(input) then Quiet(s.(messages := shown))
      else
        var next := s.questionIndex + 1;
        var t := s.(answers := s.answers[q := Strip(input.value)],
                    messages := shown + [Message(User, input.value)],
                    questionIndex := next);
        if next < |s.questions| then Outcome(t, true, None)
        else Outcome(t.(messages := t.messages + [Message(Assistant, AllAnswered)], stage := Evaluate), true, None)
  }

  /** The evaluation stage (lines 182-191): evaluate, complete and save the record, say goodbye. */
  function EvaluateStep(s: State, env: Env, id: string): Outcome
    requires s.candidate.name.Some?
  {
    var c := s.candidate.(answers := Some(s.answers), questions := Some(s.questions),
                          evaluation := Some(env.evaluate(s.questions, s.answers)));
    Outcome(s.(candidate := c, messages := s.messages + [Message(Assistant, Farewell)], stage := Done),
            false, Some(SaveResult(id, c)))
  }

  /** One run of the script on a reachable state, with the chat input and, for a save, the fresh uuid `id`. */
  function Transition(s: State, input: Option<string>, env: Env, id: string): Outcome
    requires WellFormed(s)
  {
    match s.stage
    case Intro => IntroStep(s, input)
    case AskTechStack => TechStackStep(s, input, env)
    case AskQuestions => QuestionStep(s, input)
    case Evaluate => EvaluateStep(s, env, id)
    case Done => Quiet(s)
    case _ => FieldStep(s, input, env)
  }

  // ---------------------------------------------------------------------------
  // Every step keeps the state reachable

  /** Answering the current question adds exactly that question to the answered set. */
  lemma AskedStep(s: State)
    requires s.questionIndex < |s.questions|
    ensures AskedSoFar(s.(questionIndex := s.questionIndex + 1)) == AskedSoFar(s) + {s.questions[s.questionIndex]}
  {
    var i := s.questionIndex;
    assert s.questions[..i + 1] == s.questions[..i] + [s.questions[i]];
  }

  lemma IntroStepWellFormed(s: State, input: Option<string>)
    requires WellFormed(s) && s.stage == Intro
    ensures WellFormed(IntroStep(s, input).next)
  {
  }

  lemma FieldStepWellFormed(s: State, input: Option<string>, env: Env)
    requires WellFormed(s) && s.stage.IsField() && s.stage != AskTechStack
    ensures WellFormed(FieldStep(s, input, env).next)
  {
  }

  lemma TechStackStepWellFormed(s: State, input: Option<string>, env: Env)
    requires WellFormed(s) && s.stage == AskTechStack
    ensures WellFormed(TechStackStep(s, input, env).next)
  {
    var t := TechStackStep(s, input, env).next;
    assert t.questions[..0] == [];
  }

  lemma QuestionStepWellFormed(s: State, input: Option<string>)
    requires WellFormed(s) && s.stage == AskQuestions
    ensures WellFormed(QuestionStep(s, input).next)
  {
    if s.questionIndex < |s.questions| && Given(input) {
      AskedStep(s);
    }
  }

  lemma EvaluateStepWellFormed(s: State, env: Env, id: string)
    requires WellFormed(s) && s.stage == Evaluate
    ensures WellFormed(EvaluateStep(s, env, id).next)
  {
  }

  /** Every run of the script keeps the session state reachable. */
  lemma TransitionWellFormed(s: State, input: Option<string>, env: Env, id: string)
    requires WellFormed(s)
    ensures WellFormed(Transition(s, input, env, id).next)
  {
    match s.stage
    case Intro => IntroStepWellFormed(s, input);
    case AskTechStack => TechStackStepWellFormed(s, input, env);
    case AskQuestions => QuestionStepWellFormed(s, input);
    case Evaluate => EvaluateStepWellFormed(s, env, id);
    case Done =>
    case _ => FieldStepWellFormed(s, input, env);
  }

  /** The initial state is reachable. */
  lemma InitialWellFormed()
    ensures WellFormed(Initial)
  {
    assert Initial.questions[..0] == [];
  }

  // ---------------------------------------------------------------------------
  // What one run does

  /** Stages only move forward, and by at most one per run. */
  lemma StageAdvances(s: State, input: Option<string>, env: Env, id: string)
    requires WellFormed(s)
    ensures var n := Transition(s, input, env, id).next.stage;
            n == s.stage || n == s.stage.Next()
    ensures s.stage.Rank() <= Transition(s, input, env, id).next.stage.Rank() <= s.stage.Rank() + 1
  {
  }

  /** `t`'s transcript is `s`'s with entries added at the end. */
  predicate Extends(s: State, t: State)
  {
    |s.messages| <= |t.messages| && t.messages[..|s.messages|] == s.messages
  }

  lemma QuestionStepGrows(s: State, input: Option<string>)
    ensures Extends(s, QuestionStep(s, input).next)
  {
    if s.questionIndex < |s.questions| {
      var q := s.questions[s.questionIndex];
      var shown := if Shown(s.messages, q) then [] else [Message(Assistant, q)];
      var m := QuestionStep(s, input).next.messages;
      if Given(input) {
        var tail := if s.questionIndex + 1 < |s.questions| then [] else [Message(Assistant, AllAnswered)];
        assert m == s.messages + (shown + [Message(User, input.value)] + tail);
      } else {
        assert m == s.messages + shown;
      }
    }
  }

  /** The transcript is append-only: a run only adds entries at its end. */
  lemma TranscriptGrows(s: State, input: Option<string>, env: Env, id: string)
    requires WellFormed(s)
    ensures Extends(s, Transition(s, input, env, id).next)
  {
    if s.stage == AskQuestions {
      QuestionStepGrows(s, input);
    }
  }

  /**
   * Once the greeting is out, the intro and every field stage ignore a run
   * without input: the state stays as it was and nothing is saved.
   */
  lemma QuietWithoutInput(s: State, input: Option<string>, env: Env, id: string)
    requires WellFormed(s) && !Given(input)
    requires (s.stage == Intro && s.introShown) || s.stage.IsField()
    ensures Transition(s, input, env, id) == Quiet(s)
  {
  }

  /**
   * With input, the intro (after the greeting) and every field stage add the
   * user's raw turn and then one assistant turn, and move to the next stage.
   * The stripped answer is stored under the stage's key, the e-mail and the
   * phone number only as digests, and the reply asks for the next field.
   */
  lemma FieldAnswer(s: State, input: Option<string>, env: Env, id: string)
    requires WellFormed(s) && Given(input)
    requires (s.stage == Intro && s.introShown) || s.stage.IsField()
    ensures var m := Transition(s, input, env, id).next.messages;
            |m| == |s.messages| + 2 && m[..|s.messages|] == s.messages
            && m[|s.messages|] == Message(User, input.value) && m[|s.messages| + 1].role == Assistant
    ensures Transition(s, input, env, id).next.stage == s.stage.Next()
    ensures var n := Transition(s, input, env, id).next;
            var a := Strip(input.value);
            var reply := n.messages[|s.messages| + 1].content;
            n.introShown == s.introShown
            && (s.stage != AskTechStack ==> n.questions == s.questions && n.answers == s.answers && n.questionIndex == s.questionIndex)
            && (s.stage == Intro ==> n.candidate == s.candidate.(name := Some(a)) && reply == NameReply(a))
            && (s.stage == AskEmail ==> n.candidate == s.candidate.(email := Some(env.digest(a))) && reply == PhoneQuestion)
            && (s.stage == AskPhone ==> n.candidate == s.candidate.(phone := Some(env.digest(a))) && reply == RoleQuestion)
            && (s.stage == AskRole ==> n.candidate == s.candidate.(role := Some(a)) && reply == ExperienceQuestion)
            && (s.stage == AskExperience ==> n.candidate == s.candidate.(experience := Some(a)) && reply == SkillsQuestion)
            && (s.stage == AskTechStack ==> n.candidate == s.candidate.(techStack := Some(a)) && reply == GeneratingNotice)
  {
  }

  /**
   * The greeting goes out exactly when the flag is still unset, and it sets
   * the flag; once set, the flag stays set.
   */
  lemma GreetingStep(s: State, input: Option<string>, env: Env, id: string)
    requires WellFormed(s)
    ensures Transition(s, input, env, id).next.introShown
    ensures !s.introShown ==> Transition(s, input, env, id) == Quiet(s.(messages := s.messages + [Message(Assistant, Greeting)], introShown := true))
  {
  }

  /** Only the skills stage and an answered question ask for a rerun, and only with input. */
  lemma RerunOnlyOnInput(s: State, input: Option<string>, env: Env, id: string)
    requires WellFormed(s)
    ensures Transition(s, input, env, id).rerun ==> Given(input) && (s.stage == AskTechStack || s.stage == AskQuestions)
  {
  }

  /** The skills are stored stripped and the questions are generated from them and the stored experience. */
  lemma SkillsGenerateQuestions(s: State, input: Option<string>, env: Env, id: string)
    requires WellFormed(s) && s.stage == AskTechStack && Given(input)
    ensures var n := Transition(s, input, env, id).next;
            n.candidate.techStack == Some(Strip(input.value))
            && n.questions == env.generate(Strip(input.value), s.candidate.experience.value)
            && n.questionIndex == 0 && n.answers == map[]
  {
  }

  /** A transcript entry by the assistant that is exactly `q` shows `q`. */
  lemma ShownBySelf(messages: seq<Message>, q: string, k: nat)
    requires k < |messages| && messages[k] == Message(Assistant, q)
    ensures Shown(messages, q)
  {
    assert OccursAt(q, q, 0);
  }

  /**
   * A question goes into the transcript, right after what was there, exactly
   * when no assistant entry holds it yet; either way it is shown after the run.
   */
  lemma QuestionShownIffNew(s: State, input: Option<string>, env: Env, id: string)
    requires WellFormed(s) && s.stage == AskQuestions && s.questionIndex < |s.questions|
    ensures var q := s.questions[s.questionIndex];
            var m := Transition(s, input, env, id).next.messages;
            (|m| > |s.messages| && m[|s.messages|] == Message(Assistant, q)) <==> !Shown(s.messages, q)
    ensures Shown(Transition(s, input, env, id).next.messages, s.questions[s.questionIndex])
  {
    var q := s.questions[s.questionIndex];
    var m := Transition(s, input, env, id).next.messages;
    assert m[..|s.messages|] == s.messages;
    if Shown(s.messages, q) {
      var k :| 0 <= k < |s.messages| && ShownIn(s.messages[k], q);
      assert m[k] == s.messages[k];
    } else {
      ShownBySelf(m, q, |s.messages|);
    }
  }

  /** Without input the question stage settles after one run: running it again changes nothing. */
  lemma QuestionStepSettles(s: State, env: Env, id: string)
    requires WellFormed(s) && s.stage == AskQuestions
    ensures var o := Transition(s, None, env, id);
            WellFormed(o.next) && Transition(o.next, None, env, id) == o
  {
    TransitionWellFormed(s, None, env, id);
    if s.questionIndex < |s.questions| {
      QuestionShownIffNew(s, None, env, id);
    }
  }

  /**
   * An empty question (what a reply line such as "2." parses to) is never
   * put on screen once the assistant has said anything: the empty text
   * occurs in every entry, so a run without input changes nothing.
   */
  lemma EmptyQuestionHidden(s: State, input: Option<string>, env: Env, id: string, k: nat)
    requires WellFormed(s) && s.stage == AskQuestions && s.questionIndex < |s.questions|
    requires s.questions[s.questionIndex] == ""
    requires k < |s.messages| && s.messages[k].role == Assistant
    requires !Given(input)
    ensures Transition(s, input, env, id) == Quiet(s)
  {
    assert OccursAt(s.messages[k].content, "", 0);
    assert ShownIn(s.messages[k], "");
  }

  /**
   * Answering the current question records the stripped answer under the
   * question's text, adds the raw answer as a user entry after the (possibly
   * just shown) question, advances the index by exactly one and asks for a
   * rerun; the last answer also adds the closing notice and moves the
   * interview on to evaluation.
   */
  lemma IndexAdvance(s: State, input: Option<string>, env: Env, id: string)
    requires WellFormed(s) && s.stage == AskQuestions && s.questionIndex < |s.questions| && Given(input)
    ensures var o := Transition(s, input, env, id);
            o.next.questionIndex == s.questionIndex + 1
            && o.next.answers == s.answers[s.questions[s.questionIndex] := Strip(input.value)]
            && o.rerun && o.saved == None
            && (o.next.stage == Evaluate <==> s.questionIndex + 1 == |s.questions|)
            && (o.next.stage == AskQuestions <==> s.questionIndex + 1 < |s.questions|)
    ensures var m := Transition(s, input, env, id).next.messages;
            var last := s.questionIndex + 1 == |s.questions|;
            var k := |QuestionStep(s, None).next.messages|;
            |m| == k + 1 + (if last then 1 else 0)
            && m[..k] == QuestionStep(s, None).next.messages
            && m[k] == Message(User, input.value)
            && (last ==> m[k + 1] == Message(Assistant, AllAnswered))
    ensures var n := Transition(s, input, env, id).next;
            n.candidate == s.candidate && n.questions == s.questions && n.introShown == s.introShown
  {
  }

  /** Without input the question stage only (possibly) shows the current question: nothing but the transcript changes. */
  lemma QuestionWithoutInput(s: State, input: Option<string>, env: Env, id: string)
    requires WellFormed(s) && s.stage == AskQuestions && !Given(input)
    ensures var o := Transition(s, input, env, id);
            o.next == s.(messages := o.next.messages) && !o.rerun && o.saved == None
  {
  }

  /** With no questions the question stage ignores every input: the interview is stuck there. */
  lemma NoQuestionsStuck(s: State, input: Option<string>, env: Env, id: string)
    requires WellFormed(s) && s.stage == AskQuestions && s.questions == []
    ensures Transition(s, input, env, id) == Quiet(s)
  {
  }

  /**
   * The evaluation stage finishes in one run: the record gets the answers,
   * the questions and the evaluation of exactly those, it is saved as it now
   * stands, the farewell is the last entry, and the interview is done.
   */
  lemma EvaluateFinishes(s: State, input: Option<string>, env: Env, id: string)
    requires WellFormed(s) && s.stage == Evaluate
    ensures var o := Transition(s, input, env, id);
            o.next.stage == Done && !o.rerun
            && o.next.candidate.answers == Some(s.answers)
            && o.next.candidate.questions == Some(s.questions)
            && o.next.candidate.evaluation == Some(env.evaluate(s.questions, s.answers))
            && o.next.candidate == s.candidate.(answers := Some(s.answers), questions := Some(s.questions),
                                                evaluation := Some(env.evaluate(s.questions, s.answers)))
            && o.saved == Some(SaveResult(id, o.next.candidate))
            && o.next.messages == s.messages + [Message(Assistant, Farewell)]
  {
  }

  /** A record is saved in a run exactly when the run is in the evaluation stage. */
  lemma SavesOnlyInEvaluate(s: State, input: Option<string>, env: Env, id: string)
    requires WellFormed(s)
    ensures Transition(s, input, env, id).saved.Some? <==> s.stage == Evaluate
  {
  }

  /** Once done, a run changes nothing, saves nothing and asks for no rerun. */
  lemma DoneIsFinal(s: State, input: Option<string>, env: Env, id: string)
    requires WellFormed(s) && s.stage == Done
    ensures Transition(s, input, env, id) == Quiet(s)
  {
  }

  /**
   * `t` keeps every candidate detail `s` already has: each of name, e-mail,
   * phone, role, experience and skills, once set, is never overwritten.
   */
  predicate KeepsDetails(s: State, t: State)
  {
    var c, d := s.candidate, t.candidate;
    (c.name.Some? ==> d.name == c.name)
    && (c.email.Some? ==> d.email == c.email)
    && (c.phone.Some? ==> d.phone == c.phone)
    && (c.role.Some? ==> d.role == c.role)
    && (c.experience.Some? ==> d.experience == c.experience)
    && (c.techStack.Some? ==> d.techStack == c.techStack)
  }

  /** The intro sets only the name, which is still unset there. */
  lemma IntroKeepsDetails(s: State, input: Option<string>)
    requires s.candidate.name.None?
    ensures KeepsDetails(s, IntroStep(s, input).next)
  {
  }

  /** A field stage sets only its own detail, which is still unset there. */
  lemma FieldKeepsDetails(s: State, input: Option<string>, env: Env)
    requires s.stage.IsField() && s.stage != AskTechStack
    requires s.stage == AskEmail ==> s.candidate.email.None?
    requires s.stage == AskPhone ==> s.candidate.phone.None?
    requires s.stage == AskRole ==> s.candidate.role.None?
    requires s.stage == AskExperience ==> s.candidate.experience.None?
    ensures KeepsDetails(s, FieldStep(s, input, env).next)
  {
    if Given(input) {
      var c, a := s.candidate, Strip(input.value);
      var d := FieldStep(s, input, env).next.candidate;
      match s.stage
      case AskEmail => assert d == c.(email := Some(env.digest(a)));
      case AskPhone => assert d == c.(phone := Some(env.digest(a)));
      case AskRole => assert d == c.(role := Some(a));
      case AskExperience => assert d == c.(experience := Some(a));
    }
  }

  /**
   * Every detail is set once (lines 114, 122, 130, 138, 146, 154) and kept
   * after: a run never changes a detail that is already set.
   */
  lemma DetailsSetOnce(s: State, input: Option<string>, env: Env, id: string)
    requires WellFormed(s)
    ensures KeepsDetails(s, Transition(s, input, env, id).next)
  {
    match s.stage
    case Intro => IntroKeepsDetails(s, input);
    case AskTechStack =>
    case AskQuestions =>
    case Evaluate =>
    case Done =>
    case _ => FieldKeepsDetails(s, input, env);
  }

  /** Keeping details is transitive. */
  lemma KeepsDetailsTrans(a: State, b: State, c: State)
    requires KeepsDetails(a, b) && KeepsDetails(b, c)
    ensures KeepsDetails(a, c)
  {
  }

  /** The elements of a sequence are at most as many as its positions, and as many when they are distinct. */
  lemma {:induction false} ElementsCount<T>(xs: seq<T>)
    ensures |set x | x in xs| <= |xs|
    ensures (forall i, j :: 0 <= i < j < |xs| ==> xs[i] != xs[j]) ==> |set x | x in xs| == |xs|
  {
    if xs != [] {
      var init := xs[..|xs| - 1];
      var last := xs[|xs| - 1];
      ElementsCount(init);
      assert xs == init + [last];
      assert (set x | x in xs) == (set x | x in init) + {last};
      if forall i, j :: 0 <= i < j < |xs| ==> xs[i] != xs[j] {
        assert last !in init;
      }
    }
  }

  /**
   * The answers never outnumber the questions asked, and match them in number
   * when the questions are distinct; a repeated question keeps only its last
   * answer.
   */
  lemma AnswersBound(s: State)
    requires WellFormed(s)
    ensures |s.answers| <= s.questionIndex
    ensures (forall i, j :: 0 <= i < j < |s.questions| ==> s.questions[i] != s.questions[j]) ==> |s.answers| == s.questionIndex
  {
    var asked := s.questions[..s.questionIndex];
    ElementsCount(asked);
    assert |s.answers| == |s.answers.Keys|;
  }

  /** Built from the script's own definitions, the skills step gets at most three questions per skill. */
  lemma HelpersGenerate(oracle: string -> string, parse: string -> Option<Json>, digest: string -> string,
                        stack: string, experience: string)
    ensures var qs := Helpers(oracle, parse, digest).generate(stack, experience);
            qs == Generated(oracle, experience, Techs(stack)) && |qs| <= 3 * |Techs(stack)|
  {
    GeneratedBound(oracle, experience, Techs(stack));
  }
}
