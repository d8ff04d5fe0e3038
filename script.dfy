/**
 * The script as it runs against `st.session_state` (app.py lines 79-195): a
 * `Session` object whose fields are the session keys, updated in place by
 * `chat` and by one run of the stage dispatch. Each run is proved to do
 * exactly what `Controller.Transition` says of the state it started from.
 */
module Script {
  import opened Wrappers
  import opened PyStr
  import opened Questions
  import opened Evaluator
  import opened Store
  import opened Controller
  import Runs

  /** `any(q in m["content"] for m in messages if m["role"] == "assistant")`, scanning the transcript in order. */
  method AnyShown(messages: seq<Message>, q: string) returns (shown: bool)
    ensures shown == Shown(messages, q)
  {
    shown := false;
    var i := 0;
    while i < |messages| && !shown
      invariant 0 <= i <= |messages|
      invariant shown == (exists k :: 0 <= k < i && ShownIn(messages[k], q))
    {
      shown := ShownIn(messages[i], q);
      i := i + 1;
    }
  }

  /** The session keys of one browser session. */
  class Session {
    var stage: Stage
    var messages: seq<Message>
    var candidate: Candidate
    var questions: seq<string>
    var answers: map<string, string>
    var questionIndex: nat
    var introShown: bool

    /** The session keys as one value. */
    function Snapshot(): State
      reads this
    {
      State(stage, messages, candidate, questions, answers, questionIndex, introShown)
    }

    /** The keys set on the first run (lines 91-97); `intro_shown` is absent. */
    constructor ()
      ensures Snapshot() == Initial
    {
      stage := Intro;
      messages := [];
      candidate := NoCandidate;
      questions := [];
      answers := map[];
      questionIndex := 0;
      introShown := false;
    }

    /** `chat(role, content)`: the entry goes to the end of the transcript and nothing else changes. */
    method Chat(role: Role, content: string)
      modifies this
      ensures messages == old(messages) + [Message(role, content)]
      ensures stage == old(stage) && candidate == old(candidate) && questions == old(questions)
      ensures answers == old(answers) && questionIndex == old(questionIndex) && introShown == old(introShown)
    {
      messages := messages + [Message(role, content)];
    }

    /** The intro branch (lines 107-117). */
    method RunIntro(input: Option<string>)
      requires stage == Intro
      modifies this
      ensures Quiet(Snapshot()) == IntroStep(old(Snapshot()), input)
    {
      if !introShown {
        Chat(Assistant, Greeting);
        introShown := true;
      } else if Given(input) {
        var name := Strip(input.value);
        candidate := candidate.(name := Some(name));
        Chat(User, input.value);
        Chat(Assistant, NameReply(name));
        stage := AskEmail;
      }
    }

    /** The e-mail, phone, role and experience branches (lines 119-149). */
    method RunField(input: Option<string>, env: Env)
      requires stage.IsField() && stage != AskTechStack
      modifies this
      ensures Quiet(Snapshot()) == FieldStep(old(Snapshot()), input, env)
    {
      if Given(input) {
        var answer := Strip(input.value);
        match stage
        case AskEmail =>
          candidate := candidate.(email := Some(env.digest(answer)));
          Chat(User, input.value);
          Chat(Assistant, PhoneQuestion);
          stage := AskPhone;
        case AskPhone =>
          candidate := candidate.(phone := Some(env.digest(answer)));
          Chat(User, input.value);
          Chat(Assistant, RoleQuestion);
          stage := AskRole;
        case AskRole =>
          candidate := candidate.(role := Some(answer));
          Chat(User, input.value);
          Chat(Assistant, ExperienceQuestion);
          stage := AskExperience;
        case AskExperience =>
          candidate := candidate.(experience := Some(answer));
          Chat(User, input.value);
          Chat(Assistant, SkillsQuestion);
          stage := AskTechStack;
      }
    }

    /** The skills branch (lines 151-159): generate the questions and ask for a rerun. */
    method RunTechStack(input: Option<string>, oracle: string -> string, parse: string -> Option<Json>, env: Env)
      returns (rerun: bool)
      requires stage == AskTechStack && candidate.experience.Some?
      requires Implements(env, oracle, parse)
      modifies this
      ensures Outcome(Snapshot(), rerun, None) == TechStackStep(old(Snapshot()), input, env)
    {
      rerun := false;
      if Given(input) {
        var stack := Strip(input.value);
        candidate := candidate.(techStack := Some(stack));
        Chat(User, input.value);
        Chat(Assistant, GeneratingNotice);
        var generated, _ := GenerateQuestions(oracle, stack, candidate.experience.value);
        questions := generated;
        stage := AskQuestions;
        rerun := true;
      }
    }

    /** Lines 168-169: show `q` unless an assistant entry already holds it. */
    method ShowQuestion(q: string)
      modifies this
      ensures messages == if Shown(old(messages), q) then old(messages) else old(messages) + [Message(Assistant, q)]
      ensures stage == old(stage) && candidate == old(candidate) && questions == old(questions)
      ensures answers == old(answers) && questionIndex == old(questionIndex) && introShown == old(introShown)
    {
      var shown := AnyShown(messages, q);
      if !shown {
        Chat(Assistant, q);
      }
    }

    /** The question branch (lines 161-180). */
    method RunQuestion(input: Option<string>) returns (rerun: bool)
      requires stage == AskQuestions
      modifies this
      ensures Outcome(Snapshot(), rerun, None) == QuestionStep(old(Snapshot()), input)
    {
      rerun := false;
      var idx := questionIndex;
      if idx < |questions| {
        var current := questions[idx];
        ShowQuestion(current);
        if Given(input) {
          answers := answers[current := Strip(input.value)];
          Chat(User, input.value);
          questionIndex := questionIndex + 1;
          if questionIndex >= |questions| {
            Chat(Assistant, AllAnswered);
            stage := Evaluate;
          }
          rerun := true;
        }
      }
    }

    /** The evaluation branch (lines 182-191): evaluate, complete the record, save it, say goodbye. */
    method RunEvaluate(oracle: string -> string, parse: string -> Option<Json>, env: Env, id: string)
      returns (saved: Saved)
      requires stage == Evaluate && candidate.name.Some?
      requires Implements(env, oracle, parse)
      modifies this
      ensures Outcome(Snapshot(), false, Some(saved)) == EvaluateStep(old(Snapshot()), env, id)
    {
      var result, _ := EvaluateAnswers(oracle, parse, questions, answers);
      candidate := candidate.(answers := Some(answers), questions := Some(questions), evaluation := Some(result));
      saved := SaveResult(id, candidate);
      Chat(Assistant, Farewell);
      stage := Done;
    }

    /**
     * One run of the script (lines 105-195) on a reachable state, with the
     * chat input and the uuid a save would draw: it does what `Transition`
     * says, and returns whether it called `st.rerun()` and what it saved.
     */
    method Step(input: Option<string>, oracle: string -> string, parse: string -> Option<Json>, env: Env, id: string)
      returns (rerun: bool, saved: Option<Saved>)
      requires WellFormed(Snapshot()) && Implements(env, oracle, parse)
      modifies this
      ensures Outcome(Snapshot(), rerun, saved) == Transition(old(Snapshot()), input, env, id)
    {
      rerun, saved := false, None;
      match stage
      case Intro => RunIntro(input);
      case AskTechStack => rerun := RunTechStack(input, oracle, parse, env);
      case AskQuestions => rerun := RunQuestion(input);
      case Evaluate =>
        var record := RunEvaluate(oracle, parse, env, id);
        saved := Some(record);
      case Done =>
      case _ => RunField(input, env);
    }

    /** One user turn: a run with the input, then the rerun it asked for with no input. */
    method Turn(input: Option<string>, oracle: string -> string, parse: string -> Option<Json>, env: Env, id: string)
      returns (saved: Option<Saved>)
      requires WellFormed(Snapshot()) && Implements(env, oracle, parse)
      modifies this
      ensures Outcome(Snapshot(), false, saved) == Runs.Turn(old(Snapshot()), input, env, id)
    {
      var rerun;
      ghost var start := Snapshot();
      TransitionWellFormed(start, input, env, id);
      rerun, saved := Step(input, oracle, parse, env, id);
      if rerun {
        rerun, saved := Step(None, oracle, parse, env, id);
      }
    }
  }
}
