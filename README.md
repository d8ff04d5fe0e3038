# TalentScoutBot interview screener, modelled in Dafny

TalentScoutBot (`app.py`) is a Streamlit chat page that screens a job candidate in one pass:

1. It greets the candidate.
2. It collects name, e-mail, phone, role, years of experience and a comma-separated list of skills. The e-mail and phone are stored as SHA-256 digests.
3. It asks a language model for three questions per skill and asks them one at a time.
4. It sends every question and answer to the model for grading.
5. It saves the whole record as a JSON file named after a fresh uuid and the candidate's name.

Streamlit re-executes the whole script on every chat submission. Between runs, all state lives in `st.session_state`.

The model follows that structure:

- `wrappers.dfy` (`Wrappers`): the `Option` type.
- `pystr.dfy` (`PyStr`): the Python string operations the script relies on:
  - `split(',')`, `join`, `strip()`, `lstrip(chars)` and `splitlines()`;
  - `replace(' ', '_')`, `lower()` and the substring test `in`.

  Each comes with the laws the rest of the model needs.
- `questions.dfy` (`Questions`): `generate_questions`.
  - Reference functions: `Techs` tokenises the skill list and `ParseQuestions` parses one model reply. `Generated` keeps the first three questions per skill, in skill order.
  - `GenerateQuestions` is the script's loop. It is proved to compute `Generated`, and to send exactly one prompt per skill, in order.
- `evaluator.dfy` (`Evaluator`): `evaluate_answers`.
  - Reference functions: `EvalPrompt` is the grading rubric followed by one `Q:`/`A:` block per question. `EvaluationOf` is the JSON fallback.
  - `EvaluateAnswers` is the loop, proved to send exactly that prompt.
- `store.dfy` (`Store`): `save_result`. It gives the candidate record, the file-name slug and the path of the saved file.
- `controller.dfy` (`Controller`): the stage machine as pure functions over a snapshot `State` of the session.
  - One function per branch of the stage dispatch; `Transition` dispatches between them.
  - The invariant `WellFormed` says which candidate keys exist at each stage. `Transition` is proved to keep it.
  - Lemmas about a single run: forward progress, an append-only transcript, when `st.rerun()` happens, when a record is saved, and how each question is shown and answered.
- `runs.dfy` (`Runs`): whole user turns and whole sessions.
  - A turn is a run with the chat input, followed by the input-less rerun when the run asked for one.
  - Session properties: stages only move forward, the greeting and the save each happen at most once, answering every question finishes the interview, and an empty question list stalls it forever.
- `script.dfy` (`Script`): the script as it really executes, as a `Session` class.
  - The class's fields are the session keys.
  - `Chat` appends to the transcript in place.
  - There is one method per branch, plus `Step` (one run) and `Turn` (a run and its rerun).
  - Each method is proved to change the fields exactly as the corresponding `Controller` or `Runs` function says.

The language model, `json.loads`, SHA-256 and `uuid.uuid4()` are parameters:
- an `oracle: string -> string` from prompt to reply;
- a `parse: string -> Option<Json>`;
- a `digest: string -> string`;
- an `id: string` for each turn.

An `Env` packages the three helpers the controller calls. `Controller.Implements` ties such an `Env` to the script's own definitions over a given oracle and parser.

Where the code leaves something implicit, the model follows the code:
- `question_index` is never reset when the questions are generated. It is already 0 at that point, by the invariant.
- A skill list that yields no questions leaves the interview in the question stage forever.
- A question is shown only if no assistant message already contains it as a substring. An empty question, which a reply line such as `2.` turns into, is therefore never displayed, yet it still waits for an answer.

## Model

| member | source | states |
|---|---|---|
| PyStr.TrimLeft | app.py:24 | `lstrip(chars)` keeps a suffix that does not start with a stripped character, and is no longer than its input |
| PyStr.TrimLeftSuffix | app.py:24 | what `lstrip` keeps is a final part of the line |
| PyStr.TrimLeftRemoved | app.py:24 | every character `lstrip` removes belongs to the stripped set |
| PyStr.TrimRight | app.py:11 | `rstrip` keeps a prefix that does not end with a stripped character |
| PyStr.TrimRightPrefix | app.py:11 | what `rstrip` keeps is an initial part of its input |
| PyStr.TrimRightRemoved | app.py:11 | every character `rstrip` removes belongs to the stripped set |
| PyStr.Strip | app.py:113 | `strip()` is no longer than its input |
| PyStr.StripIsStripped | app.py:113 | `strip()` leaves no whitespace at either end |
| PyStr.StripOccurs | app.py:113 | what `strip()` keeps is a contiguous part of the input |
| PyStr.StripEmptyIffBlank | app.py:11 | `t.strip()` is empty exactly when `t` is whitespace only, i.e. when the filter `if t.strip()` drops it |
| PyStr.TrimLeftBlank | app.py:24 | `lstrip()` of a whitespace-only text is empty |
| PyStr.StripAvoids | app.py:11 | stripping introduces no character, so stripped tokens stay comma-free |
| PyStr.StrippedFixed | app.py:153 | stripping a stripped text changes nothing, so stripping twice is stripping once |
| PyStr.TrimLeftOf | app.py:24 | `lstrip` removes exactly a leading run of stripped characters |
| PyStr.TrimRightOf | app.py:11 | `rstrip` removes exactly a trailing run of stripped characters |
| PyStr.StripOf | app.py:11 | whitespace around a stripped core is exactly what `strip()` removes |
| PyStr.Split | app.py:11 | `split(',')` always yields at least one piece |
| PyStr.SplitPiecesAvoid | app.py:11 | no piece of `split(',')` contains a comma |
| PyStr.JoinSplit | app.py:11 | joining the pieces of a split with the separator gives back the text |
| PyStr.SplitCons | app.py:11 | a comma-free piece followed by a comma becomes the first piece of the split |
| PyStr.SplitNoSep | app.py:11 | a text without the separator splits into itself |
| PyStr.SplitJoin | app.py:11 | splitting undoes joining separator-free pieces |
| PyStr.LineEnd | app.py:24 | the first line boundary lies inside the text and is a boundary character |
| PyStr.LineEndClean | app.py:24 | no boundary occurs before the first line end |
| PyStr.ConcatSnoc | app.py:49-50 | concatenating one more string appends it |
| PyStr.SplitLines | app.py:24 | `splitlines()` gives no more lines than the text has characters |
| PyStr.SplitLinesNoBreaks | app.py:24 | no line of `splitlines()` contains a boundary character |
| PyStr.SplitLinesConcat | app.py:24 | the lines concatenated are the text with its line boundaries removed, so no other character is lost or reordered |
| PyStr.SplitLinesCons | app.py:24 | a boundary-free line followed by a newline is the first line, and splitting continues after it |
| PyStr.SplitLinesCrLf | app.py:24 | a boundary-free line followed by `"\r\n"` is the first line: the pair is one boundary, and splitting continues after it |
| PyStr.SplitLinesFinal | app.py:24 | a line ended by `"\n"` or `"\r\n"` gives that line alone, with no empty line after it |
| PyStr.DropBreaksAppend | app.py:24 | removing boundaries distributes over concatenation |
| PyStr.Contains | app.py:168 | Python's `q in content` holds exactly when `q` occurs in `content` at some offset |
| Questions.Token | app.py:11 | a comma-separated piece gives at most one token |
| Questions.Tokens | app.py:11 | the filter keeps at most one token per piece |
| Questions.TokensWellFormed | app.py:11 | every skill token is non-empty and has no surrounding whitespace |
| Questions.Techs | app.py:11 | there are no more skill tokens than comma-separated pieces |
| Questions.TechsWellFormed | app.py:11 | the skill tokens are non-empty, trimmed and comma-free |
| Questions.TokensAvoid | app.py:11 | a character absent from every piece is absent from every token |
| Questions.TokensAppend | app.py:11 | the filter keeps order and duplicates: tokenising two runs of pieces concatenates their tokens |
| Questions.TokensOfClean | app.py:11 | pieces that are already non-empty and trimmed are their own tokens |
| Questions.TechsOfJoin | app.py:11 | a comma-join of comma-free pieces tokenises to those pieces stripped, blank ones dropped, duplicates kept, in order; a list of trimmed, non-empty, comma-free skills tokenises back to exactly that list |
| Questions.CleanLineOccurs | app.py:24 | a parsed question is a contiguous part of the reply line it came from |
| Questions.LineQuestion | app.py:24 | a reply line gives at most one question |
| Questions.ParseLines | app.py:24 | no more questions than reply lines |
| Questions.ParseLinesStripped | app.py:24 | every parsed question has no surrounding whitespace |
| Questions.ParseQuestions | app.py:24 | a reply gives no more questions than it has lines |
| Questions.BlankLineSkipped | app.py:24 | a whitespace-only line gives no question |
| Questions.NumberingOnlyLine | app.py:24 | a non-blank line made only of digits, dots and spaces gives the empty question |
| Questions.TextLineKept | app.py:24 | any other line gives exactly one question: the line without its numbering and surrounding blanks |
| Questions.ParseLinesAppend | app.py:24 | lines are parsed independently and in order |
| Questions.Take | app.py:25 | `[:3]` keeps the first `min(3, n)` elements unchanged |
| Questions.Group | app.py:19-25 | at most three questions are kept per skill |
| Questions.CollectAppend | app.py:14-25 | the questions for two runs of skills are the two lists, in order |
| Questions.CollectBound | app.py:14-25 | at most three questions per skill overall |
| Questions.GeneratedBound | app.py:10-27 | `generate_questions` returns at most three questions per skill token |
| Questions.GeneratedAppend | app.py:14-25 | generation over a concatenated skill list concatenates the generated questions |
| Questions.CollectAt | app.py:14-25 | each skill's group sits in the collected list at the offset given by the groups of the skills before it |
| Questions.GroupAt | app.py:25 | each skill's questions sit in the result at the offset given by the questions of the skills before it |
| Questions.GeneratedSnoc | app.py:25 | one more loop round appends that skill's group |
| Questions.Requests | app.py:15-22 | one model request per skill |
| Questions.RequestsAt | app.py:15-18 | the i-th request is the prompt built from the experience and the i-th skill |
| Questions.GenerateQuestions | app.py:10-27 | the loop returns the reference questions for the stack's skill tokens, and its requests are the reference prompts in skill order |
| Evaluator.BlockList | app.py:49-50 | one block per question |
| Evaluator.BlocksSnoc | app.py:49-50 | one more loop round appends that question's block |
| Evaluator.BlocksInOrder | app.py:49-50 | the blocks are the per-question blocks concatenated in question order |
| Evaluator.BlockPlacement | app.py:50 | the i-th question's block, with its answer (or the empty text for an unanswered question), occurs in the prompt right after the earlier questions' blocks |
| Evaluator.BlocksAppend | app.py:49-50 | the blocks of two runs of questions are the two block texts in order |
| Evaluator.AppendBlocks | app.py:49-50 | the loop extends its starting text with exactly the blocks, in question order |
| Evaluator.BuildPrompt | app.py:32-50 | the prompt is the rubric followed by the blocks |
| Evaluator.EvaluationKeepsReply | app.py:56-59 | a reply that parses is returned as parsed; otherwise the reply is kept verbatim under `raw` |
| Evaluator.EvaluateAnswers | app.py:31-59 | one request carrying exactly the rubric and the blocks; the result is that reply's evaluation |
| Store.SlugClean | app.py:68 | the slug keeps the name's length and holds no space and no upper-case ASCII letter |
| Store.SlugKeeps | app.py:68 | position by position: space becomes `_`, upper-case ASCII becomes its lower case, everything else is kept |
| Store.SlugIdempotent | app.py:68 | slugging a slug changes nothing |
| Store.FileNameShape | app.py:69 | the file name starts with the id and `_`, ends in `.json`, and holds no space when the id has none |
| Store.SlashKept | app.py:68-73 | a `/` in the name survives into the file name at the same place, so such a name points into a subdirectory that is never created |
| Store.FileNamesDistinct | app.py:67-69 | records saved under different ids of the same length never share a file name |
| Store.SavePathOfUuid | app.py:63-76 | with a uuid id the record goes into `candidates_data/` under its file name, and the record written is the candidate unchanged |
| Controller.Stage.Next | app.py:117-191 | every stage except `done` is followed by the stage of the next rank; `done` is final |
| Controller.Helpers | app.py:10-59 | the script's own `generate_questions` and `evaluate_answers`, over a model and a parser, implement the controller's helpers |
| Controller.AskedStep | app.py:172-174 | advancing the index adds exactly the current question to the answered set |
| Controller.IntroStepWellFormed | app.py:107-117 | the intro branch keeps the session invariant |
| Controller.FieldStepWellFormed | app.py:119-149 | the four field branches keep the session invariant |
| Controller.TechStackStepWellFormed | app.py:151-159 | the skills branch keeps the session invariant |
| Controller.QuestionStepWellFormed | app.py:161-180 | the question branch keeps the session invariant |
| Controller.EvaluateStepWellFormed | app.py:182-191 | the evaluation branch keeps the session invariant |
| Controller.TransitionWellFormed | app.py:107-195 | every run of the script keeps the session reachable: the candidate keys each stage reads exist, the index stays within the questions, and the answers are those of the questions asked so far |
| Controller.InitialWellFormed | app.py:91-97 | the first-run state satisfies the invariant |
| Controller.StageAdvances | app.py:107-195 | a run keeps the stage or moves it to the next one, never back |
| Controller.QuestionStepGrows | app.py:161-180 | the question branch only appends to the transcript |
| Controller.TranscriptGrows | app.py:79-82 | the transcript is append-only: a run only adds entries at its end |
| Controller.QuietWithoutInput | app.py:112-149 | without input, a field stage (or the intro after the greeting) changes nothing |
| Controller.FieldAnswer | app.py:112-156 | an answer in the intro or a field stage appends the raw input as a user entry and one assistant reply, moves to the next stage, and stores the stripped answer under the stage's key (the e-mail and phone only as digests); the reply greets by name or asks for the next field; questions, answers and index are untouched before the skills stage |
| Controller.GreetingStep | app.py:108-110 | the first intro run only sends the greeting and sets the flag; afterwards the flag stays set |
| Controller.RerunOnlyOnInput | app.py:159 | only the skills stage and an answered question call `st.rerun()`, and only with input |
| Controller.SkillsGenerateQuestions | app.py:151-158 | the stripped skills are stored, the questions are generated from them and the stored experience, the index is 0 and no answers exist |
| Controller.ShownBySelf | app.py:168 | an assistant entry that is exactly the question shows it |
| Controller.QuestionShownIffNew | app.py:166-169 | the current question is appended as an assistant entry exactly when no assistant entry contains it yet, and afterwards it is shown |
| Controller.QuestionStepSettles | app.py:161-169 | without input, running the question stage twice is running it once |
| Controller.EmptyQuestionHidden | app.py:168-169 | an empty current question is never displayed once the assistant has spoken |
| Controller.IndexAdvance | app.py:171-180 | an answer records the stripped input under the current question, appends the raw input as a user entry after the possibly shown question, advances the index, and after the last question appends the closing notice and moves to evaluation; the candidate, the questions and the greeting flag are untouched |
| Controller.QuestionWithoutInput | app.py:161-169 | without input the question stage changes at most the transcript, never reruns and saves nothing |
| Controller.NoQuestionsStuck | app.py:165 | with no questions the question stage ignores every input |
| Controller.EvaluateFinishes | app.py:182-191 | the record is the candidate as it stood plus exactly the answers, the questions and their evaluation; it is saved under the fresh id, the assistant says goodbye and the stage is `done` |
| Controller.SavesOnlyInEvaluate | app.py:189 | a record is saved in a run exactly when the run is in the evaluation stage |
| Controller.DoneIsFinal | app.py:193-195 | once done, a run changes nothing |
| Controller.IntroKeepsDetails | app.py:112-117 | the intro sets only the name |
| Controller.FieldKeepsDetails | app.py:119-149 | a field stage sets only its own detail |
| Controller.DetailsSetOnce | app.py:112-191 | no run overwrites a candidate detail (name, e-mail and phone digests, role, experience, skills) that is already set |
| Controller.KeepsDetailsTrans | app.py:112-191 | keeping the details set so far is transitive |
| Controller.ElementsCount | app.py:172 | a sequence has at most as many distinct elements as positions, and exactly as many when they are distinct |
| Controller.AnswersBound | app.py:172 | there are at most as many answers as questions asked, and exactly as many when the questions are distinct |
| Controller.HelpersGenerate | app.py:157 | with the script's own helpers the skills step gets at most three questions per skill |
| Runs.Turn | app.py:105 | a turn keeps the invariant, and once its rerun is done nothing is left pending |
| Runs.RerunSavesNothing | app.py:159-180 | a run that asks for a rerun saves nothing |
| Runs.TurnForward | app.py:105-195 | a turn moves the stage forward by at most two, only appends to the transcript, and leaves the greeting flag set |
| Runs.ExtendsTrans | app.py:82 | appending is transitive |
| Runs.TurnSaves | app.py:182-195 | a turn saves only when it ends the interview, and saves the record as it then stands; after `done` a turn changes nothing |
| Runs.LastAnswerFinishes | app.py:174-191 | answering the last question evaluates, saves and finishes within the same turn |
| Runs.SkillsTurnShowsFirst | app.py:151-169 | entering the skills ends the turn in the question stage at index 0, with the questions generated from the stripped skills and the stored experience, and the first question, if any, on screen |
| Runs.AnswerShowsNext | app.py:174-176 | answering any other question shows the next one within the same turn |
| Runs.States | app.py:105 | a session of n turns passes through n+1 states, starting from the given one |
| Runs.SessionWellFormed | app.py:91-195 | every state of a session is reachable |
| Runs.StatesChain | app.py:105 | each state of a session is what its turn makes of the one before |
| Runs.ChainMonotone | app.py:105-195 | in a chain of forward, appending steps, every later state is at or past every earlier one |
| Runs.SessionMonotone | app.py:105-195 | across a session stages never move back and the transcript is append-only |
| Runs.TurnKeepsDetails | app.py:105-191 | a turn, rerun included, never overwrites a candidate detail already set |
| Runs.ChainKeepsDetails | app.py:105-191 | in a chain of steps that keep details, every later state keeps the details of every earlier one |
| Runs.SessionKeepsDetails | app.py:105-191 | across a session each detail keeps the value first given, so the saved record holds the first e-mail and phone digests |
| Runs.GreetingAtMostOnce | app.py:108-110 | after the first turn the greeting flag is set, so the greeting goes out at most once |
| Runs.SavesAtMostOnce | app.py:189 | a session saves at most one record, and none once done |
| Runs.NoQuestionsForever | app.py:165 | with no questions generated the session stays in the question stage forever and saves nothing |
| Runs.AnswerTurn | app.py:171-176 | answering a question other than the last moves to the next question, keeps the questions and saves nothing |
| Runs.LastAnswerSession | app.py:174-191 | a one-turn session that answers the last question ends in `done` having saved exactly one record |
| Runs.AnswerSession | app.py:171-176 | after answering a question other than the last, the session continues from the next question with nothing saved |
| Runs.AnsweringCompletes | app.py:161-191 | one answer per remaining question finishes the interview with exactly one saved record |
| Script.AnyShown | app.py:168 | the scan over the transcript decides exactly whether an assistant entry contains the question |
| Script.Session.constructor | app.py:91-97 | a new session is the first-run state |
| Script.Session.Chat | app.py:79-82 | the entry is appended to the transcript and nothing else changes |
| Script.Session.RunIntro | app.py:107-117 | the intro branch updates the session as `IntroStep` says |
| Script.Session.RunField | app.py:119-149 | the field branches update the session as `FieldStep` says |
| Script.Session.RunTechStack | app.py:151-159 | the skills branch, running `generate_questions`, updates the session as `TechStackStep` says |
| Script.Session.ShowQuestion | app.py:168-169 | the question is appended exactly when no assistant entry already contains it, and nothing else changes |
| Script.Session.RunQuestion | app.py:161-180 | the question branch updates the session as `QuestionStep` says |
| Script.Session.RunEvaluate | app.py:182-191 | the evaluation branch, running `evaluate_answers` and `save_result`, updates the session as `EvaluateStep` says |
| Script.Session.Step | app.py:107-195 | one run of the script updates the session as `Transition` says |
| Script.Session.Turn | app.py:105-195 | a run and its rerun update the session as `Runs.Turn` says |

## Left out

- Rendering: the page set-up and title (lines 88-89), the transcript replay (lines 100-102), `st.chat_message`/`st.markdown` inside `chat`, and the closing banner (lines 194-195). These only draw the page and change no state.
- `st.rerun()` is modelled as one more run with no input. How Streamlit cuts the current run short is not modelled; nothing follows a rerun call in the script anyway.
- LastAnswerSession: assumes the write at line 73 succeeds. For a name that makes `open` raise, the script stays in the evaluation stage instead of reaching `done`.
- The language model call (`ollama.chat`) is the `oracle` parameter. Its replies are arbitrary, so nothing is claimed about their content.
- The `oracle` is a function of its prompt, so the same prompt always gets the same reply. The script calls the model afresh for each skill token (lines 15-22), so a repeated skill such as `"Python, Python"` can get two different question groups there; the model gets the same group twice. In the model the repeated questions are then shown only once (line 168) and the second answer overwrites the first (line 172). Replies that differ between identical prompts are not modelled.
- `json.loads` is the `parse` parameter, and a bare `except` falling back to `{"raw": reply}` is its `None` result. Other exceptions, such as a failing model call, are not modelled.
- `hashlib.sha256(...).hexdigest()` is the `digest` parameter. `.encode()` to UTF-8 is not modelled.
- `uuid.uuid4()` is the per-turn `id` parameter. Its randomness, and so the uniqueness of file names, is a premise of `Store.FileNamesDistinct` rather than modelled.
- `os.makedirs` and writing the JSON file are not modelled. `SaveResult` returns the path and the record that would be written; the path is unused by the script.
- Controller.EvaluateFinishes, Runs.TurnSaves, Runs.LastAnswerFinishes, Runs.LastAnswerSession, Runs.AnsweringCompletes, Runs.SavesAtMostOnce, Store.SavePathOfUuid and Script.Session.RunEvaluate assume the write at line 73 succeeds. The slug keeps a `/` (`Store.SlashKept`), a NUL and any length, so a name such as `AC/DC` or an over-long name makes `open` raise. That run then stops before the farewell (line 190) and before `done` (line 191), and every later run enters the evaluation stage again, calling the model once more. Failing writes, and the exception that ends the run, are not modelled.
- `PyStr.Lower`: lower-cases ASCII letters only, because Unicode case mapping is not modelled.
- `Store.SlugClean`: only claims there is no upper-case ASCII letter, for the same reason.
- Dictionary insertion order of `answers` and of the candidate record affects only the layout of the saved JSON. Maps do not capture it.
- The saved record shares the `answers` dictionary with the session (Python aliasing). No later step mutates it, so this is not modelled.
- Concurrent sessions and simultaneous submissions are not modelled. Each session is a separate `Session` object.
- `from datetime import datetime` (line 7) is unused by the script.
