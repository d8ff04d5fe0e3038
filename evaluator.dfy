/**
 * The answer evaluator (`evaluate_answers`, app.py lines 31-59): a fixed
 * grading rubric followed by one "Q:/A:" block per question, in question
 * order, is sent to the oracle once; its reply is parsed as JSON, and a reply
 * that does not parse is kept verbatim under the key "raw".
 */
module Evaluator {
  import opened Wrappers
  import opened PyStr

  /** A JSON value, as `json.loads` produces and `json.dump` writes; numbers keep their text. */
  datatype Json =
    | JNull
    | JBool(b: bool)
    | JNumber(text: string)
    | JString(s: string)
    | JArray(items: seq<Json>)
    | JObject(members: seq<(string, Json)>)

  /** The grading instructions that open every evaluation prompt. */
  const Rubric: string :=
    "You are a strict and objective technical interviewer evaluating candidate answers.\n\n"
    + "For each answer provided:\n"
    + "- Carefully assess its correctness, completeness, and clarity.\n"
    + "- Score the answer on a scale of 0 to 5 as follows:\n\n"
    + "  \U{2022} 0 = No answer, irrelevant, gibberish, or completely incorrect\n"
    + "  \U{2022} 1 = Very poor understanding, mostly incorrect\n"
    + "  \U{2022} 2 = Partially correct, missing key elements\n"
    + "  \U{2022} 3 = Generally correct but lacking depth or examples\n"
    + "  \U{2022} 4 = Mostly correct with minor gaps\n"
    + "  \U{2022} 5 = Completely correct, well-structured, and clearly explained\n\n"
    + "Return output as JSON with keys:\n"
    + "- 'evaluations': a list of objects with {question, answer, score, feedback}\n"
    + "- 'average_score': the average of all scores (as float)\n\n"
    + "Be strict in your grading. If an answer is empty or nonsense, assign a score of 0 and explain why.\n\n"

  /** `answers.get(q, '')`: the recorded answer, or the empty text for a question never answered. */
  function Get(answers: map<string, string>, q: string): string
  {
    if q in answers then answers[q] else ""
  }

  /** The prompt block for one question and its answer. */
  function Block(q: string, a: string): string
  {
    Concat(["Q: ", q, "\nA: ", a, "\n\n"])
  }

  /** The blocks of a list of questions, in order, each with its answer looked up by question text. */
  function Blocks(questions: seq<string>, answers: map<string, string>): string
  {
    if |questions| == 0 then ""
    else
      var q := questions[|questions| - 1];
      Blocks(questions[..|questions| - 1], answers) + Block(q, Get(answers, q))
  }

  /** The full evaluation prompt. */
  function EvalPrompt(questions: seq<string>, answers: map<string, string>): string
  {
    Rubric + Blocks(questions, answers)
  }

  /** An independent description of the blocks: the `i`-th block belongs to the `i`-th question. */
  function BlockList(questions: seq<string>, answers: map<string, string>): (bs: seq<string>)
    ensures |bs| == |questions|
  {
    seq(|questions|, i requires 0 <= i < |questions| => Block(questions[i], Get(answers, questions[i])))
  }

  /** Asking about one more question appends its block. */
  lemma BlocksSnoc(questions: seq<string>, answers: map<string, string>, i: nat)
    requires i < |questions|
    ensures Blocks(questions[..i + 1], answers)
         == Blocks(questions[..i], answers) + Block(questions[i], Get(answers, questions[i]))
  {
    assert questions[..i + 1][..i] == questions[..i];
  }

  /** The blocks are the per-question blocks concatenated in question order. */
  lemma {:induction false} BlocksInOrder(questions: seq<string>, answers: map<string, string>)
    ensures Blocks(questions, answers) == Concat(BlockList(questions, answers))
    decreases |questions|
  {
    if |questions| > 0 {
      var n := |questions| - 1;
      var init := questions[..n];
      BlocksInOrder(init, answers);
      assert BlockList(questions, answers) == BlockList(init, answers) + [Block(questions[n], Get(answers, questions[n]))];
      ConcatSnoc(BlockList(init, answers), Block(questions[n], Get(answers, questions[n])));
    }
  }

  /**
   * Each question's block sits in the prompt right after the blocks of the
   * questions before it; an unanswered question's block has an empty answer.
   */
  lemma BlockPlacement(questions: seq<string>, answers: map<string, string>, i: nat)
    requires i < |questions|
    ensures OccursAt(Blocks(questions, answers),
                     Block(questions[i], Get(answers, questions[i])),
                     |Blocks(questions[..i], answers)|)
    ensures questions[i] !in answers ==> Get(answers, questions[i]) == ""
  {
    var b := Block(questions[i], Get(answers, questions[i]));
    var pre := Blocks(questions[..i], answers);
    var post := Blocks(questions[i + 1..], answers);
    assert questions[..i + 1] + questions[i + 1..] == questions;
    BlocksAppend(questions[..i + 1], questions[i + 1..], answers);
    BlocksSnoc(questions, answers, i);
    SliceMiddle(pre, b, post);
  }

  /** The blocks of two runs of questions are the two block texts, in order. */
  lemma {:induction false} BlocksAppend(a: seq<string>, b: seq<string>, answers: map<string, string>)
    ensures Blocks(a + b, answers) == Blocks(a, answers) + Blocks(b, answers)
    decreases |b|
  {
    if |b| == 0 {
      assert a + b == a;
    } else {
      var b' := b[..|b| - 1];
      var last := Block(b[|b| - 1], Get(answers, b[|b| - 1]));
      assert (a + b)[..|a + b| - 1] == a + b';
      assert (a + b)[|a + b| - 1] == b[|b| - 1];
      BlocksAppend(a, b', answers);
      calc {
        Blocks(a + b, answers);
        Blocks(a + b', answers) + last;
        (Blocks(a, answers) + Blocks(b', answers)) + last;
        Blocks(a, answers) + (Blocks(b', answers) + last);
        Blocks(a, answers) + Blocks(b, answers);
      }
    }
  }

  /** Extends `head` with the question blocks in question order, one block per loop round. */
  method AppendBlocks(head: string, questions: seq<string>, answers: map<string, string>) returns (prompt: string)
    ensures prompt == head + Blocks(questions, answers)
  {
    prompt := head;
    for i := 0 to |questions|
      invariant prompt == head + Blocks(questions[..i], answers)
    {
      var b := Block(questions[i], Get(answers, questions[i]));
      BlocksSnoc(questions, answers, i);
      assert prompt + b == head + (Blocks(questions[..i], answers) + b);
      prompt := prompt + b;
    }
    assert questions[..|questions|] == questions;
  }

  /** Builds the evaluation prompt: the rubric, then the question blocks in question order. */
  method BuildPrompt(questions: seq<string>, answers: map<string, string>) returns (prompt: string)
    ensures prompt == EvalPrompt(questions, answers)
  {
    prompt := AppendBlocks(Rubric, questions, answers);
  }

  /** The fallback for a reply that is not JSON: an object whose only key "raw" holds the reply. */
  function Raw(reply: string): Json
  {
    JObject([("raw", JString(reply))])
  }

  /** The text kept under "raw" by the fallback, if `j` has that shape. */
  function RawText(j: Json): Option<string>
  {
    if j.JObject? && |j.members| == 1 && j.members[0].0 == "raw" && j.members[0].1.JString?
    then Some(j.members[0].1.s)
    else None
  }

  /** The evaluation recorded for one reply: the parsed reply, or the fallback. */
  function EvaluationOf(parse: string -> Option<Json>, reply: string): Json
  {
    match parse(reply)
    case Some(j) => j
    case None => Raw(reply)
  }

  /**
   * No reply is lost: when the reply parses the evaluation is its parse,
   * and when it does not, the reply can be read back from the fallback.
   */
  lemma EvaluationKeepsReply(parse: string -> Option<Json>, reply: string)
    ensures parse(reply).Some? ==> EvaluationOf(parse, reply) == parse(reply).value
    ensures parse(reply).None? ==> RawText(EvaluationOf(parse, reply)) == Some(reply)
  {
  }

  /** The evaluation of a set of answers: one oracle request on the full prompt, then the reply's evaluation. */
  function Evaluation(oracle: string -> string, parse: string -> Option<Json>,
                      questions: seq<string>, answers: map<string, string>): Json
  {
    EvaluationOf(parse, oracle(EvalPrompt(questions, answers)))
  }

  /** `evaluate_answers`: one request carrying the full prompt; the result is that reply's evaluation. */
  method EvaluateAnswers(oracle: string -> string, parse: string -> Option<Json>,
                         questions: seq<string>, answers: map<string, string>)
    returns (evaluation: Json, ghost request: string)
    ensures request == EvalPrompt(questions, answers)
    ensures evaluation == Evaluation(oracle, parse, questions, answers)
  {
    var prompt := BuildPrompt(questions, answers);
    request := prompt;
    var reply := oracle(prompt);
    match parse(reply)
    case Some(j) => evaluation := j;
    case None => evaluation := Raw(reply);
  }
}
