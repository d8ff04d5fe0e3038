/**
 * The question generator (`generate_questions`, app.py lines 10-27): the
 * comma-separated skill list is cut into trimmed, non-blank tokens; for each
 * token the oracle is asked once, its reply is parsed line by line, and at
 * most the first three questions of that reply are kept.
 */
module Questions {
  import opened PyStr

  /** The characters `lstrip("0123456789. ")` removes from the front of a reply line. */
  predicate IsNumbering(c: char) {
    '0' <= c <= '9' || c == '.' || c == ' '
  }

  /** The instruction sent to the oracle for one skill token. */
  function QuestionPrompt(experience: string, tech: string): string
  {
    PromptHead + experience + PromptMiddle + tech + PromptTail
  }

  /** The fixed parts of the question prompt, around the experience and the token. */
  const PromptHead: string := "You are an interviewer. Generate 3 technical interview questions for a candidate with "
  const PromptMiddle: string := " years of experience skilled in "
  const PromptTail: string := ". Keep them concise and clear. Number each question."

  // ---------------------------------------------------------------------------
  // Token split (line 11)

  /** The token of one piece: none when it strips to nothing, else the stripped piece. */
  function Token(piece: string): (t: seq<string>)
    ensures |t| <= 1
  {
    if Strip(piece) != "" then [Strip(piece)] else []
  }

  /** The pieces of a split that survive `if t.strip()`, each stripped, in their order. */
  function Tokens(pieces: seq<string>): (ts: seq<string>)
    ensures |ts| <= |pieces|
  {
    if |pieces| == 0 then [] else Token(pieces[0]) + Tokens(pieces[1..])
  }

  /** Every token is non-empty and has no surrounding whitespace. */
  lemma {:induction false} TokensWellFormed(pieces: seq<string>)
    ensures forall i :: 0 <= i < |Tokens(pieces)| ==> Tokens(pieces)[i] != "" && IsStripped(Tokens(pieces)[i])
  {
    if |pieces| > 0 {
      StripIsStripped(pieces[0]);
      TokensWellFormed(pieces[1..]);
    }
  }

  /** The skill tokens of a comma-separated list: at most one per comma-separated piece. */
  function Techs(techStack: string): (ts: seq<string>)
    ensures |ts| <= |Split(techStack, ',')|
  {
    Tokens(Split(techStack, ','))
  }

  /** The skill tokens are non-empty, trimmed and comma-free. */
  lemma TechsWellFormed(techStack: string)
    ensures forall i :: 0 <= i < |Techs(techStack)| ==>
              Techs(techStack)[i] != "" && IsStripped(Techs(techStack)[i]) && ',' !in Techs(techStack)[i]
  {
    var pieces := Split(techStack, ',');
    SplitPiecesAvoid(techStack, ',');
    TokensAvoid(pieces, ',');
    TokensWellFormed(pieces);
  }

  /** A character that no piece holds is held by no token. */
  lemma {:induction false} TokensAvoid(pieces: seq<string>, c: char)
    requires forall j :: 0 <= j < |pieces| ==> c !in pieces[j]
    ensures forall i :: 0 <= i < |Tokens(pieces)| ==> c !in Tokens(pieces)[i]
  {
    if |pieces| > 0 {
      StripAvoids(pieces[0], c);
      TokensAvoid(pieces[1..], c);
    }
  }

  /** Filtering keeps order and duplicates: the tokens of two runs of pieces are the two token lists, in order. */
  lemma {:induction false} TokensAppend(a: seq<string>, b: seq<string>)
    ensures Tokens(a + b) == Tokens(a) + Tokens(b)
    decreases |a|
  {
    if |a| == 0 {
      assert a + b == b;
    } else {
      assert (a + b)[1..] == a[1..] + b;
      TokensAppend(a[1..], b);
    }
  }

  /** Pieces that are already non-empty and trimmed are their own tokens. */
  lemma {:induction false} TokensOfClean(parts: seq<string>)
    requires forall i :: 0 <= i < |parts| ==> parts[i] != "" && IsStripped(parts[i])
    ensures Tokens(parts) == parts
  {
    if |parts| > 0 {
      StrippedFixed(parts[0]);
      TokensOfClean(parts[1..]);
      assert [parts[0]] + parts[1..] == parts;
    }
  }

  /**
   * The tokens of a joined list of comma-free pieces are those pieces,
   * stripped, with the blank ones dropped and duplicates kept, in order;
   * a list of non-empty, trimmed, comma-free skills tokenises back to itself.
   */
  lemma TechsOfJoin(parts: seq<string>)
    requires |parts| >= 1
    requires forall i :: 0 <= i < |parts| ==> ',' !in parts[i]
    ensures Techs(Join(parts, ',')) == Tokens(parts)
    ensures (forall i :: 0 <= i < |parts| ==> parts[i] != "" && IsStripped(parts[i])) ==> Techs(Join(parts, ',')) == parts
  {
    SplitJoin(parts, ',');
    if forall i :: 0 <= i < |parts| ==> parts[i] != "" && IsStripped(parts[i]) {
      TokensOfClean(parts);
    }
  }

  // ---------------------------------------------------------------------------
  // Reply parsing (line 24)

  /** One reply line as a question: the leading numbering run removed, then stripped. */
  function CleanLine(line: string): string
  {
    Strip(TrimLeft(line, IsNumbering))
  }

  /** A question is a contiguous part of the reply line it came from. */
  lemma CleanLineOccurs(line: string)
    ensures exists i :: OccursAt(line, CleanLine(line), i)
  {
    var t := TrimLeft(line, IsNumbering);
    var i, j := |line| - |t|, |t| - |TrimLeft(t, IsSpace)|;
    assert OccursAt(line, t, i) by {
      TrimLeftSuffix(line, IsNumbering);
      SuffixOccurs(t, line);
    }
    assert OccursAt(t, CleanLine(line), j) by {
      StripOccurs(t);
    }
    OccursAtTrans(line, t, CleanLine(line), i, j);
  }

  /** The question of one reply line: none for a blank line, else the cleaned line. */
  function LineQuestion(line: string): (q: seq<string>)
    ensures |q| <= 1
  {
    if Strip(line) != "" then [CleanLine(line)] else []
  }

  /** The questions of a list of reply lines: blank lines skipped, the others cleaned, in order. */
  function ParseLines(lines: seq<string>): (qs: seq<string>)
    ensures |qs| <= |lines|
  {
    if |lines| == 0 then [] else LineQuestion(lines[0]) + ParseLines(lines[1..])
  }

  /** Every parsed question has no surrounding whitespace. */
  lemma {:induction false} ParseLinesStripped(lines: seq<string>)
    ensures forall i :: 0 <= i < |ParseLines(lines)| ==> IsStripped(ParseLines(lines)[i])
  {
    if |lines| > 0 {
      StripIsStripped(TrimLeft(lines[0], IsNumbering));
      ParseLinesStripped(lines[1..]);
    }
  }

  /** The questions of one oracle reply. */
  function ParseQuestions(text: string): (qs: seq<string>)
    ensures |qs| <= |SplitLines(text)|
  {
    ParseLines(SplitLines(text))
  }

  /** A blank reply line gives no question. */
  lemma BlankLineSkipped(line: string)
    requires IsBlank(line)
    ensures ParseLines([line]) == []
  {
    StripEmptyIffBlank(line);
    assert [line][1..] == [];
  }

  /**
   * A line that is only numbering but is not blank (such as "2.") gives an
   * empty question: blankness is checked before the numbering is removed.
   */
  lemma NumberingOnlyLine(line: string)
    requires forall i :: 0 <= i < |line| ==> IsNumbering(line[i])
    requires !IsBlank(line)
    ensures ParseLines([line]) == [""]
  {
    StripEmptyIffBlank(line);
    assert line + "" == line;
    TrimLeftOf(line, "", IsNumbering);
    assert [line][1..] == [];
  }

  /** Any other line gives one question: its text without numbering and surrounding blanks. */
  lemma TextLineKept(line: string)
    requires !IsBlank(line)
    ensures ParseLines([line]) == [CleanLine(line)]
  {
    StripEmptyIffBlank(line);
    assert [line][1..] == [];
  }

  /** The lines are parsed one by one: the questions of two runs of lines are the two lists, in order. */
  lemma {:induction false} ParseLinesAppend(a: seq<string>, b: seq<string>)
    ensures ParseLines(a + b) == ParseLines(a) + ParseLines(b)
    decreases |a|
  {
    if |a| == 0 {
      assert a + b == b;
    } else {
      assert (a + b)[0] == a[0] && (a + b)[1..] == a[1..] + b;
      ParseLinesAppend(a[1..], b);
    }
  }

  // ---------------------------------------------------------------------------
  // Generation (lines 10-27)

  /** The first `n` elements of `s`, or all of `s` when it is shorter (Python's `s[:n]`). */
  function Take(s: seq<string>, n: nat): (r: seq<string>)
    ensures |r| == if |s| < n then |s| else n
    ensures forall i :: 0 <= i < |r| ==> r[i] == s[i]
  {
    if |s| <= n then s else s[..n]
  }

  /** The questions kept for one token: the first three of the parsed reply to that token's prompt. */
  function Group(oracle: string -> string, experience: string, tech: string): (g: seq<string>)
    ensures |g| <= 3
  {
    Take(ParseQuestions(oracle(QuestionPrompt(experience, tech))), 3)
  }

  /** The groups of a list of tokens, concatenated in token order. */
  function Collect(group: string -> seq<string>, techs: seq<string>): seq<string>
  {
    if |techs| == 0 then []
    else Collect(group, techs[..|techs| - 1]) + group(techs[|techs| - 1])
  }

  /** Collecting is a homomorphism: the groups of two runs of tokens are the two lists, in order. */
  lemma {:induction false} CollectAppend(group: string -> seq<string>, a: seq<string>, b: seq<string>)
    ensures Collect(group, a + b) == Collect(group, a) + Collect(group, b)
    decreases |b|
  {
    if |b| == 0 {
      assert a + b == a;
    } else {
      var b' := b[..|b| - 1];
      var last := group(b[|b| - 1]);
      assert (a + b)[..|a + b| - 1] == a + b';
      assert (a + b)[|a + b| - 1] == b[|b| - 1];
      calc {
        Collect(group, a + b);
        Collect(group, a + b') + last;
        { CollectAppend(group, a, b'); }
        (Collect(group, a) + Collect(group, b')) + last;
        Collect(group, a) + (Collect(group, b') + last);
        Collect(group, a) + Collect(group, b);
      }
    }
  }

  /** No more than three questions per token. */
  lemma {:induction false} CollectBound(oracle: string -> string, experience: string, techs: seq<string>)
    ensures |Collect(t => Group(oracle, experience, t), techs)| <= 3 * |techs|
    decreases |techs|
  {
    if |techs| > 0 {
      CollectBound(oracle, experience, techs[..|techs| - 1]);
    }
  }

  /** The questions generated for a list of tokens: each token's group, concatenated in token order. */
  function Generated(oracle: string -> string, experience: string, techs: seq<string>): seq<string>
  {
    Collect(t => Group(oracle, experience, t), techs)
  }

  /** At most three questions per skill token. */
  lemma GeneratedBound(oracle: string -> string, experience: string, techs: seq<string>)
    ensures |Generated(oracle, experience, techs)| <= 3 * |techs|
  {
    CollectBound(oracle, experience, techs);
  }

  /** Generation is a homomorphism: the questions of two runs of tokens are the two lists, in order. */
  lemma GeneratedAppend(oracle: string -> string, experience: string, a: seq<string>, b: seq<string>)
    ensures Generated(oracle, experience, a + b) == Generated(oracle, experience, a) + Generated(oracle, experience, b)
  {
    CollectAppend(t => Group(oracle, experience, t), a, b);
  }

  /** Each token's group sits in the collected list at the offset given by the groups of the tokens before it. */
  lemma CollectAt(group: string -> seq<string>, techs: seq<string>, i: nat)
    requires i < |techs|
    ensures var off := |Collect(group, techs[..i])|;
            off + |group(techs[i])| <= |Collect(group, techs)|
            && Collect(group, techs)[off..off + |group(techs[i])|] == group(techs[i])
  {
    var pre := Collect(group, techs[..i]);
    var g := group(techs[i]);
    var post := Collect(group, techs[i + 1..]);
    assert techs[..i + 1][..i] == techs[..i];
    assert techs[..i + 1] + techs[i + 1..] == techs;
    CollectAppend(group, techs[..i + 1], techs[i + 1..]);
    SliceMiddle(pre, g, post);
  }

  /** Each token's group sits in the output at the offset given by the groups of the tokens before it. */
  lemma GroupAt(oracle: string -> string, experience: string, techs: seq<string>, i: nat)
    requires i < |techs|
    ensures var off := |Generated(oracle, experience, techs[..i])|;
            var g := Group(oracle, experience, techs[i]);
            off + |g| <= |Generated(oracle, experience, techs)|
            && Generated(oracle, experience, techs)[off..off + |g|] == g
  {
    CollectAt(t => Group(oracle, experience, t), techs, i);
  }

  /** Generating for one more token appends that token's group. */
  lemma GeneratedSnoc(oracle: string -> string, experience: string, techs: seq<string>, i: nat)
    requires i < |techs|
    ensures Generated(oracle, experience, techs[..i + 1])
         == Generated(oracle, experience, techs[..i]) + Group(oracle, experience, techs[i])
  {
    assert techs[..i + 1][..i] == techs[..i];
  }

  /** The oracle requests issued for a list of tokens, one per token, in order. */
  function Requests(experience: string, techs: seq<string>): (rs: seq<string>)
    ensures |rs| == |techs|
  {
    if |techs| == 0 then []
    else Requests(experience, techs[..|techs| - 1]) + [QuestionPrompt(experience, techs[|techs| - 1])]
  }

  /** The `i`-th request is the prompt for the `i`-th token. */
  lemma {:induction false} RequestsAt(experience: string, techs: seq<string>, i: nat)
    requires i < |techs|
    ensures Requests(experience, techs)[i] == QuestionPrompt(experience, techs[i])
    decreases |techs|
  {
    if i < |techs| - 1 {
      var init := techs[..|techs| - 1];
      RequestsAt(experience, init, i);
      assert Requests(experience, techs)[i] == Requests(experience, init)[i];
    }
  }

  /** Asking for one more token appends that token's prompt. */
  lemma RequestsSnoc(experience: string, techs: seq<string>, i: nat)
    requires i < |techs|
    ensures Requests(experience, techs[..i + 1])
         == Requests(experience, techs[..i]) + [QuestionPrompt(experience, techs[i])]
  {
    assert techs[..i + 1][..i] == techs[..i];
  }

  /**
   * `generate_questions`: one oracle request per token, in token order
   * (`requests` records them), and the questions are the groups of the
   * replies, concatenated in token order.
   */
  method GenerateQuestions(oracle: string -> string, techStack: string, experience: string)
    returns (questions: seq<string>, ghost requests: seq<string>)
    ensures questions == Generated(oracle, experience, Techs(techStack))
    ensures requests == Requests(experience, Techs(techStack))
  {
    var techs := Techs(techStack);
    questions, requests := [], [];
    for i := 0 to |techs|
      invariant questions == Generated(oracle, experience, techs[..i])
      invariant requests == Requests(experience, techs[..i])
    {
      var prompt := QuestionPrompt(experience, techs[i]);
      RequestsSnoc(experience, techs, i);
      requests := requests + [prompt];
      var text := oracle(prompt);
      var techQuestions := ParseQuestions(text);
      GeneratedSnoc(oracle, experience, techs, i);
      questions := questions + Take(techQuestions, 3);
    }
    assert techs[..|techs|] == techs;
  }
}
