/**
 * The result store (`save_result`, app.py lines 63-76): the candidate record
 * is written as JSON to `candidates_data/<uuid>_<slug>.json`, where the slug
 * is the candidate's name with spaces turned into underscores and lower-cased.
 * The write itself is represented by the returned path and record.
 */
module Store {
  import opened Wrappers
  import opened PyStr
  import opened Evaluator

  /**
   * The candidate record (`st.session_state.candidate`): each key the
   * interview sets is a field that stays `None` until its stage sets it.
   */
  datatype Candidate = Candidate(
    name: Option<string>,
    email: Option<string>,
    phone: Option<string>,
    role: Option<string>,
    experience: Option<string>,
    techStack: Option<string>,
    answers: Option<map<string, string>>,
    questions: Option<seq<string>>,
    evaluation: Option<Json>)

  /** The empty dictionary the session starts with. */
  const NoCandidate: Candidate := Candidate(None, None, None, None, None, None, None, None, None)

  /** What one call of `save_result` writes: the file path and the record dumped into it. */
  datatype Saved = Saved(path: string, record: Candidate)

  /** The directory the records go to. */
  const SaveDir: string := "candidates_data"

  /** `name.replace(' ', '_').lower()`. */
  function Slug(name: string): string
  {
    Lower(ReplaceChar(name, ' ', '_'))
  }

  /** The file name of a record: the identifier, an underscore, the slug, and the JSON extension. */
  function FileName(id: string, name: string): string
  {
    id + "_" + Slug(name) + ".json"
  }

  /** `os.path.join(dir, f)` on POSIX: an absolute `f` replaces `dir`; otherwise one `/` separates them. */
  function PathJoin(dir: string, f: string): string
  {
    if |f| > 0 && f[0] == '/' then f
    else if |dir| == 0 || dir[|dir| - 1] == '/' then dir + f
    else dir + "/" + f
  }

  /** `save_result`: where the record goes, given the fresh identifier `id`; the record is written unchanged. */
  function SaveResult(id: string, candidate: Candidate): Saved
    requires candidate.name.Some?
  {
    Saved(PathJoin(SaveDir, FileName(id, candidate.name.value)), candidate)
  }

  /** The text form of `uuid.uuid4()`: 36 characters, lower-case hexadecimal digits with dashes at 8, 13, 18 and 23. */
  predicate IsUuid(id: string)
  {
    |id| == 36
    && forall i :: 0 <= i < 36 ==>
         if i == 8 || i == 13 || i == 18 || i == 23 then id[i] == '-'
         else '0' <= id[i] <= '9' || 'a' <= id[i] <= 'f'
  }

  /** The slug keeps the name's length and holds no space and no upper-case ASCII letter. */
  lemma SlugClean(name: string)
    ensures |Slug(name)| == |name|
    ensures ' ' !in Slug(name)
    ensures forall i :: 0 <= i < |name| ==> !('A' <= Slug(name)[i] <= 'Z')
  {
    forall i | 0 <= i < |name| ensures Slug(name)[i] != ' ' && !('A' <= Slug(name)[i] <= 'Z') {
      assert Slug(name)[i] == LowerChar(ReplaceChar(name, ' ', '_')[i]);
    }
  }

  /**
   * The slug changes only spaces and upper-case letters: every other
   * character of the name stays where it was, and a space becomes `_`.
   */
  lemma SlugKeeps(name: string, i: nat)
    requires i < |name|
    ensures name[i] == ' ' ==> Slug(name)[i] == '_'
    ensures name[i] != ' ' && !('A' <= name[i] <= 'Z') ==> Slug(name)[i] == name[i]
    ensures 'A' <= name[i] <= 'Z' ==> Slug(name)[i] as int == name[i] as int + 32
  {
    assert Slug(name)[i] == LowerChar(ReplaceChar(name, ' ', '_')[i]);
  }

  /** Making a slug twice gives the same slug. */
  lemma SlugIdempotent(name: string)
    ensures Slug(Slug(name)) == Slug(name)
  {
    var s := Slug(name);
    SlugClean(name);
    SlugClean(s);
    forall i | 0 <= i < |s| ensures Slug(s)[i] == s[i] {
      SlugKeeps(s, i);
    }
  }

  /** The file name starts with the identifier and an underscore, ends in `.json`, and has no space when the identifier has none. */
  lemma FileNameShape(id: string, name: string)
    ensures IsPrefix(id + "_", FileName(id, name))
    ensures IsSuffix(".json", FileName(id, name))
    ensures ' ' !in id ==> ' ' !in FileName(id, name)
  {
    var f := FileName(id, name);
    assert f == (id + "_") + Slug(name) + ".json";
    assert f[..|id + "_"|] == id + "_";
    assert f[|f| - 5..] == ".json";
    SlugClean(name);
  }

  /** Two records saved under different identifiers of the same length never share a file name, whatever the names. */
  lemma FileNamesDistinct(id1: string, name1: string, id2: string, name2: string)
    requires |id1| == |id2| && id1 != id2
    ensures FileName(id1, name1) != FileName(id2, name2)
  {
    var k :| 0 <= k < |id1| && id1[k] != id2[k];
    assert FileName(id1, name1)[k] == id1[k];
    assert FileName(id2, name2)[k] == id2[k];
  }

  /**
   * The slug keeps a `/` of the name, so such a name puts a `/` inside the
   * file name: the path then names a file in a subdirectory of the save
   * directory, which `save_result` never creates.
   */
  lemma SlashKept(id: string, name: string, k: nat)
    requires k < |name| && name[k] == '/'
    ensures FileName(id, name)[|id| + 1 + k] == '/'
  {
    SlugKeeps(name, k);
    SlugClean(name);
    assert FileName(id, name) == (id + "_") + Slug(name) + ".json";
  }

  /** With a real uuid the record goes straight into the save directory, under its file name. */
  lemma SavePathOfUuid(id: string, candidate: Candidate)
    requires IsUuid(id) && candidate.name.Some?
    ensures SaveResult(id, candidate).path == SaveDir + "/" + FileName(id, candidate.name.value)
    ensures SaveResult(id, candidate).record == candidate
  {
    var f := FileName(id, candidate.name.value);
    assert f[0] == id[0];
    assert SaveDir[|SaveDir| - 1] == 'a';
  }
}
