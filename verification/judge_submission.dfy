/** What `generateOutput` sends to the Judge0 execution service: the
    language identifier table and the body of the submission request. */
module JudgeSubmission {
  import opened Wrappers
  import opened Languages

  /** The `LANGUAGE_MAP` table built inside `generateOutput`: Judge0's
      numeric identifier for each enumeration member. */
  const LanguageMap: map<Language, int> :=
    map[C_CPP := 54, JAVASCRIPT := 63, PYTHON3 := 71]

  /** The identifier submitted for a problem's language. The table covers
      every member, and the identifier names no other member. */
  function LanguageId(l: Language): (id: int)
    ensures LanguageOfId(id) == Some(l)
  {
    assert l.C_CPP? || l.JAVASCRIPT? || l.PYTHON3?;
    LanguageMap[l]
  }

  /** The member a Judge0 identifier stands for, if the table has one. */
  function LanguageOfId(id: int): (r: Option<Language>)
    ensures r.Some? ==> r.value in LanguageMap && LanguageMap[r.value] == id
    ensures r.None? ==> forall l :: l in LanguageMap ==> LanguageMap[l] != id
  {
    if id == 54 then Some(C_CPP)
    else if id == 63 then Some(JAVASCRIPT)
    else if id == 71 then Some(PYTHON3)
    else None
  }

  /** The table is total on the enumeration and no identifier is reused. */
  lemma LanguageIdInjective(a: Language, b: Language)
    ensures LanguageId(a) == LanguageId(b) <==> a == b
    ensures LanguageOfId(LanguageId(a)) == Some(a)
  {
  }

  /** The stored problem fields `generateOutput` reads. */
  datatype Problem = Problem(
    correctCode: string,
    correctLanguage: Language,
    timeLimit: real,
    memoryLimit: int)

  /** The JSON body of `POST /submissions`; the fields are, in order,
      `language_id`, `source_code`, `stdin`, `cpu_time_limit` and
      `memory_limit`. */
  datatype SubmitBody = SubmitBody(
    languageId: int,
    sourceCode: string,
    stdin: string,
    cpuTimeLimit: real,
    memoryLimit: int)

  /** The submission for running the problem's reference solution on
      `inputs`; it is sent with `base64_encoded=false`, so every text field
      is passed through as is. */
  function BuildSubmitBody(problem: Problem, inputs: string): (body: SubmitBody)
    ensures LanguageOfId(body.languageId) == Some(problem.correctLanguage)
    ensures body.sourceCode == problem.correctCode
    ensures body.stdin == inputs
    ensures body.cpuTimeLimit == problem.timeLimit
    ensures body.memoryLimit == problem.memoryLimit
  {
    SubmitBody(
      LanguageId(problem.correctLanguage),
      problem.correctCode,
      inputs,
      problem.timeLimit,
      problem.memoryLimit)
  }

  /** The body loses nothing: the problem fields can be read back from it. */
  function ProblemOf(body: SubmitBody): Option<Problem>
  {
    match LanguageOfId(body.languageId)
    case None => None
    case Some(l) => Some(Problem(body.sourceCode, l, body.cpuTimeLimit, body.memoryLimit))
  }

  lemma SubmitBodyRoundTrip(problem: Problem, inputs: string)
    ensures ProblemOf(BuildSubmitBody(problem, inputs)) == Some(problem)
  {
  }
}
