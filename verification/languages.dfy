/** The `Language` enumeration of the database schema: the languages a
    problem's reference solution and a user's submission may be written in.
    The schema generator emits a string enumeration whose values are the
    member names themselves. */
module Languages {
  import opened Wrappers

  datatype Language = C_CPP | JAVASCRIPT | PYTHON3

  /** The generated enumeration object: each member's string value. */
  const EnumValues: map<Language, string> :=
    map[C_CPP := "C_CPP", JAVASCRIPT := "JAVASCRIPT", PYTHON3 := "PYTHON3"]

  /** The string value that stands for `l` in a request or a database row.
      Every member has one, and no other member shares it. */
  function Name(l: Language): (r: string)
    ensures FromName(r) == Some(l)
  {
    assert l.C_CPP? || l.JAVASCRIPT? || l.PYTHON3?;
    EnumValues[l]
  }

  /** Membership in the enumeration (`z.nativeEnum(Language)`): the member
      whose value is `s`, if any. */
  function FromName(s: string): (r: Option<Language>)
    ensures r.Some? ==> r.value in EnumValues && EnumValues[r.value] == s
    ensures r.None? ==> forall l :: l in EnumValues ==> EnumValues[l] != s
  {
    if s == "C_CPP" then Some(C_CPP)
    else if s == "JAVASCRIPT" then Some(JAVASCRIPT)
    else if s == "PYTHON3" then Some(PYTHON3)
    else None
  }
}
