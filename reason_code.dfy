/** The reason codes an error is raised with, and their display strings. */
module ReasonCodes {

  /** A numeric enumeration: any integer may be passed where a code is expected. */
  type ReasonCode = int

  /** The enumeration's only member, numbered 0 as the first member of the enum. */
  const INVALID_PARAMETERS: ReasonCode := 0

  /** True of the values the enumeration declares. */
  predicate IsDeclared(code: ReasonCode) {
    code == INVALID_PARAMETERS
  }

  /** The text shown on the second line of an error screen for `code`: one of
      exactly two strings, the specific one precisely for the declared member,
      and "Unknown" for every other value. */
  function ToString(code: ReasonCode): (r: string)
    ensures r == "Invalid Parameters" || r == "Unknown"
    ensures r == "Invalid Parameters" <==> IsDeclared(code)
    ensures r == "Unknown" <==> code != INVALID_PARAMETERS
  {
    if code == INVALID_PARAMETERS then "Invalid Parameters" else "Unknown"
  }

  /** Two codes are shown the same way exactly when both or neither are the
      declared member. */
  lemma SameTextIffSameClass(a: ReasonCode, b: ReasonCode)
    ensures ToString(a) == ToString(b) <==> (IsDeclared(a) <==> IsDeclared(b))
  {
    assert "Invalid Parameters" != "Unknown";
  }
}
