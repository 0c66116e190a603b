/**
 * The password rule checker: a size rule and a character-class rule, each of
 * which records a field error on the "password" field when it fails.
 */
module PasswordValidator {
  import opened Model

  /** One recorded field error: field name, error code and default message. */
  datatype FieldError = FieldError(field: string, code: string, defaultMessage: string)

  const PASSWORD_FIELD: string := "password"

  const SIZE_ERROR: FieldError :=
    FieldError(PASSWORD_FIELD, "password.size", "Password should be minimum 6 characters and maximum 15 characters")

  const PATTERN_ERROR: FieldError :=
    FieldError(PASSWORD_FIELD, "password.pattern",
               "Password should contain uppercase, lowercase, numbers and special characters")

  predicate IsLower(c: char) { 'a' <= c <= 'z' }
  predicate IsUpper(c: char) { 'A' <= c <= 'Z' }
  /** `\d` of a Java pattern without UNICODE_CHARACTER_CLASS: ASCII digits only. */
  predicate IsDigit(c: char) { '0' <= c <= '9' }
  /** The special class `[@$!%*?&]`. */
  predicate IsSpecial(c: char) { c == '@' || c == '$' || c == '!' || c == '%' || c == '*' || c == '?' || c == '&' }
  /** The final character class `[A-Za-z\d@$!%*?&]`. */
  predicate IsAllowed(c: char) { IsLower(c) || IsUpper(c) || IsDigit(c) || IsSpecial(c) }

  /** The size rule fails: fewer than 6 or more than 15 characters. */
  predicate SizeRejected(password: string) {
    |password| < 6 || |password| > 15
  }

  /**
   * The pattern as a reference predicate: at least 8 characters, all from the
   * allowed class, and at least one lowercase letter, uppercase letter, digit
   * and special character.
   */
  ghost predicate PatternHolds(p: string) {
    && |p| >= 8
    && (forall i | 0 <= i < |p| :: IsAllowed(p[i]))
    && (exists i | 0 <= i < |p| :: IsLower(p[i]))
    && (exists i | 0 <= i < |p| :: IsUpper(p[i]))
    && (exists i | 0 <= i < |p| :: IsDigit(p[i]))
    && (exists i | 0 <= i < |p| :: IsSpecial(p[i]))
  }

  /** What one pass over a string learns: which classes occur, and whether every character is allowed. */
  datatype Classes = Classes(lower: bool, upper: bool, digit: bool, special: bool, allAllowed: bool)

  function Scan(p: string): Classes {
    if p == [] then Classes(false, false, false, false, true)
    else
      var rest := Scan(p[1..]);
      var c := p[0];
      Classes(IsLower(c) || rest.lower, IsUpper(c) || rest.upper, IsDigit(c) || rest.digit,
              IsSpecial(c) || rest.special, IsAllowed(c) && rest.allAllowed)
  }

  /**
   * `password.matches("^(?=.*[a-z])(?=.*[A-Z])(?=.*\\d)(?=.*[@$!%*?&])[A-Za-z\\d@$!%*?&]{8,}$")`:
   * the four lookaheads each need one character of their class, and the anchored
   * run needs at least 8 characters, all of the allowed class.
   */
  predicate MatchesPattern(p: string) {
    var c := Scan(p);
    |p| >= 8 && c.allAllowed && c.lower && c.upper && c.digit && c.special
  }

  /** The errors `validate` records for `password`, in order: size first, then pattern. */
  function PasswordErrors(password: string): seq<FieldError> {
    (if SizeRejected(password) then [SIZE_ERROR] else [])
    + (if !MatchesPattern(password) then [PATTERN_ERROR] else [])
  }

  /** `getFieldError(field)`: the first recorded error on `field`, if any. */
  function FirstFieldError(errors: seq<FieldError>, field: string): (r: Option<FieldError>)
    ensures r.None? <==> forall i | 0 <= i < |errors| :: errors[i].field != field
    ensures r.Some? ==> exists k | 0 <= k < |errors| :: errors[k] == r.value && r.value.field == field
                                                        && forall i | 0 <= i < k :: errors[i].field != field
  {
    if errors == [] then None
    else if errors[0].field == field then Some(errors[0])
    else
      var r := FirstFieldError(errors[1..], field);
      assert forall i | 1 <= i < |errors| :: errors[i] == errors[1..][i - 1];
      if r.Some? then
        var k :| 0 <= k < |errors[1..]| && errors[1..][k] == r.value && forall i | 0 <= i < k :: errors[1..][i].field != field;
        assert errors[k + 1] == r.value && forall i | 0 <= i < k + 1 :: errors[i].field != field;
        r
      else r
  }

  // ---------------------------------------------------------------------------
  // The scan against the reference predicate

  /** Each flag of the scan says exactly what its quantified counterpart says. */
  lemma {:induction false} ScanMeaning(p: string)
    ensures Scan(p).lower <==> exists i | 0 <= i < |p| :: IsLower(p[i])
    ensures Scan(p).upper <==> exists i | 0 <= i < |p| :: IsUpper(p[i])
    ensures Scan(p).digit <==> exists i | 0 <= i < |p| :: IsDigit(p[i])
    ensures Scan(p).special <==> exists i | 0 <= i < |p| :: IsSpecial(p[i])
    ensures Scan(p).allAllowed <==> forall i | 0 <= i < |p| :: IsAllowed(p[i])
    decreases |p|
  {
    if p != [] {
      ScanMeaning(p[1..]);
      assert forall i | 1 <= i < |p| :: p[i] == p[1..][i - 1];
      assert forall i | 0 <= i < |p| - 1 :: p[1..][i] == p[i + 1];
    }
  }

  /** The pattern matches exactly the strings the reference predicate describes. */
  lemma MatchesPatternIff(p: string)
    ensures MatchesPattern(p) <==> PatternHolds(p)
  {
    ScanMeaning(p);
  }

  // ---------------------------------------------------------------------------
  // Properties of the recorded errors

  /**
   * A size error is recorded iff the length is below 6 or above 15; a pattern
   * error iff the pattern fails; nothing else is ever recorded.
   */
  lemma PasswordErrorsIff(p: string)
    ensures SIZE_ERROR in PasswordErrors(p) <==> |p| < 6 || |p| > 15
    ensures PATTERN_ERROR in PasswordErrors(p) <==> !PatternHolds(p)
    ensures forall e | e in PasswordErrors(p) :: e == SIZE_ERROR || e == PATTERN_ERROR
    ensures |PasswordErrors(p)| <= 2
  {
    MatchesPatternIff(p);
    assert SIZE_ERROR.code != PATTERN_ERROR.code;
  }

  /** When both rules fail, both errors are recorded, the size error first. */
  lemma SizeErrorFirst(p: string)
    requires SizeRejected(p)
    ensures PasswordErrors(p)[0] == SIZE_ERROR
    ensures FirstFieldError(PasswordErrors(p), PASSWORD_FIELD) == Some(SIZE_ERROR)
    ensures !MatchesPattern(p) ==> PasswordErrors(p) == [SIZE_ERROR, PATTERN_ERROR]
  {
  }

  /** A password that passes both rules has 8 to 15 characters. */
  lemma AcceptedLength(p: string)
    requires PasswordErrors(p) == []
    ensures 8 <= |p| <= 15
  {
    assert !SizeRejected(p) && MatchesPattern(p);
  }

  /** Lengths 6 and 7 pass the size rule but always fail the pattern. */
  lemma ShortPasswordsFailPattern(p: string)
    requires 6 <= |p| <= 7
    ensures PasswordErrors(p) == [PATTERN_ERROR]
  {
  }

  /** The classes seen in two strings together. */
  function Join(a: Classes, b: Classes): Classes {
    Classes(a.lower || b.lower, a.upper || b.upper, a.digit || b.digit, a.special || b.special,
            a.allAllowed && b.allAllowed)
  }

  /** The scan of a concatenation joins the scans of the parts. */
  lemma {:induction false} ScanOfConcat(a: string, b: string)
    ensures Scan(a + b) == Join(Scan(a), Scan(b))
    decreases |a|
  {
    if a == [] {
      assert a + b == b;
    } else {
      assert (a + b)[1..] == a[1..] + b;
      ScanOfConcat(a[1..], b);
    }
  }

  /** The classes a single character belongs to. */
  function CharClasses(c: char): Classes {
    Classes(IsLower(c), IsUpper(c), IsDigit(c), IsSpecial(c), IsAllowed(c))
  }

  /** The scan of a four-character block, one character at a time. */
  lemma ScanOfBlock(w: string)
    requires |w| == 4
    ensures Scan(w) == Join(CharClasses(w[0]), Join(CharClasses(w[1]), Join(CharClasses(w[2]), CharClasses(w[3]))))
  {
    assert Scan(w[3..]) == CharClasses(w[3]) by { assert w[3..][1..] == []; }
    assert Scan(w[2..]) == Join(CharClasses(w[2]), Scan(w[3..])) by { assert w[2..][1..] == w[3..]; }
    assert Scan(w[1..]) == Join(CharClasses(w[1]), Scan(w[2..])) by { assert w[1..][1..] == w[2..]; }
  }

  /** Repeating a block does not change what the scan sees. */
  lemma ScanOfRepeat(w: string)
    ensures Scan(w + w + w) == Scan(w)
    ensures Scan(w + w + w + w) == Scan(w)
  {
    ScanOfConcat(w, w);
    ScanOfConcat(w + w, w);
    ScanOfConcat(w + w + w, w);
  }

  /** "aA@1G" (5 characters) gets both errors, the size error first. */
  lemma ShortExample()
    ensures PasswordErrors("aA@1G") == [SIZE_ERROR, PATTERN_ERROR]
  {
  }

  // The examples below take the password as a parameter equal to the literal: a call of `Scan` on a
  // literal argument would make the verifier unfold it character by character, which is far costlier.

  /** "aA@1aA@1aA@1aA@1" (16 characters) gets only the size error. */
  lemma LongExample(p: string)
    requires p == "aA@1aA@1aA@1aA@1"
    ensures PasswordErrors(p) == [SIZE_ERROR]
  {
    var w := "aA@1";
    assert p == w + w + w + w;
    assert Scan(p) == Classes(true, true, true, true, true) by {
      ScanOfBlock(w);
      ScanOfRepeat(w);
    }
  }

  /** "AA@1AA@1AA@1" has no lowercase letter and gets only the pattern error. */
  lemma NoLowerExample(p: string)
    requires p == "AA@1AA@1AA@1"
    ensures PasswordErrors(p) == [PATTERN_ERROR]
  {
    var w := "AA@1";
    assert p == w + w + w;
    assert Scan(p) == Classes(false, true, true, true, true) by {
      ScanOfBlock(w);
      ScanOfRepeat(w);
    }
  }

  /** "aa@1aa@1aa@1" has no uppercase letter and gets only the pattern error. */
  lemma NoUpperExample(p: string)
    requires p == "aa@1aa@1aa@1"
    ensures PasswordErrors(p) == [PATTERN_ERROR]
  {
    var w := "aa@1";
    assert p == w + w + w;
    assert Scan(p) == Classes(true, false, true, true, true) by {
      ScanOfBlock(w);
      ScanOfRepeat(w);
    }
  }

  /** "Aa@!Aa@!Aa@!" has no digit and gets only the pattern error. */
  lemma NoDigitExample(p: string)
    requires p == "Aa@!Aa@!Aa@!"
    ensures PasswordErrors(p) == [PATTERN_ERROR]
  {
    var w := "Aa@!";
    assert p == w + w + w;
    assert Scan(p) == Classes(true, true, false, true, true) by {
      ScanOfBlock(w);
      ScanOfRepeat(w);
    }
  }

  /** "Aa21Aa21Aa21" has no special character and gets only the pattern error. */
  lemma NoSpecialExample(p: string)
    requires p == "Aa21Aa21Aa21"
    ensures PasswordErrors(p) == [PATTERN_ERROR]
  {
    var w := "Aa21";
    assert p == w + w + w;
    assert Scan(p) == Classes(true, true, true, false, true) by {
      ScanOfBlock(w);
      ScanOfRepeat(w);
    }
  }

  /** "Aa@1Aa@1Aa@1" passes both rules. */
  lemma AcceptedExample(p: string)
    requires p == "Aa@1Aa@1Aa@1"
    ensures PasswordErrors(p) == []
  {
    var w := "Aa@1";
    assert p == w + w + w;
    assert Scan(p) == Classes(true, true, true, true, true) by {
      ScanOfBlock(w);
      ScanOfRepeat(w);
    }
  }

  /** The `Errors` object of one binding: the field errors recorded so far, in order. */
  class Errors {
    var fieldErrors: seq<FieldError>

    constructor ()
      ensures fieldErrors == []
    {
      fieldErrors := [];
    }

    /** `rejectValue`: record one more field error after those already recorded. */
    method RejectValue(field: string, code: string, defaultMessage: string)
      modifies this
      ensures fieldErrors == old(fieldErrors) + [FieldError(field, code, defaultMessage)]
    {
      fieldErrors := fieldErrors + [FieldError(field, code, defaultMessage)];
    }

    function HasErrors(): (r: bool)
      reads this
      ensures r <==> fieldErrors != []
    {
      |fieldErrors| > 0
    }
  }

  /**
   * `validate`: apply the size rule, then the pattern rule, recording one error
   * for each that fails; errors already recorded are kept.
   */
  method Validate(password: string, errors: Errors)
    modifies errors
    ensures errors.fieldErrors == old(errors.fieldErrors) + PasswordErrors(password)
  {
    if |password| < 6 || |password| > 15 {
      errors.RejectValue(SIZE_ERROR.field, SIZE_ERROR.code, SIZE_ERROR.defaultMessage);
    }
    if !MatchesPattern(password) {
      errors.RejectValue(PATTERN_ERROR.field, PATTERN_ERROR.code, PATTERN_ERROR.defaultMessage);
    }
  }
}
