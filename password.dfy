/** The password policy of packages/shared/auth/password.ts: five rules,
    each checked independently, whose violation messages are all collected
    in rule order. */
module Password {
  import opened Common

  const MinLength: nat := 12

  const TooShort := "Password must be at least 12 characters long."
  const NoUppercase := "Password must include at least one uppercase letter."
  const NoLowercase := "Password must include at least one lowercase letter."
  const NoNumber := "Password must include at least one number."
  const NoSpecial := "Password must include at least one special character."

  /** The five messages in the order the policy checks its rules. */
  const AllMessages := [TooShort, NoUppercase, NoLowercase, NoNumber, NoSpecial]

  predicate IsUpper(c: char) { 'A' <= c <= 'Z' }
  predicate IsLower(c: char) { 'a' <= c <= 'z' }
  predicate IsDigit(c: char) { '0' <= c <= '9' }
  /** A character the class `[^A-Za-z0-9]` matches. */
  predicate IsSpecial(c: char) { !IsUpper(c) && !IsLower(c) && !IsDigit(c) }

  predicate HasUpper(p: string) { exists i :: 0 <= i < |p| && IsUpper(p[i]) }
  predicate HasLower(p: string) { exists i :: 0 <= i < |p| && IsLower(p[i]) }
  predicate HasDigit(p: string) { exists i :: 0 <= i < |p| && IsDigit(p[i]) }
  predicate HasSpecial(p: string) { exists i :: 0 <= i < |p| && IsSpecial(p[i]) }

  /** The UTF-16 code units of one character: two for a character above
      U+FFFF (a surrogate pair), one otherwise. */
  function CodeUnits(c: char): (r: nat)
    ensures 1 <= r <= 2
  {
    if c as int >= 0x1_0000 then 2 else 1
  }

  /** A string's `length` in JavaScript, which counts UTF-16 code units. */
  function Utf16Length(p: string): (r: nat)
    ensures r >= |p|
    ensures r <= 2 * |p|
  {
    if p == [] then 0 else CodeUnits(p[0]) + Utf16Length(p[1..])
  }

  /** Code units add up over a concatenation. */
  lemma {:induction false} Utf16LengthAppend(a: string, b: string)
    ensures Utf16Length(a + b) == Utf16Length(a) + Utf16Length(b)
    decreases |a|
  {
    if a == [] {
      assert a + b == b;
    } else {
      assert (a + b)[0] == a[0] && (a + b)[1..] == a[1..] + b;
      Utf16LengthAppend(a[1..], b);
    }
  }

  /** Taking one character out of a string takes its code units off the
      length. */
  lemma RemoveAtLength(q: string, i: nat)
    requires i < |q|
    ensures Utf16Length(q) == CodeUnits(q[i]) + Utf16Length(q[..i] + q[i + 1..])
  {
    var c, l, r := q[i], q[..i], q[i + 1..];
    assert q == l + ([c] + r);
    Utf16LengthAppend(l, [c] + r);
    Utf16LengthAppend(l, r);
    assert ([c] + r)[0] == c && ([c] + r)[1..] == r;
  }

  /** Matching the first character of `p` with an equal one of `q` leaves
      two remainders that are still permutations of each other. */
  lemma RemoveMatched(p: string, q: string, i: nat)
    requires multiset(p) == multiset(q) && p != [] && i < |q| && q[i] == p[0]
    ensures multiset(p[1..]) == multiset(q[..i] + q[i + 1..])
  {
    var a, b := multiset(p[1..]), multiset(q[..i] + q[i + 1..]);
    assert p == [p[0]] + p[1..];
    assert q == q[..i] + [q[i]] + q[i + 1..];
    assert multiset(q[..i] + q[i + 1..]) == multiset(q[..i]) + multiset(q[i + 1..]);
    assert multiset(p) == a + multiset{p[0]};
    assert multiset(q) == b + multiset{p[0]};
    forall x ensures a[x] == b[x] {
      assert (a + multiset{p[0]})[x] == (b + multiset{p[0]})[x];
    }
  }

  /** The code-unit length depends only on which characters occur and how
      often, not on their order. */
  lemma {:induction false} Utf16LengthOfPermutation(p: string, q: string)
    requires multiset(p) == multiset(q)
    ensures Utf16Length(p) == Utf16Length(q)
    decreases |p|
  {
    if p == [] {
      assert |q| == |multiset(q)| == 0;
    } else {
      assert p[0] in multiset(q);
      var i :| 0 <= i < |q| && q[i] == p[0];
      RemoveAtLength(q, i);
      RemoveMatched(p, q, i);
      Utf16LengthOfPermutation(p[1..], q[..i] + q[i + 1..]);
    }
  }

  /** The policy itself: all five rules hold. `.min(12)` measures the
      JavaScript length, in UTF-16 code units. */
  predicate Compliant(p: string) {
    Utf16Length(p) >= MinLength && HasUpper(p) && HasLower(p) && HasDigit(p) && HasSpecial(p)
  }

  /** The schema's issues: one message per violated rule, none skipped, in
      rule order. */
  function Issues(p: string): seq<string> {
    (if Utf16Length(p) < MinLength then [TooShort] else [])
    + (if !HasUpper(p) then [NoUppercase] else [])
    + (if !HasLower(p) then [NoLowercase] else [])
    + (if !HasDigit(p) then [NoNumber] else [])
    + (if !HasSpecial(p) then [NoSpecial] else [])
  }

  datatype PasswordValidationResult = PasswordValidationResult(success: bool, errors: seq<string>)

  /** `validatePasswordStrength`: success exactly when every rule holds, and
      then with no errors; otherwise the collected issues. */
  function ValidatePasswordStrength(p: string): (r: PasswordValidationResult)
    ensures r.success <==> Compliant(p)
    ensures r.success <==> r.errors == []
    ensures r.errors == Issues(p)
  {
    var errors := Issues(p);
    if errors == [] then PasswordValidationResult(true, []) else PasswordValidationResult(false, errors)
  }

  datatype Outcome = Pass | Fail(message: string)

  /** `assertPasswordStrength`: returns normally exactly for a compliant
      password, and otherwise fails with the messages joined by one space. */
  function AssertPasswordStrength(p: string): (r: Outcome)
    ensures r.Pass? <==> Compliant(p)
    ensures r.Fail? ==> r.message == Join(ValidatePasswordStrength(p).errors, " ")
    ensures r.Fail? ==> StartsWith(r.message, ValidatePasswordStrength(p).errors[0])
  {
    var check := ValidatePasswordStrength(p);
    if check.success then Pass
    else
      var errors := check.errors;
      assert |errors| > 1 ==> StartsWith(errors[0] + " ", errors[0]);
      Fail(Join(errors, " "))
  }

  /** The five messages are pairwise different, so each names one rule. */
  lemma MessagesDistinct()
    ensures forall i, j :: 0 <= i < j < |AllMessages| ==> AllMessages[i] != AllMessages[j]
  {
    assert |TooShort| == 45 && |NoUppercase| == 52 && |NoLowercase| == 52;
    assert |NoNumber| == 42 && |NoSpecial| == 53;
    assert NoUppercase[35] != NoLowercase[35];
  }

  /** A password shorter than twelve UTF-16 code units is always reported
      as too short, whatever it is made of, and a longer one never is. */
  lemma TooShortReportedIffShort(p: string)
    ensures TooShort in ValidatePasswordStrength(p).errors <==> Utf16Length(p) < MinLength
  {
    MessagesDistinct();
  }

  /** A character-class message appears exactly when that class is missing,
      independently of the other rules. */
  lemma ClassMessagesIffMissing(p: string)
    ensures NoUppercase in ValidatePasswordStrength(p).errors <==> !HasUpper(p)
    ensures NoLowercase in ValidatePasswordStrength(p).errors <==> !HasLower(p)
    ensures NoNumber in ValidatePasswordStrength(p).errors <==> !HasDigit(p)
    ensures NoSpecial in ValidatePasswordStrength(p).errors <==> !HasSpecial(p)
  {
    MessagesDistinct();
  }

  /** Position of a message in the rule order (5 for any other text). */
  function Rank(m: string): nat {
    if m == TooShort then 0
    else if m == NoUppercase then 1
    else if m == NoLowercase then 2
    else if m == NoNumber then 3
    else if m == NoSpecial then 4
    else 5
  }

  /** The errors are rule messages, never repeated, in rule order: the
      rules are not short-circuited and nothing is reordered. */
  lemma {:induction false} ErrorsInRuleOrder(p: string)
    ensures var e := ValidatePasswordStrength(p).errors;
      forall i, j :: 0 <= i < j < |e| ==> Rank(e[i]) < Rank(e[j]) < 5
  {
    MessagesDistinct();
    assert Rank(TooShort) == 0 && Rank(NoUppercase) == 1 && Rank(NoLowercase) == 2;
    assert Rank(NoNumber) == 3 && Rank(NoSpecial) == 4;
  }

  /** "short" (five lower-case letters) breaks every rule except the
      lower-case one, and the four messages come in rule order. */
  lemma ShortPasswordExample()
    ensures ValidatePasswordStrength("short") ==
      PasswordValidationResult(false, [TooShort, NoUppercase, NoNumber, NoSpecial])
  {
    var p := "short";
    forall i | 0 <= i < |p| ensures IsLower(p[i]) {
      if i == 0 {} else if i == 1 {} else if i == 2 {} else if i == 3 {} else {}
    }
    assert IsLower(p[0]);
  }

  /** "StrongPass!234" meets all five rules and is accepted without errors. */
  lemma StrongPasswordExample()
    ensures ValidatePasswordStrength("StrongPass!234") == PasswordValidationResult(true, [])
  {
    var p := "StrongPass!234";
    AcceptedWithOneOfEach(p, 0, 2, 11, 10);
  }

  /** Twelve characters with one of each class always pass: a character
      is never fewer than one code unit. */
  lemma AcceptedWithOneOfEach(p: string, upper: nat, lower: nat, digit: nat, special: nat)
    requires |p| >= MinLength
    requires upper < |p| && IsUpper(p[upper]) && lower < |p| && IsLower(p[lower])
    requires digit < |p| && IsDigit(p[digit]) && special < |p| && IsSpecial(p[special])
    ensures ValidatePasswordStrength(p) == PasswordValidationResult(true, [])
  {
  }

  /** Five emoji and "Aa1!" are nine characters but fourteen code units, so
      the length rule holds. */
  lemma AstralCharactersCountTwice()
    ensures var p := ['\U{1F600}', '\U{1F600}', '\U{1F600}', '\U{1F600}', '\U{1F600}', 'A', 'a', '1', '!'];
      |p| == 9 && Utf16Length(p) == 14 && ValidatePasswordStrength(p).success
  {
    var p := ['\U{1F600}', '\U{1F600}', '\U{1F600}', '\U{1F600}', '\U{1F600}', 'A', 'a', '1', '!'];
    assert Utf16Length(p[8..]) == 1 by { assert p[8..][1..] == []; }
    assert Utf16Length(p[7..]) == 2 by { assert p[7..][1..] == p[8..]; }
    assert Utf16Length(p[6..]) == 3 by { assert p[6..][1..] == p[7..]; }
    assert Utf16Length(p[5..]) == 4 by { assert p[5..][1..] == p[6..]; }
    assert Utf16Length(p[4..]) == 6 by { assert p[4..][1..] == p[5..]; }
    assert Utf16Length(p[3..]) == 8 by { assert p[3..][1..] == p[4..]; }
    assert Utf16Length(p[2..]) == 10 by { assert p[2..][1..] == p[3..]; }
    assert Utf16Length(p[1..]) == 12 by { assert p[1..][1..] == p[2..]; }
    assert IsUpper(p[5]) && IsLower(p[6]) && IsDigit(p[7]) && IsSpecial(p[8]);
  }
}
