/** The string schemas of the two forms, written as the chains of tests they
    are declared as, with one evaluator for all of them. */
module Schema {

  /** One test of a string field. The email test's format check belongs to
      the validation library and is passed in as `isEmail`. */
  datatype Test = Min(n: nat) | Max(n: nat) | Required | Email

  /** Whether `s` passes test `t`. The email test lets the empty string
      through and leaves it to `Required`. */
  predicate Passes(t: Test, s: string, isEmail: string -> bool)
  {
    match t
    case Min(n) => |s| >= n
    case Max(n) => |s| <= n
    case Required => s != ""
    case Email => s == "" || isEmail(s)
  }

  /** A field is valid when it passes every test of its chain. */
  predicate PassesAll(tests: seq<Test>, s: string, isEmail: string -> bool)
  {
    if tests == [] then true
    else Passes(tests[0], s, isEmail) && PassesAll(tests[1..], s, isEmail)
  }

  /** First and last name: at least 2, at most 50 characters, required. */
  const NameField: seq<Test> := [Min(2), Max(50), Required]

  /** Email: well formed and required. */
  const EmailField: seq<Test> := [Email, Required]

  /** Either id of the follow form: required. */
  const IdField: seq<Test> := [Required]

  /** A chain passes exactly when each of its tests does. */
  lemma {:induction false} PassesAllEach(tests: seq<Test>, s: string, isEmail: string -> bool)
    ensures PassesAll(tests, s, isEmail)
        <==> forall i :: 0 <= i < |tests| ==> Passes(tests[i], s, isEmail)
    decreases |tests|
  {
    if tests != [] {
      PassesAllEach(tests[1..], s, isEmail);
      assert forall i :: 1 <= i < |tests| ==> tests[i] == tests[1..][i - 1];
    }
  }

  /** A name is valid exactly when its length lies in 2..50. */
  lemma NameFieldValid(s: string, isEmail: string -> bool)
    ensures PassesAll(NameField, s, isEmail) <==> 2 <= |s| <= 50
  {
    PassesAllEach(NameField, s, isEmail);
    if 2 <= |s| <= 50 {
      assert Passes(NameField[0], s, isEmail);
      assert Passes(NameField[1], s, isEmail);
      assert Passes(NameField[2], s, isEmail);
    } else if |s| < 2 {
      assert !Passes(NameField[0], s, isEmail);
    } else {
      assert !Passes(NameField[1], s, isEmail);
    }
  }

  /** An email is valid exactly when it is non-empty and well formed. */
  lemma EmailFieldValid(s: string, isEmail: string -> bool)
    ensures PassesAll(EmailField, s, isEmail) <==> s != "" && isEmail(s)
  {
    PassesAllEach(EmailField, s, isEmail);
    if s != "" && isEmail(s) {
      assert Passes(EmailField[0], s, isEmail);
      assert Passes(EmailField[1], s, isEmail);
    } else if s == "" {
      assert !Passes(EmailField[1], s, isEmail);
    } else {
      assert !Passes(EmailField[0], s, isEmail);
    }
  }

  /** An id is valid exactly when it is non-empty. */
  lemma IdFieldValid(s: string, isEmail: string -> bool)
    ensures PassesAll(IdField, s, isEmail) <==> s != ""
  {
    PassesAllEach(IdField, s, isEmail);
    if s == "" {
      assert !Passes(IdField[0], s, isEmail);
    }
  }
}
