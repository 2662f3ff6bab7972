/// Password strength rules for sign-up: at least 8 characters, an ASCII
/// upper-case letter and an ASCII digit. Each rule that fails adds its
/// message, in that fixed order.
module Password {
  const LengthError := "Password must be at least 8 characters long"
  const UppercaseError := "Password must contain at least one uppercase letter"
  const DigitError := "Password must contain at least one number"

  /** `/[A-Z]/.test(password)`. */
  predicate HasUppercase(password: string) {
    exists i :: 0 <= i < |password| && 'A' <= password[i] <= 'Z'
  }

  /** `/[0-9]/.test(password)`. */
  predicate HasDigit(password: string) {
    exists i :: 0 <= i < |password| && '0' <= password[i] <= '9'
  }

  /** The position of a message in the fixed order of the rules. */
  function Rank(error: string): nat {
    if error == LengthError then 0 else if error == UppercaseError then 1 else 2
  }

  /** `validatePassword`: one message per failed rule, in rule order, and
      valid exactly when no rule failed. */
  method Validate(password: string) returns (isValid: bool, errors: seq<string>)
    ensures LengthError in errors <==> |password| < 8
    ensures UppercaseError in errors <==> !HasUppercase(password)
    ensures DigitError in errors <==> !HasDigit(password)
    ensures forall k :: 0 <= k < |errors| ==> errors[k] in {LengthError, UppercaseError, DigitError}
    ensures forall k, l :: 0 <= k < l < |errors| ==> Rank(errors[k]) < Rank(errors[l])
    ensures |errors| <= 3
    ensures isValid <==> errors == []
    ensures isValid <==> |password| >= 8 && HasUppercase(password) && HasDigit(password)
  {
    errors := [];
    if |password| < 8 {
      errors := errors + [LengthError];
    }
    if !HasUppercase(password) {
      errors := errors + [UppercaseError];
    }
    if !HasDigit(password) {
      errors := errors + [DigitError];
    }
    isValid := |errors| == 0;
  }

  /** No other character class is required: eight characters with an
      upper-case letter and a digit are enough, whatever the rest is. */
  method StrongEnough(prefix: string, rest: string) returns (isValid: bool)
    requires |prefix| + |rest| >= 6
    ensures isValid
  {
    var errors;
    isValid, errors := Validate(prefix + "A" + rest + "1");
    assert (prefix + "A" + rest + "1")[|prefix|] == 'A';
    assert (prefix + "A" + rest + "1")[|prefix| + 1 + |rest|] == '1';
  }
}
