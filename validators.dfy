/** The sign-up form's validators: `null` for a valid value, else a message. */
module Validators {
  import opened Text

  const InvalidEmail := "Invalid email"
  const ShortPassword := "Password must be at least 6 characters"
  const MinPasswordLength := 6

  /** A run of `\S`: non-empty, without white space. */
  predicate NonSpaceRun(s: string)
  {
    |s| > 0 && forall k :: 0 <= k < |s| ==> !IsSpace(s[k])
  }

  /** The language of `^\S+@\S+$`: two runs of non-space characters around
      an `@` (either run may itself hold `@`). */
  ghost predicate MatchesEmailPattern(s: string)
  {
    exists i :: 0 <= i < |s| && s[i] == '@' && NonSpaceRun(s[..i]) && NonSpaceRun(s[i + 1..])
  }

  /** The same test as a scan: no white space, and an `@` somewhere other
      than at either end. */
  predicate EmailShape(s: string)
  {
    && (forall k :: 0 <= k < |s| ==> !IsSpace(s[k]))
    && exists i :: 0 < i < |s| - 1 && s[i] == '@'
  }

  /** `emailValidator`. */
  function EmailValidator(value: string): (r: Option<string>)
    ensures r.None? || r == Some(InvalidEmail)
  {
    if EmailShape(value) then None else Some(InvalidEmail)
  }

  /** The validator accepts exactly the strings the pattern matches. */
  lemma EmailValidatorMatchesPattern(value: string)
    ensures EmailValidator(value).None? <==> MatchesEmailPattern(value)
  {
    if EmailShape(value) {
      var i :| 0 < i < |value| - 1 && value[i] == '@';
      assert NonSpaceRun(value[..i]) by {
        forall k | 0 <= k < i ensures !IsSpace(value[..i][k]) {
          assert value[..i][k] == value[k];
        }
      }
      assert NonSpaceRun(value[i + 1..]) by {
        var rest := value[i + 1..];
        forall k | 0 <= k < |rest| ensures !IsSpace(rest[k]) {
          assert rest[k] == value[i + 1 + k];
        }
      }
    }
    if MatchesEmailPattern(value) {
      var i :| 0 <= i < |value| && value[i] == '@' && NonSpaceRun(value[..i]) && NonSpaceRun(value[i + 1..]);
      forall k | 0 <= k < |value| ensures !IsSpace(value[k]) {
        if k < i {
          assert value[k] == value[..i][k];
        } else if k > i {
          assert value[k] == value[i + 1..][k - i - 1];
        }
      }
    }
  }

  /** A value holding any white space is rejected. */
  lemma SpaceRejected(value: string, k: int)
    requires 0 <= k < |value| && IsSpace(value[k])
    ensures EmailValidator(value) == Some(InvalidEmail)
  {
  }

  /** `user@host` is accepted for any non-empty, space-free user and host,
      including a host that holds another `@`. */
  lemma UserAtHostAccepted(user: string, host: string)
    requires NonSpaceRun(user) && NonSpaceRun(host)
    ensures EmailValidator(user + "@" + host).None?
  {
    var s := user + "@" + host;
    assert s[|user|] == '@';
    forall k | 0 <= k < |s| ensures !IsSpace(s[k]) {
      if k < |user| {
        assert s[k] == user[k];
      } else if k > |user| {
        assert s[k] == host[k - |user| - 1];
      }
    }
  }

  /** A value with no `@` between its first and last character is rejected. */
  lemma NoInnerAtRejected(value: string)
    requires forall i :: 0 < i < |value| - 1 ==> value[i] != '@'
    ensures EmailValidator(value) == Some(InvalidEmail)
  {
  }

  /** `passwordValidator`. */
  function PasswordValidator(value: string): (r: Option<string>)
    ensures r.None? <==> |value| >= MinPasswordLength
    ensures r.Some? ==> r.value == ShortPassword
  {
    if |value| >= MinPasswordLength then None else Some(ShortPassword)
  }

  /** Appending characters never makes a valid password invalid. */
  lemma PasswordMonotone(value: string, more: string)
    requires PasswordValidator(value).None?
    ensures PasswordValidator(value + more).None?
  {
  }
}
