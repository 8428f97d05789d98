/** The sign-up form: the password and its confirmation must match and be
    at least six characters long before the sign-up call is made; the
    `loading` flag is raised only around that call. */
module Signup {
  import opened Types
  import opened Text

  /** The shortest password the form accepts. */
  const MinPasswordLength: nat := 6

  /** The translation key of the error a password pair is refused with,
      or None when the pair may be sent. The mismatch is checked first. */
  function Validate(password: string, confirm: string): (err: Option<string>)
    ensures err.None? <==> password == confirm && |password| >= MinPasswordLength
    ensures password != confirm ==> err == Some("toast.passwordsNoMatch")
    ensures password == confirm && |password| < MinPasswordLength ==> err == Some("toast.passwordTooShort")
  {
    if password != confirm then Some("toast.passwordsNoMatch")
    else if |password| < MinPasswordLength then Some("toast.passwordTooShort")
    else None
  }

  /** The length bound is inclusive: a matching six-character password passes. */
  lemma SixCharactersPass(password: string)
    requires |password| == 6
    ensures Validate(password, password).None?
  {
  }

  /** What the sign-up call does: it throws, returns an error with a
      message, or creates the account. */
  datatype SignupOutcome = Thrown | Rejected(message: string) | Created

  /** The message of a thrown sign-up call: the `toast.failed` template with
      its first `{action}` replaced by "signup". */
  function FailedMessage(t: string -> string): (m: string)
    ensures IndexOfFrom(t("toast.failed"), "{action}", 0) == -1 ==> m == t("toast.failed")
    ensures var tpl := t("toast.failed"); var i := IndexOfFrom(tpl, "{action}", 0);
      i != -1 ==> |m| == |tpl| + 6 - 8 && m[..i] == tpl[..i] && m[i..i + 6] == "signup" && m[i + 6..] == tpl[i + 8..]
  {
    ReplaceFirst(t("toast.failed"), "{action}", "signup")
  }

  /** A template whose first `{action}` has no brace before it has that
      placeholder filled with "signup" and nothing else changed, as with
      "Failed to {action}. Please try again." and
      "{action} başarısız oldu. Lütfen tekrar deneyin.". */
  lemma {:induction false} FailedMessageFills(t: string -> string, prefix: string, suffix: string)
    requires t("toast.failed") == prefix + "{action}" + suffix
    requires '{' !in prefix
    ensures FailedMessage(t) == prefix + "signup" + suffix
  {
    var tpl := t("toast.failed");
    var n := |prefix|;
    assert OccursAt(tpl, "{action}", n) by {
      assert tpl[n..n + 8] == "{action}";
    }
    forall j | 0 <= j < n ensures !OccursAt(tpl, "{action}", j) {
      assert tpl[j] == prefix[j];
      assert prefix[j] in prefix;
      assert tpl[j..j + 8][0] == tpl[j];
    }
    assert IndexOfFrom(tpl, "{action}", 0) == n;
    assert tpl[..n] == prefix;
    assert tpl[n + 8..] == suffix;
  }

  /** The toast a submission shows, given the outcome the call would have. */
  function SignupToast(t: string -> string, password: string, confirm: string, outcome: SignupOutcome): Toast {
    match Validate(password, confirm)
    case Some(key) => ErrorToast(t(key))
    case None =>
      match outcome
      case Thrown => ErrorToast(FailedMessage(t))
      case Rejected(message) => ErrorToast(message)
      case Created => SuccessToast(t("toast.accountCreated"))
  }

  /** The toast is a success exactly when the pair is valid and the account
      was created; a refused pair never reaches the sign-up call's outcome. */
  lemma SignupToastCases(t: string -> string, password: string, confirm: string, outcome: SignupOutcome)
    ensures SignupToast(t, password, confirm, outcome).SuccessToast? <==>
      Validate(password, confirm).None? && outcome == Created
    ensures Validate(password, confirm).Some? ==>
      forall o :: SignupToast(t, password, confirm, o) == ErrorToast(t(Validate(password, confirm).value))
  {
  }

  /** The form's component state. `loadingTrace` records every value the
      `loading` flag is set to, in order. */
  class SignupPage {
    var password: string
    var confirmPassword: string
    var loading: bool
    ghost var loadingTrace: seq<bool>

    constructor ()
      ensures password == "" && confirmPassword == "" && !loading && loadingTrace == []
    {
      password := "";
      confirmPassword := "";
      loading := false;
      loadingTrace := [];
    }

    method SetLoading(value: bool)
      modifies this
      ensures loading == value && loadingTrace == old(loadingTrace) + [value]
      ensures password == old(password) && confirmPassword == old(confirmPassword)
    {
      loading := value;
      loadingTrace := loadingTrace + [value];
    }

    /** Submitting the form. `outcome` is what the sign-up call would do;
        `called` tells whether it was made and `toLogin` whether the page
        moves on to the login page. */
    method HandleSignup(t: string -> string, outcome: SignupOutcome)
      returns (toast: Toast, called: bool, toLogin: bool)
      modifies this
      ensures toast == SignupToast(t, password, confirmPassword, outcome)
      ensures called <==> Validate(password, confirmPassword).None?
      ensures toLogin <==> called && outcome == Created
      ensures password == old(password) && confirmPassword == old(confirmPassword)
      ensures !called ==> loading == old(loading) && loadingTrace == old(loadingTrace)
      ensures called ==> !loading && loadingTrace == old(loadingTrace) + [true, false]
    {
      if password != confirmPassword {
        return ErrorToast(t("toast.passwordsNoMatch")), false, false;
      }
      if |password| < MinPasswordLength {
        return ErrorToast(t("toast.passwordTooShort")), false, false;
      }
      SetLoading(true);
      called := true;
      match outcome {
        case Thrown =>
          toast := ErrorToast(ReplaceFirst(t("toast.failed"), "{action}", "signup"));
          toLogin := false;
        case Rejected(message) =>
          toast := ErrorToast(message);
          toLogin := false;
        case Created =>
          toast := SuccessToast(t("toast.accountCreated"));
          toLogin := true;
      }
      SetLoading(false);
    }
  }
}
