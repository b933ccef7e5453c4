/**
 * The change-password card: its schema, the strength meter shown under
 * the new password, the show/hide toggles, and what a submission does.
 */
module ChangePasswordForm {

  predicate IsLower(c: char) { 'a' <= c <= 'z' }
  predicate IsUpper(c: char) { 'A' <= c <= 'Z' }
  predicate IsDigit(c: char) { '0' <= c <= '9' }

  predicate HasLower(p: string) { exists i :: 0 <= i < |p| && IsLower(p[i]) }
  predicate HasUpper(p: string) { exists i :: 0 <= i < |p| && IsUpper(p[i]) }
  predicate HasDigit(p: string) { exists i :: 0 <= i < |p| && IsDigit(p[i]) }
  /** A character that is neither an ASCII letter nor a digit. */
  predicate HasOther(p: string) { exists i :: 0 <= i < |p| && !IsLower(p[i]) && !IsUpper(p[i]) && !IsDigit(p[i]) }

  function Point(b: bool): nat { if b then 1 else 0 }

  /** The number of strength criteria a password meets. */
  function Score(p: string): (n: nat)
    ensures n <= 5
  {
    Point(|p| >= 8) + Point(HasLower(p)) + Point(HasUpper(p)) + Point(HasDigit(p)) + Point(HasOther(p))
  }

  datatype Strength = Strength(percent: int, caption: string, color: string)

  const Labels: seq<string> := ["Very Weak", "Weak", "Fair", "Good", "Strong", "Very Strong"]
  const Colors: seq<string> := ["bg-red-500", "bg-red-400", "bg-yellow-400", "bg-yellow-500", "bg-green-400", "bg-green-500"]

  /** The meter for a password: empty for the empty password, else the score's entry. */
  function StrengthOf(p: string): (s: Strength)
    ensures p == "" ==> s == Strength(0, "", "")
    ensures p != "" ==> s.percent == Score(p) * 20 && s.caption == Labels[Score(p)] && s.color == Colors[Score(p)]
  {
    if p == "" then Strength(0, "", "")
    else Strength(Score(p) * 20, Labels[Score(p)], Colors[Score(p)])
  }

  /** The meter as the component computes it: one increment per criterion met. */
  method GetPasswordStrength(password: string) returns (s: Strength)
    ensures s == StrengthOf(password)
  {
    if password == "" {
      return Strength(0, "", "");
    }
    var strength := 0;
    if |password| >= 8 { strength := strength + 1; }
    if HasLower(password) { strength := strength + 1; }
    if HasUpper(password) { strength := strength + 1; }
    if HasDigit(password) { strength := strength + 1; }
    if HasOther(password) { strength := strength + 1; }
    s := Strength(strength * 20, Labels[strength], Colors[strength]);
  }

  /** Every character meets one of the character criteria, so "Very Weak" is never shown. */
  lemma {:induction false} NonEmptyScoresAtLeastOne(p: string)
    requires p != ""
    ensures Score(p) >= 1
    ensures StrengthOf(p).caption != "Very Weak"
  {
    var c := p[0];
    if IsLower(c) { assert HasLower(p); }
    else if IsUpper(c) { assert HasUpper(p); }
    else if IsDigit(c) { assert HasDigit(p); }
    else { assert HasOther(p); }
  }

  /** Typing one more character never lowers the score. */
  lemma {:induction false} AppendNeverLowersScore(p: string, c: char)
    ensures Score(p + [c]) >= Score(p)
  {
    var q := p + [c];
    if HasLower(p) { var i :| 0 <= i < |p| && IsLower(p[i]); assert q[i] == p[i]; }
    if HasUpper(p) { var i :| 0 <= i < |p| && IsUpper(p[i]); assert q[i] == p[i]; }
    if HasDigit(p) { var i :| 0 <= i < |p| && IsDigit(p[i]); assert q[i] == p[i]; }
    if HasOther(p) { var i :| 0 <= i < |p| && !IsLower(p[i]) && !IsUpper(p[i]) && !IsDigit(p[i]); assert q[i] == p[i]; }
  }

  /** The schema: current password given, new password of eight or more characters with a lower-case letter, an upper-case letter and a digit, confirmation given and equal. */
  predicate ChangePasswordValid(current: string, newPassword: string, confirm: string)
    ensures ChangePasswordValid(current, newPassword, confirm) ==>
      |confirm| >= 8 && HasLower(confirm) && HasUpper(confirm) && HasDigit(confirm)
    ensures newPassword != confirm ==> !ChangePasswordValid(current, newPassword, confirm)
    ensures current == "" ==> !ChangePasswordValid(current, newPassword, confirm)
  {
    |current| >= 1 && |newPassword| >= 8 && HasLower(newPassword) && HasUpper(newPassword)
    && HasDigit(newPassword) && |confirm| >= 1 && newPassword == confirm
  }

  /** A new password the schema accepts always shows as "Strong" or "Very Strong". */
  lemma AcceptedPasswordIsStrong(current: string, newPassword: string, confirm: string)
    requires ChangePasswordValid(current, newPassword, confirm)
    ensures Score(newPassword) >= 4
    ensures StrengthOf(newPassword).caption in {"Strong", "Very Strong"}
  {
  }

  datatype Notice = PasswordChanged | ChangeFailed

  datatype Field = Current | New | Confirm

  class Form {
    var currentPassword: string
    var newPassword: string
    var confirmPassword: string
    var showCurrent: bool
    var showNew: bool
    var showConfirm: bool
    var isSubmitting: bool
    var notices: seq<Notice>

    constructor()
      ensures currentPassword == "" && newPassword == "" && confirmPassword == ""
      ensures !showCurrent && !showNew && !showConfirm && !isSubmitting && notices == []
    {
      currentPassword := "";
      newPassword := "";
      confirmPassword := "";
      showCurrent := false;
      showNew := false;
      showConfirm := false;
      isSubmitting := false;
      notices := [];
    }

    /** Flips the visibility of one input and leaves the other two alone. */
    method ToggleVisibility(f: Field)
      modifies this
      ensures showCurrent == (if f == Current then !old(showCurrent) else old(showCurrent))
      ensures showNew == (if f == New then !old(showNew) else old(showNew))
      ensures showConfirm == (if f == Confirm then !old(showConfirm) else old(showConfirm))
      ensures currentPassword == old(currentPassword) && newPassword == old(newPassword)
      ensures confirmPassword == old(confirmPassword) && notices == old(notices)
      ensures isSubmitting == old(isSubmitting)
    {
      match f
      case Current => showCurrent := !showCurrent;
      case New => showNew := !showNew;
      case Confirm => showConfirm := !showConfirm;
    }

    /**
     * A submission: ignored unless the schema accepts the inputs; the
     * inputs are cleared only when the server accepts the change.
     */
    method Submit(accepted: bool)
      modifies this
      ensures !isSubmitting
      ensures showCurrent == old(showCurrent) && showNew == old(showNew) && showConfirm == old(showConfirm)
      ensures !ChangePasswordValid(old(currentPassword), old(newPassword), old(confirmPassword)) ==>
        notices == old(notices) && currentPassword == old(currentPassword)
        && newPassword == old(newPassword) && confirmPassword == old(confirmPassword)
      ensures ChangePasswordValid(old(currentPassword), old(newPassword), old(confirmPassword)) && accepted ==>
        notices == old(notices) + [PasswordChanged]
        && currentPassword == "" && newPassword == "" && confirmPassword == ""
      ensures ChangePasswordValid(old(currentPassword), old(newPassword), old(confirmPassword)) && !accepted ==>
        notices == old(notices) + [ChangeFailed]
        && currentPassword == old(currentPassword) && newPassword == old(newPassword)
        && confirmPassword == old(confirmPassword)
    {
      if !ChangePasswordValid(currentPassword, newPassword, confirmPassword) {
        isSubmitting := false;
        return;
      }
      isSubmitting := true;
      if accepted {
        notices := notices + [PasswordChanged];
        currentPassword := "";
        newPassword := "";
        confirmPassword := "";
      } else {
        notices := notices + [ChangeFailed];
      }
      isSubmitting := false;
    }

    /** The meter shown under the new-password input. */
    function Meter(): (s: Strength)
      reads this
      ensures 0 <= s.percent <= 100 && s.percent % 20 == 0
      ensures newPassword == "" <==> s.caption == ""
      ensures s.caption != "Very Weak"
    {
      if newPassword != "" then NonEmptyScoresAtLeastOne(newPassword); StrengthOf(newPassword)
      else StrengthOf(newPassword)
    }
  }
}
