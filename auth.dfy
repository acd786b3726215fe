/** The registration stepper and the mock sign-in of `pages/Auth.tsx`. Steps: 1 e-mail, 2 password,
    3 birthdate and gender, 4 name, 5 faith. `trialNow` and `idNow` stand for the two
    separate `Date.now()` readings (in milliseconds) of the trial end and of the user id. */
module Auth {
  import opened Types
  import opened JsText

  const TotalSteps: nat := 5
  const DayMs: int := 24 * 60 * 60 * 1000
  const DefaultName: string := "Usuário Sertanejo"

  const EmailAlert: string := "Digite um e-mail válido"
  const PasswordAlert: string := "A senha deve ter no mínimo 6 caracteres"
  const BirthdateAlert: string := "Informe sua data de nascimento"
  const NameAlert: string := "Informe seu nome"

  /** The validation of `handleNextStep`: the alert that stops the step, if any. Only the field the
      current step asks for is checked. */
  function StepAlert(step: int, email: string, password: string, birthdate: string, name: string): (r: Option<string>)
    ensures step == 1 ==> (r.None? <==> Contains(email, "@"))
    ensures step == 2 ==> (r.None? <==> Utf16Length(password) >= 6)
    ensures step == 3 ==> (r.None? <==> birthdate != "")
    ensures step == 4 ==> (r.None? <==> name != "")
    ensures !(1 <= step <= 4) ==> r.None?
    ensures r.Some? ==> r.value in {EmailAlert, PasswordAlert, BirthdateAlert, NameAlert}
  {
    if step == 1 && !Contains(email, "@") then Some(EmailAlert)
    else if step == 2 && Utf16Length(password) < 6 then Some(PasswordAlert)
    else if step == 3 && birthdate == "" then Some(BirthdateAlert)
    else if step == 4 && name == "" then Some(NameAlert)
    else None
  }

  /** Three emoji are six UTF-16 code units, so they pass the password step. */
  lemma ThreeEmojiPasswordPasses(email: string, birthdate: string, name: string)
    ensures StepAlert(2, email, "\U{1F600}\U{1F600}\U{1F600}", birthdate, name).None?
  {
    var p := "\U{1F600}\U{1F600}\U{1F600}";
    assert p[1..][1..][1..] == [];
  }

  /** Step 1 accepts the e-mail exactly when some character of it is `@`. */
  lemma {:induction false} EmailStepAcceptsIffAt(email: string, password: string, birthdate: string, name: string)
    ensures StepAlert(1, email, password, birthdate, name).None? <==> exists i :: 0 <= i < |email| && email[i] == '@'
  {
    ContainsIffOccurs(email, "@");
    if exists i :: OccursAt(email, "@", i) {
      var i :| OccursAt(email, "@", i);
      assert email[i..i + 1][0] == email[i];
    }
    if exists i :: 0 <= i < |email| && email[i] == '@' {
      var i :| 0 <= i < |email| && email[i] == '@';
      assert email[i..i + 1] == "@";
      assert OccursAt(email, "@", i);
    }
  }

  /** The record `handleSubmit` hands to `onSuccess`. */
  function SubmittedUser(isRegister: bool, email: string, name: string, birthdate: string,
                         gender: Gender, faith: Faith, trialNow: int, idNow: int): (u: User)
    ensures u.isPremium == isRegister && u.isTrial == isRegister
    ensures u.trialEndsAt == (if isRegister then Some(trialNow + DayMs) else None)
    ensures u.name == (if name == "" then DefaultName else name)
    ensures u.name != ""
    ensures u.email == email
    ensures u.birthdate == (if isRegister then Some(birthdate) else None)
    ensures u.gender == (if isRegister then Some(gender) else None)
    ensures u.faith == Some(if isRegister then faith else Evangelical)
    ensures u.id == "user-" + IntToString(idNow)
  {
    User(
      id := "user-" + IntToString(idNow),
      name := if name == "" then DefaultName else name,
      email := email,
      isPremium := isRegister,
      isTrial := isRegister,
      trialEndsAt := if isRegister then Some(trialNow + DayMs) else None,
      avatarUrl := "https://ui-avatars.com/api/?name=" + (if name == "" then "User" else name)
                   + "&background=22c55e&color=fff",
      birthdate := if isRegister then Some(birthdate) else None,
      gender := if isRegister then Some(gender) else None,
      faith := Some(if isRegister then faith else Evangelical))
  }

  /** Where `handleNextStep` takes the step: unchanged on an alert or on the final submit, else one on. */
  function NextStepOf(step: int, email: string, password: string, birthdate: string, name: string): (r: int)
    ensures 1 <= step <= TotalSteps ==> 1 <= r <= TotalSteps
    ensures StepAlert(step, email, password, birthdate, name).Some? ==> r == step
    ensures StepAlert(step, email, password, birthdate, name).None? && step < TotalSteps ==> r == step + 1
    ensures step >= TotalSteps ==> r == step
  {
    if StepAlert(step, email, password, birthdate, name).Some? then step
    else if step < TotalSteps then step + 1
    else step
  }

  /** Where `handlePrevStep` takes the step; at step 1 it leaves (`onBack`) instead. */
  function PrevStepOf(step: int): (r: int)
    ensures 1 <= step <= TotalSteps ==> 1 <= r <= TotalSteps
    ensures step > 1 ==> r == step - 1
    ensures step <= 1 ==> r == step
  {
    if step > 1 then step - 1 else step
  }

  /** Next then back returns to the same step whenever the next step was not blocked and not the submit. */
  lemma {:induction false} NextThenPrev(step: int, email: string, password: string, birthdate: string, name: string)
    requires 1 <= step < TotalSteps
    requires StepAlert(step, email, password, birthdate, name).None?
    ensures PrevStepOf(NextStepOf(step, email, password, birthdate, name)) == step
  {
  }

  /** The form state of the `Auth` page. */
  class AuthForm {
    var isRegister: bool
    var step: int
    var email: string
    var password: string
    var name: string
    var birthdate: string
    var gender: Gender
    var faith: Faith

    ghost predicate Valid()
      reads this
    {
      1 <= step <= TotalSteps
    }

    /** The page opens at step 1 with gender `female` and faith `evangelical`. */
    constructor (registering: bool)
      ensures Valid() && step == 1 && isRegister == registering
      ensures email == "" && password == "" && name == "" && birthdate == ""
      ensures gender == Female && faith == Evangelical
    {
      isRegister := registering;
      step := 1;
      email := "";
      password := "";
      name := "";
      birthdate := "";
      gender := Female;
      faith := Evangelical;
    }

    /** The form's `onChange` setters. */
    method SetFields(newEmail: string, newPassword: string, newName: string, newBirthdate: string,
                     newGender: Gender, newFaith: Faith)
      requires Valid()
      modifies this
      ensures Valid() && step == old(step) && isRegister == old(isRegister)
      ensures email == newEmail && password == newPassword && name == newName
      ensures birthdate == newBirthdate && gender == newGender && faith == newFaith
    {
      email, password, name, birthdate := newEmail, newPassword, newName, newBirthdate;
      gender, faith := newGender, newFaith;
    }

    /** The login page's "create account" link. */
    method SwitchToRegister()
      requires Valid()
      modifies this
      ensures Valid() && isRegister && step == old(step)
      ensures email == old(email) && password == old(password) && name == old(name)
      ensures birthdate == old(birthdate) && gender == old(gender) && faith == old(faith)
    {
      isRegister := true;
    }

    /** `handleSubmit`: the user record passed to `onSuccess`. */
    method HandleSubmit(trialNow: int, idNow: int) returns (u: User)
      ensures u == SubmittedUser(isRegister, email, name, birthdate, gender, faith, trialNow, idNow)
    {
      u := SubmittedUser(isRegister, email, name, birthdate, gender, faith, trialNow, idNow);
    }

    /** `handleNextStep`: an alert, a step forward, or (at the last step) the submitted user. */
    method HandleNextStep(trialNow: int, idNow: int) returns (alert: Option<string>, submitted: Option<User>)
      requires Valid()
      modifies this
      ensures Valid()
      ensures alert == StepAlert(old(step), email, password, birthdate, name)
      ensures step == NextStepOf(old(step), email, password, birthdate, name)
      ensures submitted.Some? <==> alert.None? && old(step) == TotalSteps
      ensures submitted.Some? ==> submitted.value == SubmittedUser(isRegister, email, name, birthdate, gender, faith, trialNow, idNow)
      ensures isRegister == old(isRegister) && email == old(email) && password == old(password)
      ensures name == old(name) && birthdate == old(birthdate) && gender == old(gender) && faith == old(faith)
    {
      submitted := None;
      if step == 1 && !Contains(email, "@") {
        alert := Some(EmailAlert);
        return;
      }
      if step == 2 && Utf16Length(password) < 6 {
        alert := Some(PasswordAlert);
        return;
      }
      if step == 3 && birthdate == "" {
        alert := Some(BirthdateAlert);
        return;
      }
      if step == 4 && name == "" {
        alert := Some(NameAlert);
        return;
      }
      alert := None;
      if step < TotalSteps {
        step := step + 1;
      } else {
        var u := HandleSubmit(trialNow, idNow);
        submitted := Some(u);
      }
    }

    /** `handlePrevStep`: `leftPage` is true when it called `onBack` instead of stepping back. */
    method HandlePrevStep() returns (leftPage: bool)
      requires Valid()
      modifies this
      ensures Valid()
      ensures leftPage <==> old(step) == 1
      ensures step == PrevStepOf(old(step))
      ensures isRegister == old(isRegister) && email == old(email) && password == old(password)
      ensures name == old(name) && birthdate == old(birthdate) && gender == old(gender) && faith == old(faith)
    {
      if step > 1 {
        step := step - 1;
        leftPage := false;
      } else {
        leftPage := true;
      }
    }
  }
}
