/** The registration form's schema and its initial values. */
module Register {
  import opened Outcomes
  import Js

  const MinName: nat := 2
  const MinPassword: nat := 8

  /** The form as submitted; `role` is the radio group's value. */
  datatype RegisterForm = RegisterForm(
    firstName: string,
    lastName: string,
    email: string,
    password: string,
    confirmPassword: string,
    role: string,
    agreeToTerms: bool)

  datatype RegisterField = FirstName | LastName | Email | Password | ConfirmPassword | RoleChoice | AgreeToTerms

  /** The roles a visitor may register with. */
  predicate IsRegistrableRole(role: string) {
    role == "USER" || role == "CREATOR"
  }

  /** `registerSchema`: names of at least two characters, a valid email,
      a password of at least eight, a role of USER or CREATOR, and the
      terms accepted; lengths are UTF-16 code units. The confirmation check
      is an object-level refinement, which zod skips when a field aborts the
      parse: an unknown role aborts it, so a mismatch is reported on the
      confirmation only when the role is acceptable. The other field checks
      only mark the parse dirty and do not suppress it. */
  function Errors(form: RegisterForm, isEmail: string -> bool): (errs: set<RegisterField>)
    ensures FirstName in errs <==> Js.Utf16Length(form.firstName) < MinName
    ensures LastName in errs <==> Js.Utf16Length(form.lastName) < MinName
    ensures Email in errs <==> !isEmail(form.email)
    ensures Password in errs <==> Js.Utf16Length(form.password) < MinPassword
    ensures ConfirmPassword in errs <==> IsRegistrableRole(form.role) && form.password != form.confirmPassword
    ensures RoleChoice in errs <==> !IsRegistrableRole(form.role)
    ensures AgreeToTerms in errs <==> !form.agreeToTerms
  {
    var fields :=
      (if Js.Utf16Length(form.firstName) < MinName then {FirstName} else {})
      + (if Js.Utf16Length(form.lastName) < MinName then {LastName} else {})
      + (if !isEmail(form.email) then {Email} else {})
      + (if Js.Utf16Length(form.password) < MinPassword then {Password} else {})
      + (if !form.agreeToTerms then {AgreeToTerms} else {});
    if !IsRegistrableRole(form.role) then fields + {RoleChoice}
    else fields + (if form.password != form.confirmPassword then {ConfirmPassword} else {})
  }

  /** The form's initial values: role USER, terms not accepted. */
  const Initial := RegisterForm("", "", "", "", "", "USER", false)

  /** The untouched form never validates: at least the terms box fails,
      while the default role is already acceptable. */
  lemma InitialNeverValidates(isEmail: string -> bool)
    ensures AgreeToTerms in Errors(Initial, isEmail)
    ensures RoleChoice !in Errors(Initial, isEmail)
    ensures Errors(Initial, isEmail) != {}
  {
  }

  /** A form validates exactly when the registration call gets what it
      needs: accepted terms, an allowed role, a confirmed password of at
      least eight code units, names of at least two, and a valid email. */
  lemma ValidFormGuarantees(form: RegisterForm, isEmail: string -> bool)
    ensures Errors(form, isEmail) == {} <==>
      && form.agreeToTerms && IsRegistrableRole(form.role)
      && form.confirmPassword == form.password && Js.Utf16Length(form.password) >= MinPassword
      && Js.Utf16Length(form.firstName) >= MinName && Js.Utf16Length(form.lastName) >= MinName
      && isEmail(form.email)
  {
    if Errors(form, isEmail) == {} {
      assert AgreeToTerms !in Errors(form, isEmail) && RoleChoice !in Errors(form, isEmail);
      assert ConfirmPassword !in Errors(form, isEmail) && Password !in Errors(form, isEmail);
      assert FirstName !in Errors(form, isEmail) && LastName !in Errors(form, isEmail);
      assert Email !in Errors(form, isEmail);
    }
  }

  /** A single character beyond U+FFFF is two code units, so it satisfies
      the two-character minimum on a name, while a single ordinary
      character does not. */
  lemma AstralNameIsLongEnough(isEmail: string -> bool)
    ensures var f := Initial.(firstName := "\U{1F600}");
            FirstName !in Errors(f, isEmail)
    ensures var f := Initial.(firstName := "A");
            FirstName in Errors(f, isEmail)
  {
  }

  /** An unknown role hides a password mismatch: the same mismatched form
      reports only the role, and choosing USER brings the confirmation
      error back. */
  lemma UnknownRoleHidesMismatch(form: RegisterForm, isEmail: string -> bool)
    requires form.password != form.confirmPassword && !IsRegistrableRole(form.role)
    ensures ConfirmPassword !in Errors(form, isEmail) && RoleChoice in Errors(form, isEmail)
    ensures ConfirmPassword in Errors(form.(role := "USER"), isEmail)
  {
  }
}
