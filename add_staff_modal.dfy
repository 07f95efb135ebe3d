/** The three-step add-member wizard of `src/components/staff/add-staff-modal.tsx`: the
    step counter, the specialization and permission toggles, when Next and Submit are
    enabled, the schema, and the input a submit passes on. */
module AddStaffModal {
  import opened Wrappers
  import opened Json
  import Seqs = Lists
  import StaffApi

  const FirstStep: int := 1
  const LastStep: int := 3

  /** The roles the role select offers. */
  const FormRoles: seq<string> := ["trainer", "receptionist", "manager", "nutritionist", "physiotherapist"]

  /** Back: `Math.max(1, s - 1)`. */
  function BackStep(step: int): (s: int)
    ensures s >= FirstStep
    ensures step > FirstStep ==> s == step - 1
    ensures step <= FirstStep ==> s == FirstStep
  {
    if step - 1 > FirstStep then step - 1 else FirstStep
  }

  /** Next: `Math.min(3, s + 1)`. */
  function NextStep(step: int): (s: int)
    ensures s <= LastStep
    ensures step < LastStep ==> s == step + 1
    ensures step >= LastStep ==> s == LastStep
  {
    if step + 1 < LastStep then step + 1 else LastStep
  }

  /** Back undoes Next before the last step, and Next undoes Back after the first. */
  lemma StepsInverse(step: int)
    requires FirstStep <= step <= LastStep
    ensures step < LastStep ==> BackStep(NextStep(step)) == step
    ensures step > FirstStep ==> NextStep(BackStep(step)) == step
    ensures FirstStep <= BackStep(step) <= LastStep && FirstStep <= NextStep(step) <= LastStep
  {
  }

  /** The first step's inputs as the form holds them, and the fields the form currently
      reports errors for. */
  datatype BasicInfo = BasicInfo(firstName: string, lastName: string, email: string, errors: set<string>)

  /** `canProceed()`. Errors are only reported once the form has been validated, so on
      the first step the fields only need to be non-empty. */
  function CanProceed(step: int, info: BasicInfo, specializations: seq<string>): (ok: bool)
    ensures step == 1 ==> (ok <==> info.firstName != "" && info.lastName != "" && info.email != ""
                                   && "firstName" !in info.errors && "lastName" !in info.errors && "email" !in info.errors)
    ensures step == 2 ==> (ok <==> |specializations| > 0)
    ensures step != 1 && step != 2 ==> ok
  {
    if step == 1 then
      "firstName" !in info.errors && "lastName" !in info.errors && "email" !in info.errors
      && info.firstName != "" && info.lastName != "" && info.email != ""
    else if step == 2 then |specializations| > 0
    else true
  }

  /** The submitted values: `email` stands for the email check of the schema. */
  datatype StaffForm = StaffForm(
    firstName: string,
    lastName: string,
    email: string,
    phone: Option<string>,
    role: string,
    specializations: seq<string>,
    permissions: seq<string>)

  /** `staffFormSchema`. */
  predicate SchemaAccepts(form: StaffForm, emailAccepted: bool) {
    |form.firstName| >= 2 && |form.lastName| >= 2 && emailAccepted && form.role in FormRoles
    && |form.specializations| >= 1 && |form.permissions| >= 1
  }

  /** Before the form has been validated a one-letter name lets the wizard move on, but
      the schema refuses the form at submit. */
  lemma OneLetterNameProceedsButFails(form: StaffForm, emailAccepted: bool)
    requires |form.firstName| == 1 && form.lastName != "" && form.email != ""
    ensures CanProceed(1, BasicInfo(form.firstName, form.lastName, form.email, {}), form.specializations)
    ensures !SchemaAccepts(form, emailAccepted)
  {
  }

  /** The submit button: disabled while the create is pending or with no permissions. */
  function SubmitEnabled(pending: bool, permissions: seq<string>): (enabled: bool)
    ensures enabled <==> !pending && |permissions| >= 1
  {
    !(pending || |permissions| == 0)
  }

  /** What the submit passes to the create mutation: the form values, with no password
      and no bio. */
  function Submitted(form: StaffForm): (input: StaffApi.CreateStaffInput)
    ensures input.firstName == form.firstName && input.lastName == form.lastName && input.email == form.email
    ensures input.phone == form.phone && input.role == form.role
    ensures input.specializations == form.specializations && input.permissions == form.permissions
    ensures input.password.None? && input.bio.None?
  {
    StaffApi.CreateStaffInput(form.firstName, form.lastName, form.email, form.phone, form.role,
                              form.specializations, form.permissions, None, None)
  }

  /** Every member added through the wizard gets the default password and an empty bio,
      and reads back as a manager only when the manager role was chosen; the chosen
      specializations and permissions are not sent. */
  lemma {:induction false} WizardCreatePayload(form: StaffForm)
    ensures var body := StaffApi.CreatePayload(Submitted(form));
            body.fields["password"] == JStr(StaffApi.DefaultPassword)
            && body.fields["bio"] == JStr("")
            && StaffApi.MapRole(body.fields["role"].s) == (if form.role == "manager" then "manager" else "trainer")
            && "specializations" !in body.fields && "permissions" !in body.fields
  {
    var body := StaffApi.CreatePayload(Submitted(form));
    assert body.fields.Keys == {"email", "password", "role", "nickname", "bio", "profile_image"};
    StaffApi.CreatedRoleReadsBack(Submitted(form));
  }

  /** The wizard's own state: the step shown and the two selections. */
  class StaffWizard {
    var step: int
    var specializations: seq<string>
    var permissions: seq<string>

    ghost predicate Valid()
      reads this
    {
      FirstStep <= step <= LastStep
    }

    /** The wizard opens on the first step with nothing selected. */
    constructor()
      ensures Valid() && step == FirstStep && specializations == [] && permissions == []
    {
      step := FirstStep;
      specializations := [];
      permissions := [];
    }

    method Back()
      requires Valid()
      modifies this
      ensures Valid() && step == BackStep(old(step))
      ensures specializations == old(specializations) && permissions == old(permissions)
    {
      step := if step - 1 > FirstStep then step - 1 else FirstStep;
    }

    method Next()
      requires Valid()
      modifies this
      ensures Valid() && step == NextStep(old(step))
      ensures specializations == old(specializations) && permissions == old(permissions)
    {
      step := if step + 1 < LastStep then step + 1 else LastStep;
    }

    /** `toggleSpecialization`. */
    method ToggleSpecialization(spec: string)
      modifies this
      ensures specializations == Seqs.Toggle(old(specializations), spec)
      ensures step == old(step) && permissions == old(permissions)
    {
      if spec in specializations {
        specializations := Seqs.Filter(specializations, Seqs.Without(spec));
      } else {
        specializations := specializations + [spec];
      }
    }

    /** `togglePermission`. */
    method TogglePermission(perm: string)
      modifies this
      ensures permissions == Seqs.Toggle(old(permissions), perm)
      ensures step == old(step) && specializations == old(specializations)
    {
      if perm in permissions {
        permissions := Seqs.Filter(permissions, Seqs.Without(perm));
      } else {
        permissions := permissions + [perm];
      }
    }

    /** Whether Next is enabled now. */
    method CanGoOn(info: BasicInfo) returns (ok: bool)
      ensures ok == CanProceed(step, info, specializations)
    {
      if step == 1 {
        ok := "firstName" !in info.errors && "lastName" !in info.errors && "email" !in info.errors
              && info.firstName != "" && info.lastName != "" && info.email != "";
      } else if step == 2 {
        ok := |specializations| > 0;
      } else {
        ok := true;
      }
    }

    /** After a successful submit, and after closing, the form is reset to its defaults
        and the wizard returns to the first step. */
    method Reset()
      modifies this
      ensures Valid() && step == FirstStep && specializations == [] && permissions == []
    {
      step := FirstStep;
      specializations := [];
      permissions := [];
    }
  }
}
