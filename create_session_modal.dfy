/** The new-session form of `src/components/schedule/create-session-modal.tsx`: the
    default start and end times, which staff can be picked as trainer, the schema, and
    the session input a submit passes on. */
module CreateSessionModal {
  import opened Wrappers
  import opened Json
  import opened Domain
  import Text
  import Seqs = Lists
  import StaffApi
  import BackendUsers
  import ScheduleApi

  /** `getDefaultTime(hour)`: the hour, or the current hour when none is given, padded
      to two digits and followed by `:00`. */
  function DefaultTime(hour: Option<nat>, currentHour: nat): (time: string)
    ensures |time| >= 5 && time[|time| - 3..] == ":00"
  {
    Text.PadStart(Text.IntToString(hour.GetOr(currentHour)), 2, '0') + ":00"
  }

  /** A zero-padded single digit reads back as the digit. */
  lemma PaddedDigitReadsBack(d: nat)
    requires d < 10
    ensures Text.ParseInt(['0', Text.DigitChar(d)]) == Text.Int(d)
  {
    var u := ['0', Text.DigitChar(d)];
    assert !Text.IsSpace(u[0]);
    assert Text.LeadingSpaces(u) == 0;
    assert u[0..] == u;
    assert Text.LeadingDigits(u[1..], 10) == 1 + Text.LeadingDigits(u[2..], 10);
    assert Text.LeadingDigits(u, 10) == 2;
    assert !(u[1] == 'x' || u[1] == 'X');
    assert u[..2] == u && u[..1] == ['0'] && ['0'][..0] == [];
    assert Text.DigitValue('0', 10) == 0 && Text.DigitValue(u[1], 10) == d;
    assert Text.DigitsValue(['0'], 10) == 0;
    assert Text.DigitsValue(u, 10) == d;
  }

  /** Below 100 the clock text is exactly five characters, `HH:00`, and its first two
      characters read back as the hour. */
  lemma {:induction false} DefaultTimeReadsBack(hour: Option<nat>, currentHour: nat)
    requires hour.GetOr(currentHour) < 100
    ensures |DefaultTime(hour, currentHour)| == 5
    ensures Text.ParseInt(DefaultTime(hour, currentHour)[..2]) == Text.Int(hour.GetOr(currentHour))
  {
    var h := hour.GetOr(currentHour);
    var time := DefaultTime(hour, currentHour);
    if h >= 10 {
      assert Text.NatToString(h) == Text.NatToString(h / 10) + [Text.DigitChar(h % 10)];
      assert Text.NatToString(h / 10) == [Text.DigitChar(h / 10)];
      assert time[..2] == Text.IntToString(h);
      Text.ParseIntOfIntToString(h);
    } else {
      assert Text.IntToString(h) == [Text.DigitChar(h)];
      assert time[..2] == ['0', Text.DigitChar(h)];
      PaddedDigitReadsBack(h);
    }
  }

  /** The hour the end time is built from: `initialHour ? initialHour + 1 : undefined`.
      A slot at midnight counts as no slot. */
  function EndHour(initialHour: Option<nat>): (h: Option<nat>)
    ensures initialHour.Some? && initialHour.value != 0 ==> h == Some(initialHour.value + 1)
    ensures initialHour.None? || initialHour == Some(0) ==> h.None?
  {
    if initialHour.Some? && initialHour.value != 0 then Some(initialHour.value + 1) else None
  }

  /** The form's default start and end times. */
  function DefaultTimes(initialHour: Option<nat>, currentHour: nat): (times: (string, string)) {
    (DefaultTime(initialHour, currentHour), DefaultTime(EndHour(initialHour), currentHour))
  }

  /** Opened from a slot, the session defaults to one hour starting at the slot's hour;
      opened from the midnight slot, it starts at midnight but ends at the current hour.
      The form reads these defaults on its first render only, so `initialHour` is the
      hour the modal was first mounted with. */
  lemma {:induction false} DefaultSlotIsOneHour(initialHour: nat, currentHour: nat)
    requires initialHour + 1 < 100 && currentHour < 100
    ensures Text.ParseInt(DefaultTimes(Some(initialHour), currentHour).0[..2]) == Text.Int(initialHour)
    ensures Text.ParseInt(DefaultTimes(Some(initialHour), currentHour).1[..2])
            == Text.Int(if initialHour == 0 then currentHour else initialHour + 1)
  {
    DefaultTimeReadsBack(Some(initialHour), currentHour);
    var end := EndHour(Some(initialHour));
    assert end.GetOr(currentHour) == if initialHour == 0 then currentHour else initialHour + 1;
    DefaultTimeReadsBack(end, currentHour);
  }

  /** The trainer select offers the staff whose role is `trainer` and who are active. */
  predicate Selectable(m: StaffApi.ApiStaffMember) {
    m.role == "trainer" && m.status == "active"
  }

  /** `staff?.filter(...) || []`. */
  function Trainers(staff: Option<seq<StaffApi.ApiStaffMember>>): seq<StaffApi.ApiStaffMember> {
    if staff.Some? then Seqs.Filter(staff.value, (m: StaffApi.ApiStaffMember) => Selectable(m)) else []
  }

  /** The choices are exactly the active trainers, in staff-list order, and none before
      the staff list has loaded. */
  lemma TrainersSpec(staff: Option<seq<StaffApi.ApiStaffMember>>)
    ensures staff.None? ==> Trainers(staff) == []
    ensures staff.Some? ==> Seqs.IsSubsequence(Trainers(staff), staff.value)
    ensures staff.Some? ==> forall m :: m in Trainers(staff) <==> m in staff.value && Selectable(m)
  {
    if staff.Some? {
      Seqs.FilterSpec(staff.value, (m: StaffApi.ApiStaffMember) => Selectable(m));
    }
  }

  /** A backend manager or owner can never be chosen as a session's trainer. */
  lemma ManagersNotSelectable(u: BackendUsers.BackendUser)
    requires u.role == "gym_manager" || u.role == "gym_owner"
    ensures !Selectable(StaffApi.MapBackendUserToStaff(u))
  {
  }

  /** The form values; the type comes from a select offering only the four types. */
  datatype SessionForm = SessionForm(
    title: string,
    sessionType: SessionType,
    trainerId: string,
    date: string,
    startTime: string,
    endTime: string,
    capacity: string,
    location: string)

  /** `sessionSchema`. */
  predicate SchemaAccepts(form: SessionForm) {
    |form.title| >= 2 && |form.trainerId| >= 1 && |form.date| >= 1 && |form.startTime| >= 1
    && |form.endTime| >= 1 && |form.location| >= 1
    && Text.ParseInt(form.capacity).Int? && Text.ParseInt(form.capacity).value >= 1
  }

  /** What `onSubmit` passes to the create mutation, for a form the schema accepted;
      `iso` stands for `new Date(text).toISOString()` on a local date-time text. */
  function Submitted(form: SessionForm, iso: string -> string): (input: CreateSessionInput)
    requires SchemaAccepts(form)
    ensures input.title == form.title && input.sessionType == form.sessionType
    ensures input.trainerId == form.trainerId && input.location == form.location
    ensures input.startTime == iso(form.date + "T" + form.startTime + ":00")
    ensures input.endTime == iso(form.date + "T" + form.endTime + ":00")
    ensures Text.ParseInt(form.capacity) == Text.Int(input.capacity) && input.capacity >= 1
  {
    CreateSessionInput(form.title, form.sessionType, form.trainerId,
                       iso(form.date + "T" + form.startTime + ":00"), iso(form.date + "T" + form.endTime + ":00"),
                       Text.ParseInt(form.capacity).value, form.location)
  }

  /** A submitted session, stored and read back, has the capacity typed into the form
      and the chosen type, but its location is derived from the type and not the one
      typed into the form. */
  lemma {:induction false} SubmittedReadsBack(form: SessionForm, iso: string -> string, id: string)
    requires SchemaAccepts(form)
    ensures var input := Submitted(form, iso);
            var s := ScheduleApi.MapBackendSessionToSession(ScheduleApi.Echo(id, ScheduleApi.CreatePayload(input), false));
            Text.ParseInt(form.capacity) == Text.Int(s.capacity) && s.capacity >= 1
            && s.sessionType == form.sessionType && s.title == form.title && s.trainerId == form.trainerId
            && s.location == (if form.sessionType == PersonalTraining then "Online" else "Studio")
  {
    ScheduleApi.CreateReadsBack(Submitted(form, iso), id);
  }
}
