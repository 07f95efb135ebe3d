/** The staff card of `src/components/staff/staff-card.tsx`: the avatar initials and
    gradient, and the specialization badges with their overflow badge. */
module StaffCard {
  import opened Wrappers
  import Text
  import BackendUsers

  /** `s[0]` inside a template literal: the first character, or the text `undefined`
      when the string is empty. */
  function FirstCharText(s: string): (t: string)
    ensures s != [] ==> t == [s[0]]
    ensures s == [] ==> t == "undefined"
  {
    if s != [] then [s[0]] else "undefined"
  }

  /** `initials`. */
  function Initials(firstName: string, lastName: string): (initials: string)
    ensures firstName != [] && lastName != [] ==> initials == [firstName[0], lastName[0]]
  {
    FirstCharText(firstName) + FirstCharText(lastName)
  }

  /** The initials are two characters exactly when both names are non-empty. */
  lemma InitialsTwoChars(firstName: string, lastName: string)
    ensures |Initials(firstName, lastName)| == 2 <==> firstName != [] && lastName != []
  {
  }

  /** A backend user whose nickname is a single word has no last name, so the avatar
      shows the first letter followed by the text `undefined`. */
  lemma {:induction false} SingleWordNicknameInitials(nick: string)
    requires nick != [] && ' ' !in nick
    ensures var (first, last) := BackendUsers.SplitName(nick);
            Initials(first, last) == [nick[0]] + "undefined"
  {
    Text.SplitNoSep(nick, ' ');
  }

  /** `avatarGradients`. */
  const AvatarGradients: map<string, string> := map[
    "trainer" := "from-violet-500 to-purple-500",
    "nutritionist" := "from-emerald-500 to-teal-500",
    "physiotherapist" := "from-blue-500 to-cyan-500",
    "receptionist" := "from-amber-500 to-orange-500",
    "manager" := "from-rose-500 to-pink-500"]

  /** `avatarGradients[role] || avatarGradients.trainer`. */
  function Gradient(role: string): (g: string)
    ensures role in AvatarGradients ==> g == AvatarGradients[role]
    ensures role !in AvatarGradients ==> g == AvatarGradients["trainer"]
  {
    if role in AvatarGradients && AvatarGradients[role] != "" then AvatarGradients[role] else AvatarGradients["trainer"]
  }

  /** Every declared role has its own gradient; an owner, whom the declared roles lack,
      gets the trainer's. */
  lemma GradientsOfRoles()
    ensures forall r :: r in ["trainer", "receptionist", "manager", "nutritionist", "physiotherapist"] ==> Gradient(r) == AvatarGradients[r]
    ensures Gradient("owner") == Gradient("trainer")
  {
  }

  /** How many specialization badges are shown. */
  const ShownSpecializations: nat := 3

  /** `specializations.slice(0, 3)`. */
  function Badges(specializations: seq<string>): (shown: seq<string>)
    ensures |shown| == if |specializations| < ShownSpecializations then |specializations| else ShownSpecializations
    ensures shown <= specializations
  {
    if |specializations| <= ShownSpecializations then specializations else specializations[..ShownSpecializations]
  }

  /** `+n more`, shown only when some specializations do not fit. */
  function MoreBadge(specializations: seq<string>): (badge: Option<string>)
    ensures badge.Some? <==> |specializations| > ShownSpecializations
  {
    if |specializations| > ShownSpecializations then
      Some("+" + Text.NatToString(|specializations| - ShownSpecializations) + " more")
    else None
  }

  /** The shown badges plus the number on the overflow badge account for every
      specialization, and the number reads back from the badge text. */
  lemma {:induction false} BadgesAccountForAll(specializations: seq<string>)
    ensures var more := MoreBadge(specializations);
            more.None? ==> Badges(specializations) == specializations
    ensures var more := MoreBadge(specializations);
            more.Some? ==>
              var n := |specializations| - |Badges(specializations)|;
              |more.value| > 6 && Text.ParseInt(more.value[1..|more.value| - 5]) == Text.Int(n)
              && specializations == Badges(specializations) + specializations[ShownSpecializations..]
  {
    var more := MoreBadge(specializations);
    if more.Some? {
      var n := |specializations| - ShownSpecializations;
      var digits := Text.NatToString(n);
      assert more.value[1..|more.value| - 5] == digits;
      Text.ParseIntOfIntToString(n);
    }
  }
}
