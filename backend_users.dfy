/** The backend user record that both `src/lib/api/staff-api.ts` and
    `src/lib/api/clients-api.ts` receive, and the nickname split they share: the first
    space-separated part is the first name, the remaining parts joined back with single
    spaces are the last name. */
module BackendUsers {
  import opened Wrappers
  import Text

  /** The backend profile; every property may be absent from a response. */
  datatype BackendProfile = BackendProfile(
    nickname: Option<string>,
    bio: Option<string>,
    profileImage: Option<string>,
    phoneNumber: Option<string>,
    specializations: Option<seq<string>>,
    staffStatus: Option<string>)

  /** A user as `/users/profiles/` returns it. */
  datatype BackendUser = BackendUser(
    id: string,
    email: string,
    role: string,
    profile: Option<BackendProfile>,
    dateJoined: string)

  /** `user.profile?.nickname || ''`. */
  function Nickname(u: BackendUser): (nick: string)
    ensures u.profile.None? || u.profile.value.nickname.None? ==> nick == ""
    ensures u.profile.Some? && u.profile.value.nickname.Some? ==> nick == u.profile.value.nickname.value
  {
    if u.profile.Some? && u.profile.value.nickname.Some? then u.profile.value.nickname.value else ""
  }

  /** `[parts[0] || '', parts.slice(1).join(' ') || '']` with `parts = nick.split(' ')`. */
  function SplitName(nick: string): (name: (string, string))
    ensures ' ' !in name.0
    ensures |name.0| + |name.1| <= |nick|
  {
    var parts := Text.Split(nick, ' ');
    Text.JoinSplit(nick, ' ');
    if |parts| == 1 then (parts[0], "")
    else
      Text.JoinCons(parts[0], parts[1..], ' ');
      assert [parts[0]] + parts[1..] == parts;
      (parts[0], Text.Join(parts[1..], ' '))
  }

  /** A nickname with a space is exactly "first last" again. */
  lemma {:induction false} NameReassembles(nick: string)
    requires ' ' in nick
    ensures var (first, last) := SplitName(nick); first + " " + last == nick
  {
    var parts := Text.Split(nick, ' ');
    Text.SplitWithSep(nick, ' ');
    Text.JoinSplit(nick, ' ');
    Text.JoinCons(parts[0], parts[1..], ' ');
    assert [parts[0]] + parts[1..] == parts;
  }

  /** A nickname without a space is all first name. */
  lemma {:induction false} SingleWordName(nick: string)
    requires ' ' !in nick
    ensures SplitName(nick) == (nick, "")
  {
    Text.SplitNoSep(nick, ' ');
  }

  /** A missing profile or nickname gives two empty names. */
  lemma MissingNickname(u: BackendUser)
    requires u.profile.None? || u.profile.value.nickname.None?
    ensures SplitName(Nickname(u)) == ("", "")
  {
    SingleWordName("");
  }

  /** `` `${first} ${last}`.trim() ``, the nickname a create or update sends. */
  function JoinedNickname(first: string, last: string): (nick: string)
    ensures Text.IsTrimmed(nick)
  {
    Text.Trim(first + " " + last)
  }

  /** A name made of a single non-blank word and a trimmed last name survives the trip
      through the backend: sending `first last` and splitting the stored nickname gives
      back both parts. */
  lemma {:induction false} NicknameRoundTrip(first: string, last: string)
    requires first != [] && forall i :: 0 <= i < |first| ==> !Text.IsSpace(first[i])
    requires Text.IsTrimmed(last)
    ensures SplitName(JoinedNickname(first, last)) == (first, last)
  {
    assert ' ' !in first by {
      forall i | 0 <= i < |first| ensures first[i] != ' ' {
        assert !Text.IsSpace(first[i]);
      }
    }
    if last == "" {
      assert first + " " + last == "" + first + " ";
      Text.TrimAround("", first, " ");
      SingleWordName(first);
    } else {
      var whole := first + " " + last;
      assert whole[0] == first[0] && whole[|whole| - 1] == last[|last| - 1];
      assert "" + whole + "" == whole;
      Text.TrimAround("", whole, "");
      assert whole == first + [' '] + last;
      Text.SplitConcat(first, last, ' ');
      Text.JoinSplit(last, ' ');
      var parts := Text.Split(whole, ' ');
      assert parts == [first] + Text.Split(last, ' ');
      assert parts[1..] == Text.Split(last, ' ');
    }
  }
}
