/** The user helpers of src/utils/user.ts: the display-name priority, the
    initials shown in an avatar without a picture, and the avatar colour
    picked by a 32-bit string hash of the user id. */
module UserUtil {
  import opened Common

  /** The profile row fields getDisplayName looks at. */
  datatype Profile = Profile(displayName: Option<string>, email: Option<string>)

  /** `s.charAt(0).toUpperCase() + s.slice(1)`. */
  function Capitalize(s: string): (r: string)
    ensures |r| == |s|
    ensures s != [] ==> r[0] == UpperChar(s[0]) && r[1..] == s[1..]
  {
    Upper(CharAt0(s)) + (if s == [] then [] else s[1..])
  }

  /** getDisplayName: profile display name, then the auth metadata full name,
      then the capitalised text before the first '@' of the email, and
      'Anonymous' when there is no user or none of these is set. */
  function DisplayName(user: Option<AuthUser>, profile: Option<Profile>): (r: string)
    ensures user.None? ==> r == "Anonymous"
    ensures r == "" ==> user.Some? && Truthy(user.value.email) && user.value.email.value[0] == '@'
  {
    if user.None? then "Anonymous"
    else if profile.Some? && Truthy(profile.value.displayName) then profile.value.displayName.value
    else if Truthy(user.value.fullName) then user.value.fullName.value
    else if Truthy(user.value.email) then Capitalize(FirstSegment(user.value.email.value, '@'))
    else "Anonymous"
  }

  /** The priority order of the name sources, each one winning only when all
      sources before it are unset (null, undefined or ""). */
  lemma DisplayNamePriority(user: Option<AuthUser>, profile: Option<Profile>)
    ensures user.None? ==> DisplayName(user, profile) == "Anonymous"
    ensures user.Some? && profile.Some? && Truthy(profile.value.displayName) ==>
      DisplayName(user, profile) == profile.value.displayName.value
    ensures user.Some? && !(profile.Some? && Truthy(profile.value.displayName)) && Truthy(user.value.fullName) ==>
      DisplayName(user, profile) == user.value.fullName.value
    ensures (user.Some? && !(profile.Some? && Truthy(profile.value.displayName)) && !Truthy(user.value.fullName) &&
             !Truthy(user.value.email)) ==> DisplayName(user, profile) == "Anonymous"
  {
  }

  /** The email fallback for "local@domain": the local part with only its
      first character upper-cased, whatever the domain. */
  lemma {:induction false} DisplayNameFromEmail(u: AuthUser, local: string, domain: string)
    requires u.fullName.None? || u.fullName == Some("")
    requires u.email == Some(local + "@" + domain)
    requires '@' !in local && local != ""
    ensures var r := DisplayName(Some(u), None);
      |r| == |local| && r[0] == UpperChar(local[0]) && r[1..] == local[1..]
  {
    FirstSegmentOfJoin(local, '@', domain);
  }

  /** getUserInitials. `trim().split(' ')` has one part exactly when the
      trimmed name has no space; its first part is the text before the first
      space and its last part the text after the last space. */
  function Initials(displayName: string): (r: string)
    ensures |r| <= 2
    ensures displayName == "" || displayName == "Anonymous" ==> r == "A"
  {
    if displayName == "" || displayName == "Anonymous" then "A"
    else
      var t := Trim(displayName);
      if ' ' !in t then Upper(CharAt0(t))
      else Upper(CharAt0(FirstSegment(t, ' ')) + CharAt0(LastSegment(t, ' ')))
  }

  /** A name without inner spaces gives one upper-cased initial. */
  lemma InitialsOfOneWord(name: string)
    requires name != "" && name != "Anonymous" && ' ' !in name
    requires !IsJsSpace(name[0]) && !IsJsSpace(name[|name| - 1])
    ensures Initials(name) == [UpperChar(name[0])]
  {
    assert TrimStart(name) == name;
  }

  /** A first and a last word, separated by a space, give the upper-cased
      first characters of the two words. */
  lemma {:induction false} InitialsOfTwoWords(first: string, last: string)
    requires first != "" && last != "" && ' ' !in first && ' ' !in last
    requires !IsJsSpace(first[0]) && !IsJsSpace(last[|last| - 1])
    ensures Initials(first + " " + last) == [UpperChar(first[0]), UpperChar(last[0])]
  {
    var name := first + " " + last;
    assert name == first + [' '] + last;
    assert name[|first|] == ' ';
    assert name != "Anonymous" by {
      assert ' ' !in "Anonymous";
    }
    assert name[0] == first[0];
    assert name[|name| - 1] == last[|last| - 1];
    TrimNoOp(name);
    FirstSegmentOfJoin(first, ' ', last);
    LastSegmentOfJoin(first, ' ', last);
    assert CharAt0(first) + CharAt0(last) == [first[0], last[0]];
  }

  // ---------------------------------------------------------------------------
  // avatar colour

  const AvatarColors: seq<string> := [
    "from-blue-500 to-purple-600",
    "from-red-500 to-pink-600",
    "from-green-500 to-teal-600",
    "from-yellow-500 to-orange-600",
    "from-indigo-500 to-blue-600",
    "from-pink-500 to-rose-600",
    "from-cyan-500 to-blue-600",
    "from-purple-500 to-indigo-600"
  ]

  const TwoTo31: int := 0x8000_0000
  const TwoTo32: int := 0x1_0000_0000

  /** ECMAScript ToInt32: wrap an integer into the signed 32-bit range. */
  function ToInt32(x: int): (r: int)
    ensures -TwoTo31 <= r < TwoTo31
    ensures (x - r) % TwoTo32 == 0
  {
    var m := x % TwoTo32;
    if m >= TwoTo31 then m - TwoTo32 else m
  }

  /** One step of the reduce: `char.charCodeAt(0) + ((acc << 5) - acc)`.
      The shift works on ToInt32(acc) and wraps; the subtraction and the
      addition do not. */
  function HashStep(acc: int, c: char): (r: int)
    ensures acc == 0 ==> r == c as int
    ensures (c as int) - acc - TwoTo31 <= r < (c as int) - acc + TwoTo31
  {
    (c as int) + (ToInt32(ToInt32(acc) * 32) - acc)
  }

  /** The reduce over the characters of the id, left to right, from 0. */
  function Hash(id: string): (r: int)
    ensures id == [] ==> r == 0
    ensures |id| == 1 ==> r == id[0] as int
  {
    if id == [] then 0 else HashStep(Hash(id[..|id| - 1]), id[|id| - 1])
  }

  const CodePointBound: int := 0x11_0000

  /** The accumulator grows by at most 2^31 plus one code point per
      character, so for any id shorter than 2^20 characters it stays below
      2^53 in size and the double arithmetic of the source is exact. */
  lemma {:induction false} HashBound(id: string)
    ensures -(|id| * (TwoTo31 + CodePointBound)) <= Hash(id) <= |id| * (TwoTo31 + CodePointBound)
  {
    if id != [] {
      HashBound(id[..|id| - 1]);
    }
  }

  /** The index into the palette: `Math.abs(hash) % colors.length`. */
  function AvatarColorIndex(id: string): (i: int)
    ensures 0 <= i < |AvatarColors|
    ensures id == "" ==> i == 0
  {
    var h := Hash(id);
    (if h < 0 then -h else h) % |AvatarColors|
  }

  /** getAvatarColor: always one of the eight palette entries. */
  function AvatarColor(id: string): (c: string)
    ensures c in AvatarColors
    ensures id == "" ==> c == AvatarColors[0]
  {
    AvatarColors[AvatarColorIndex(id)]
  }
}
