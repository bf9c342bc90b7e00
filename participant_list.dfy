/** The participant roster of src/components/ParticipantList.tsx: the local
    participant first, then the remote participants in the order given, each
    with its profile avatar; the host crown; the one status label per row.

    The profile lookup is the parameter `avatarOf` (what the `avatar_url`
    query yields for an identity, None when there is no row or the query
    fails), and `throws` says whether any await of the build throws. */
module ParticipantList {
  import opened Common
  import opened LiveKitSession
  import opened Storage

  /** One row of the roster. */
  datatype RosterEntry = RosterEntry(
    sid: string,
    identity: string,
    name: string,
    isMuted: bool,
    isSpeaking: bool,
    isLocal: bool,
    avatarUrl: Option<string>)

  /** The row for the local participant; an unnamed local participant is 'You'. */
  function LocalEntry(p: Participant, avatarOf: string -> Option<string>): (e: RosterEntry)
    ensures e.isLocal && e.sid == p.sid && e.identity == p.identity
    ensures e.isMuted == !p.micEnabled && e.isSpeaking == p.speaking
    ensures e.name == OrElse(p.name, "You") && e.name != ""
    ensures e.avatarUrl == GetAvatarUrl(avatarOf(p.identity))
  {
    RosterEntry(p.sid, p.identity, OrElse(p.name, "You"), !p.micEnabled, p.speaking, true, GetAvatarUrl(avatarOf(p.identity)))
  }

  /** The row for a remote participant; an unnamed one is 'Anonymous'. */
  function RemoteEntry(p: Participant, avatarOf: string -> Option<string>): (e: RosterEntry)
    ensures !e.isLocal && e.sid == p.sid && e.identity == p.identity
    ensures e.isMuted == !p.micEnabled && e.isSpeaking == p.speaking
    ensures e.name == OrElse(p.name, "Anonymous") && e.name != ""
    ensures e.avatarUrl == GetAvatarUrl(avatarOf(p.identity))
  {
    RosterEntry(p.sid, p.identity, OrElse(p.name, "Anonymous"), !p.micEnabled, p.speaking, false, GetAvatarUrl(avatarOf(p.identity)))
  }

  /** The rows for the remote participants, position by position. */
  function RemoteEntries(ps: seq<Participant>, avatarOf: string -> Option<string>): (r: seq<RosterEntry>)
    ensures |r| == |ps|
    ensures forall i :: 0 <= i < |ps| ==> r[i] == RemoteEntry(ps[i], avatarOf)
  {
    if ps == [] then [] else RemoteEntries(ps[..|ps| - 1], avatarOf) + [RemoteEntry(ps[|ps| - 1], avatarOf)]
  }

  /** The roster a successful build produces. */
  function Roster(local: Option<Participant>, remotes: seq<Participant>, avatarOf: string -> Option<string>): (r: seq<RosterEntry>)
    ensures |r| == |remotes| + (if local.Some? then 1 else 0)
  {
    (if local.Some? then [LocalEntry(local.value, avatarOf)] else []) + RemoteEntries(remotes, avatarOf)
  }

  /** The local participant, when there is one, is the first row and the only
      local row; the remote participants follow in their order, each muted
      exactly when its microphone is off. */
  lemma {:induction false} RosterOrder(local: Option<Participant>, remotes: seq<Participant>, avatarOf: string -> Option<string>)
    ensures var r := Roster(local, remotes, avatarOf);
      var k := if local.Some? then 1 else 0;
      (local.Some? ==> r[0] == LocalEntry(local.value, avatarOf)) &&
      (forall i :: 0 <= i < |remotes| ==> r[k + i] == RemoteEntry(remotes[i], avatarOf)) &&
      (forall i :: 0 <= i < |r| ==> (r[i].isLocal <==> local.Some? && i == 0)) &&
      (forall i :: 0 <= i < |r| ==> r[i].isMuted == !(if k == 1 && i == 0 then local.value.micEnabled else remotes[i - k].micEnabled))
  {
    var r := Roster(local, remotes, avatarOf);
    var k := if local.Some? then 1 else 0;
    var rs := RemoteEntries(remotes, avatarOf);
    assert r == (if local.Some? then [LocalEntry(local.value, avatarOf)] else []) + rs;
    forall i | 0 <= i < |remotes| ensures r[k + i] == RemoteEntry(remotes[i], avatarOf) {
      assert r[k + i] == rs[i];
    }
  }

  /** A profiles row, column by column; a column the row lacks is absent. */
  type ProfileRow = map<string, Option<string>>

  /** The column the roster reads the avatar from. */
  const RosterAvatarColumn := "avatar_url"

  /** `data?.[column]` after selecting `column` of one row: the column's
      value, None when there is no row or no such column. */
  function ColumnOf(row: Option<ProfileRow>, column: string): (v: Option<string>)
    ensures row.None? || column !in row.value ==> v.None?
    ensures row.Some? && column in row.value ==> v == row.value[column]
  {
    if row.Some? && column in row.value then row.value[column] else None
  }

  /** The user's profile row as updateProfileAvatar leaves it: the column
      that helper writes, holding the new URL. */
  function AvatarWrittenRow(userId: string, url: string): (row: ProfileRow)
    ensures "photo_url" in row && row["photo_url"] == Some(url)
    ensures forall c :: c in row ==> c == "photo_url"
  {
    var call := UpdateProfileAvatar(userId, url, true).call;
    map[call.column := Some(call.value)]
  }

  /** As written the roster reads `avatar_url`, a column updateProfileAvatar
      never writes: a participant whose photo was just saved still gets no
      avatar, local or remote. */
  lemma AvatarMissedAsWritten(p: Participant, url: string)
    ensures LocalEntry(p, (id: string) => ColumnOf(Some(AvatarWrittenRow(id, url)), RosterAvatarColumn)).avatarUrl.None?
    ensures RemoteEntry(p, (id: string) => ColumnOf(Some(AvatarWrittenRow(id, url)), RosterAvatarColumn)).avatarUrl.None?
  {
    var row := AvatarWrittenRow(p.identity, url);
    assert RosterAvatarColumn !in row by {
      assert |RosterAvatarColumn| != |"photo_url"|;
    }
  }

  /** Reading the column the photo is written to, the roster shows the
      saved photo for the local and for a remote participant. */
  lemma AvatarShownFromPhotoColumn(p: Participant, url: string)
    requires url != ""
    ensures LocalEntry(p, (id: string) => ColumnOf(Some(AvatarWrittenRow(id, url)), "photo_url")).avatarUrl == Some(url)
    ensures RemoteEntry(p, (id: string) => ColumnOf(Some(AvatarWrittenRow(id, url)), "photo_url")).avatarUrl == Some(url)
  {
  }

  /** One more participant adds its row at the end. */
  lemma RemoteEntriesSnoc(ps: seq<Participant>, i: int, avatarOf: string -> Option<string>)
    requires 0 <= i < |ps|
    ensures RemoteEntries(ps[..i + 1], avatarOf) == RemoteEntries(ps[..i], avatarOf) + [RemoteEntry(ps[i], avatarOf)]
  {
    assert ps[..i + 1][..i] == ps[..i];
  }

  /** `hostId === participantId`; no host id marks nobody. */
  predicate IsHost(hostId: Option<string>, identity: string)
  {
    hostId == Some(identity)
  }

  datatype StatusLabel = Speaking | Muted | Connected

  /** The label under a row's name: speaking wins over muted, which wins
      over connected. */
  function Status(e: RosterEntry): (s: StatusLabel)
    ensures s == Speaking <==> e.isSpeaking
    ensures s == Muted <==> !e.isSpeaking && e.isMuted
    ensures s == Connected <==> !e.isSpeaking && !e.isMuted
  {
    if e.isSpeaking then Speaking else if e.isMuted then Muted else Connected
  }

  /** The component's state: the rows last built. */
  class ParticipantListView {
    var roster: seq<RosterEntry>

    constructor()
      ensures roster == []
    {
      roster := [];
    }

    /** fetchParticipantProfiles: builds the rows one by one, local first,
        and replaces the roster only if nothing throws. */
    method Build(local: Option<Participant>, remotes: seq<Participant>, avatarOf: string -> Option<string>, throws: bool)
      modifies this
      ensures roster == (if throws then old(roster) else Roster(local, remotes, avatarOf))
    {
      var all: seq<RosterEntry> := [];
      if local.Some? {
        var p := local.value;
        var avatar := avatarOf(p.identity);
        all := all + [RosterEntry(p.sid, p.identity, OrElse(p.name, "You"), !p.micEnabled, p.speaking, true, GetAvatarUrl(avatar))];
      }
      var head := all;
      assert head == (if local.Some? then [LocalEntry(local.value, avatarOf)] else []);
      var i := 0;
      while i < |remotes|
        invariant 0 <= i <= |remotes|
        invariant all == head + RemoteEntries(remotes[..i], avatarOf)
        invariant roster == old(roster)
      {
        var p := remotes[i];
        var avatar := avatarOf(p.identity);
        var entry := RosterEntry(p.sid, p.identity, OrElse(p.name, "Anonymous"), !p.micEnabled, p.speaking, false, GetAvatarUrl(avatar));
        assert entry == RemoteEntry(p, avatarOf);
        RemoteEntriesSnoc(remotes, i, avatarOf);
        all := all + [entry];
        i := i + 1;
      }
      assert remotes[..|remotes|] == remotes;
      assert all == Roster(local, remotes, avatarOf);
      if throws {
        return;
      }
      roster := all;
    }
  }
}
