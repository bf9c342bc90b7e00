/** The profile settings form of src/pages/ProfileSettingsPage.tsx: loading
    the user's display name, bio and time zone with their defaults, editing
    one field at a time, and saving them trimmed. The two backend calls are
    inputs; the read, the update and the delayed return to the profile are
    logged in `effects`. */
module ProfileSettings {
  import opened Common

  /** The time-zone drop-down's options; the first is the default. */
  const Timezones: seq<string> := [
    "UTC", "America/New_York", "America/Chicago", "America/Denver", "America/Los_Angeles",
    "America/Anchorage", "Pacific/Honolulu", "Europe/London", "Europe/Paris", "Europe/Berlin",
    "Africa/Lagos", "Africa/Johannesburg", "Asia/Dubai", "Asia/Kolkata", "Asia/Singapore",
    "Asia/Tokyo", "Australia/Sydney"]

  /** How long the success message shows before the return to the profile. */
  const RedirectDelayMs := 1500

  datatype Settings = Settings(displayName: string, bio: string, timezone: string)

  const DefaultSettings := Settings("", "", "UTC")

  /** The three columns of a profiles row as read; any may be null. */
  datatype ProfileRow = ProfileRow(displayName: Option<string>, bio: Option<string>, timezone: Option<string>)

  datatype Field = DisplayName | Bio | Timezone

  datatype Effect =
    | LoadProfile(userId: string)
    | UpdateProfile(userId: string, values: Settings)
    | NavigateAfter(path: string, delayMs: int)

  /** The settings a successful read yields: each column when it is a
      non-empty string, its default otherwise, and all defaults when no row
      came back. The time zone is never empty. */
  function Loaded(data: Option<ProfileRow>): (s: Settings)
    ensures data.None? ==> s == DefaultSettings
    ensures s.timezone != ""
    ensures data.Some? ==>
      (Truthy(data.value.displayName) ==> s.displayName == data.value.displayName.value) &&
      (!Truthy(data.value.displayName) ==> s.displayName == "") &&
      (Truthy(data.value.bio) ==> s.bio == data.value.bio.value) &&
      (!Truthy(data.value.bio) ==> s.bio == "") &&
      (Truthy(data.value.timezone) ==> s.timezone == data.value.timezone.value) &&
      (!Truthy(data.value.timezone) ==> s.timezone == "UTC")
  {
    if data.None? then DefaultSettings
    else Settings(OrElse(data.value.displayName, ""), OrElse(data.value.bio, ""), OrElse(data.value.timezone, "UTC"))
  }

  /** The values handleSave writes: display name and bio trimmed, the time
      zone as it is. */
  function Saved(s: Settings): (r: Settings)
    ensures Trim(r.displayName) == r.displayName && Trim(r.bio) == r.bio
    ensures r.timezone == s.timezone
  {
    TrimIdempotent(s.displayName);
    TrimIdempotent(s.bio);
    Settings(Trim(s.displayName), Trim(s.bio), s.timezone)
  }

  /** The row the update leaves behind, read back as a ProfileRow. */
  function Row(s: Settings): (row: ProfileRow)
    ensures row.displayName.Some? && row.bio.Some? && row.timezone.Some?
  {
    ProfileRow(Some(s.displayName), Some(s.bio), Some(s.timezone))
  }

  /** Saving a second time without edits writes the same values. */
  lemma SaveIdempotent(s: Settings)
    ensures Saved(Saved(s)) == Saved(s)
  {
    TrimIdempotent(s.displayName);
    TrimIdempotent(s.bio);
  }

  /** Saved values load back exactly, whatever their emptiness, as long as
      the time zone is set. */
  lemma LoadAfterSave(s: Settings)
    requires s.timezone != ""
    ensures Loaded(Some(Row(Saved(s)))) == Saved(s)
  {
  }

  /** A display name of blanks gets past the field's `required` check and is
      saved as the empty string, which loads back as no name; one with a
      visible character is saved without its surrounding blanks and stays
      non-empty. */
  lemma BlankDisplayName(s: Settings)
    ensures (forall i :: 0 <= i < |s.displayName| ==> IsJsSpace(s.displayName[i])) <==> Saved(s).displayName == ""
    ensures Saved(s).displayName != "" ==>
      !IsJsSpace(Saved(s).displayName[0]) && !IsJsSpace(Saved(s).displayName[|Saved(s).displayName| - 1])
  {
    TrimEmptyIffAllSpace(s.displayName);
  }

  /** `error.message || 'Failed to update settings'`: never empty. */
  function SaveErrorText(message: string): (text: string)
    ensures text != ""
    ensures message != "" ==> text == message
    ensures message == "" ==> text == "Failed to update settings"
  {
    if message != "" then message else "Failed to update settings"
  }

  /** handleChange: one field replaced, the others kept. */
  function Changed(s: Settings, field: Field, value: string): (t: Settings)
    ensures field == DisplayName ==> t == s.(displayName := value)
    ensures field == Bio ==> t == s.(bio := value)
    ensures field == Timezone ==> t == s.(timezone := value)
  {
    match field
    case DisplayName => s.(displayName := value)
    case Bio => s.(bio := value)
    case Timezone => s.(timezone := value)
  }

  class ProfileSettingsPage {
    const user: Option<AuthUser>
    var settings: Settings
    var loading: bool
    var saving: bool
    var error: string
    var success: bool
    var effects: seq<Effect>

    constructor(user: Option<AuthUser>)
      ensures this.user == user
      ensures settings == DefaultSettings && loading && !saving && error == "" && !success && effects == []
    {
      this.user := user;
      settings := DefaultSettings;
      loading := true;
      saving := false;
      error := "";
      success := false;
      effects := [];
    }

    /** fetchSettings: `result` is the profile read. Without a user nothing
        happens, and the page keeps its spinner. A failed read keeps the
        defaults and shows 'Failed to load settings'; loading ends either
        way. */
    method FetchSettings(result: Fetch<ProfileRow>)
      modifies this
      ensures user.None? ==>
        settings == old(settings) && loading == old(loading) && error == old(error) && effects == old(effects)
      ensures user.Some? ==> !loading && effects == old(effects) + [LoadProfile(user.value.id)]
      ensures user.Some? && result.FetchError? ==> settings == old(settings) && error == "Failed to load settings"
      ensures user.Some? && result.FetchData? ==> settings == Loaded(result.data) && error == old(error)
      ensures saving == old(saving) && success == old(success)
    {
      if user.None? {
        return;
      }
      effects := effects + [LoadProfile(user.value.id)];
      match result {
        case FetchError =>
          error := "Failed to load settings";
        case FetchData(data) =>
          settings := Loaded(data);
      }
      loading := false;
    }

    method HandleChange(field: Field, value: string)
      modifies this
      ensures settings == Changed(old(settings), field, value)
      ensures loading == old(loading) && saving == old(saving) && error == old(error)
      ensures success == old(success) && effects == old(effects)
    {
      settings := Changed(settings, field, value);
    }

    /** handleSave: `outcome` is None when the update succeeds and the
        error's message otherwise. Without a user nothing happens. The
        trimmed values are written; on success the success banner shows and
        the return to the profile is scheduled, on failure the error banner
        shows; never both. The form keeps the untrimmed text. */
    method HandleSave(outcome: Option<string>)
      modifies this
      ensures user.None? ==> error == old(error) && success == old(success) && effects == old(effects)
      ensures user.Some? ==>
        effects == old(effects) + [UpdateProfile(user.value.id, Saved(settings))] +
                   (if outcome.None? then [NavigateAfter("/profile", RedirectDelayMs)] else [])
      ensures user.Some? ==> (success <==> outcome.None?) && (error != "" <==> outcome.Some?)
      ensures user.Some? && outcome.Some? ==> error == SaveErrorText(outcome.value)
      ensures user.Some? ==> !saving
      ensures user.None? ==> saving == old(saving)
      ensures settings == old(settings) && loading == old(loading)
    {
      if user.None? {
        return;
      }
      saving := true;
      error := "";
      success := false;
      effects := effects + [UpdateProfile(user.value.id, Saved(settings))];
      if outcome.None? {
        success := true;
        effects := effects + [NavigateAfter("/profile", RedirectDelayMs)];
      } else {
        error := SaveErrorText(outcome.value);
      }
      saving := false;
    }
  }
}
