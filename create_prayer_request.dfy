/** The prayer request form of src/pages/CreatePrayerRequestPage.tsx: its
    defaults, the field setters, the row it inserts and where the user goes
    next. The insert is an input (the new row's id, or None when it fails);
    the insert, the navigation and the failure alert are logged in
    `effects`. */
module CreatePrayerRequest {
  import opened Common
  import opened PrayerModel
  import PrayerWall
  import PrayerRequestDetail

  /** The category drop-down's options; the first is the default. */
  const Categories: seq<string> := [
    "Healing", "Family", "Financial", "Career", "Relationships",
    "Spiritual Growth", "Guidance", "Thanksgiving", "Intercession", "Other"]

  /** The length limits the two text fields give the browser. */
  const MaxTitleLength := 100
  const MaxContentLength := 2000

  datatype RequestForm = RequestForm(title: string, content: string, category: string)

  const DefaultForm := RequestForm("", "", "Healing")

  /** The prayer_requests row handed to the insert. */
  datatype NewRequest = NewRequest(
    userId: string,
    userName: string,
    title: string,
    content: string,
    category: string,
    amenCount: int,
    responseCount: int,
    isAnswered: bool)

  datatype Effect = InsertRequest(row: NewRequest) | Navigate(path: string) | FailureAlert

  /** The inserted row: the form's fields as typed, the user as author under
      their e-mail name, no amens, no responses, not answered. */
  function NewRequestRecord(form: RequestForm, user: AuthUser): (r: NewRequest)
    ensures r.title == form.title && r.content == form.content && r.category == form.category
    ensures r.userId == user.id && r.userName == EmailName(user) && r.userName != ""
    ensures r.amenCount == 0 && r.responseCount == 0 && !r.isAnswered
  {
    NewRequest(user.id, EmailName(user), form.title, form.content, form.category, 0, 0, false)
  }

  /** What the browser's own checks let through before the submit handler
      runs: a title of at most 100 characters and a content of at most 2000,
      neither empty. The handler itself checks none of these. */
  predicate Submittable(form: RequestForm)
  {
    0 < |form.title| <= MaxTitleLength && 0 < |form.content| <= MaxContentLength
  }

  /** The inserted row as the other pages read it back; the id and the two
      times come from the database. */
  function Stored(row: NewRequest, id: string, createdAt: int, updatedAt: int): (r: PrayerRequest)
    ensures r.id == id && r.userId == row.userId && r.userName == row.userName
    ensures r.title == row.title && r.content == row.content && r.category == row.category
    ensures r.amenCount == row.amenCount && r.responseCount == row.responseCount && r.isAnswered == row.isAnswered
  {
    PrayerRequest(id, row.userId, row.userName, row.title, row.content, row.category,
      row.amenCount, row.responseCount, row.isAnswered, createdAt, updatedAt)
  }

  /** A new request is found on the wall by its own title and by its
      author's name, is listed under its own category and under 'All' but
      under no other category, and a first Amen on it reads one. */
  lemma NewRequestOnTheWall(form: RequestForm, user: AuthUser, id: string, createdAt: int, updatedAt: int, category: string)
    ensures var r := Stored(NewRequestRecord(form, user), id, createdAt, updatedAt);
      PrayerWall.MatchesSearch(r, form.title) && PrayerWall.MatchesSearch(r, EmailName(user)) &&
      PrayerWall.Selects(PrayerWall.Query(None, None), r) &&
      (PrayerWall.Selects(PrayerWall.Query(Some(category), None), r) <==> category == form.category) &&
      PrayerRequestDetail.AmenStep(r.amenCount, false, true) == (1, true)
  {
    var r := Stored(NewRequestRecord(form, user), id, createdAt, updatedAt);
    ContainsSelf(Lower(r.title));
    ContainsSelf(Lower(r.userName));
  }

  /** A request the browser lets through is stored, and read back by the
      wall, with a title of 1 to 100 characters and a content of 1 to 2000;
      the handler adds no check of its own, so nothing else bounds them. */
  lemma StoredWithinFormLimits(form: RequestForm, user: AuthUser, id: string, createdAt: int, updatedAt: int)
    requires Submittable(form)
    ensures var r := Stored(NewRequestRecord(form, user), id, createdAt, updatedAt);
      0 < |r.title| <= MaxTitleLength && 0 < |r.content| <= MaxContentLength
  {
  }

  lemma ContainsSelf(s: string)
    ensures Contains(s, s)
  {
    assert s[..|s|] == s;
  }

  class CreatePrayerRequestPage {
    const user: Option<AuthUser>
    var form: RequestForm
    var loading: bool
    var effects: seq<Effect>

    /** The category is one of the drop-down's. */
    predicate Valid()
      reads this
    {
      form.category in Categories
    }

    constructor(user: Option<AuthUser>)
      ensures this.user == user
      ensures form == DefaultForm && !loading && effects == []
      ensures Valid()
    {
      this.user := user;
      form := DefaultForm;
      loading := false;
      effects := [];
    }

    method SetTitle(title: string)
      modifies this
      ensures form == old(form).(title := title)
      ensures loading == old(loading) && effects == old(effects)
      ensures old(Valid()) ==> Valid()
    {
      form := form.(title := title);
    }

    /** The drop-down only offers the listed categories. */
    method SetCategory(category: string)
      requires category in Categories
      modifies this
      ensures form == old(form).(category := category)
      ensures loading == old(loading) && effects == old(effects)
      ensures old(Valid()) ==> Valid()
    {
      form := form.(category := category);
    }

    method SetContent(content: string)
      modifies this
      ensures form == old(form).(content := content)
      ensures loading == old(loading) && effects == old(effects)
      ensures old(Valid()) ==> Valid()
    {
      form := form.(content := content);
    }

    /** handleSubmit: nothing without a user; otherwise the row is inserted,
        and the user is taken to the new request, or alerted when the insert
        fails. The form is left as it was and loading ends either way. */
    method HandleSubmit(created: Option<string>)
      modifies this
      ensures form == old(form)
      ensures user.None? ==> effects == old(effects) && loading == old(loading)
      ensures user.Some? ==> !loading
      ensures user.Some? ==>
        effects == old(effects) + [InsertRequest(NewRequestRecord(form, user.value))] +
                   (if created.Some? then [Navigate("/prayer-request/" + created.value)] else [FailureAlert])
    {
      if user.None? {
        return;
      }
      loading := true;
      effects := effects + [InsertRequest(NewRequestRecord(form, user.value))];
      if created.Some? {
        effects := effects + [Navigate("/prayer-request/" + created.value)];
      } else {
        effects := effects + [FailureAlert];
      }
      loading := false;
    }
  }
}
