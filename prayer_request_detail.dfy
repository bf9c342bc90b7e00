/** The prayer request page of src/pages/PrayerRequestDetailPage.tsx: the
    Amen toggle with its local count, the author's answered flag and the
    response form. Backend writes are inputs saying whether they succeeded;
    the writes the page issues are appended, in order, to `effects`. */
module PrayerRequestDetail {
  import opened Common
  import opened PrayerModel

  /** A prayer_request_responses row as the form inserts it. */
  datatype ResponseRecord = ResponseRecord(requestId: string, userId: string, userName: string, content: string)

  datatype Effect =
    | DeleteAmen(requestId: string, userId: string)
    | InsertAmen(requestId: string, userId: string)
    | UpdateAnswered(requestId: string, isAnswered: bool)
    | InsertResponse(record: ResponseRecord)
    | RefetchResponses
    | RefetchRequest

  /** The local effect of one Amen click on the count and the flag, given
      whether the backend write succeeded: removing floors the count at 0,
      adding increments it, and a failed write changes neither. */
  function AmenStep(count: int, amened: bool, ok: bool): (r: (int, bool))
    ensures !ok ==> r == (count, amened)
    ensures ok ==> r.1 == !amened
    ensures ok && !amened ==> r.0 == count + 1
    ensures ok && amened ==> r.0 == (if count >= 1 then count - 1 else 0)
  {
    if !ok then (count, amened)
    else if amened then (if count - 1 > 0 then count - 1 else 0, false)
    else (count + 1, true)
  }

  /** The count never goes negative. */
  lemma AmenCountStaysNonNegative(count: int, amened: bool, ok: bool)
    requires count >= 0
    ensures AmenStep(count, amened, ok).0 >= 0
  {
  }

  /** Adding an Amen and then removing it restores both the count and the
      flag; removing then adding restores them when the count was positive. */
  lemma AmenAddThenRemove(count: int)
    requires count >= 0
    ensures var added := AmenStep(count, false, true);
      AmenStep(added.0, added.1, true) == (count, false)
    ensures count >= 1 ==>
      var removed := AmenStep(count, true, true);
      AmenStep(removed.0, removed.1, true) == (count, true)
  {
  }

  /** 'Amen' for exactly one, 'Amens' otherwise. */
  function AmenWord(count: int): (w: string)
    ensures w == "Amen" <==> count == 1
    ensures w == "Amens" <==> count != 1
  {
    if count == 1 then "Amen" else "Amens"
  }

  /** The response row: the author's id, the local part of their email (or
      'Anonymous') and the trimmed text. */
  function NewResponse(requestId: string, user: AuthUser, typed: string): (r: ResponseRecord)
    ensures r.requestId == requestId && r.userId == user.id && r.userName == EmailName(user)
    ensures r.content == Trim(typed)
    ensures r.content != "" ==> !IsJsSpace(r.content[0]) && !IsJsSpace(r.content[|r.content| - 1])
  {
    TrimEmptyIffAllSpace(typed);
    ResponseRecord(requestId, user.id, EmailName(user), Trim(typed))
  }

  class RequestPage {
    const requestId: string
    const user: Option<AuthUser>

    var loading: bool
    var request: Option<PrayerRequest>
    var hasAmened: bool
    var newResponse: string
    var effects: seq<Effect>

    constructor(requestId: string, user: Option<AuthUser>)
      ensures this.requestId == requestId && this.user == user
      ensures loading && request.None? && !hasAmened && newResponse == "" && effects == []
    {
      this.requestId := requestId;
      this.user := user;
      loading := true;
      request := None;
      hasAmened := false;
      newResponse := "";
      effects := [];
    }

    /** fetchRequestDetails: a row found replaces the request; loading ends
        whatever the outcome. */
    method FetchRequestDetails(result: Fetch<PrayerRequest>)
      modifies this
      ensures !loading
      ensures request == (if result.FetchData? && result.data.Some? then result.data else old(request))
      ensures hasAmened == old(hasAmened) && newResponse == old(newResponse) && effects == old(effects)
    {
      if result.FetchData? && result.data.Some? {
        request := result.data;
      }
      loading := false;
    }

    /** checkIfAmened: whether the user's amen row exists; nothing without a
        user or on error. */
    method CheckIfAmened(result: Fetch<string>)
      modifies this
      ensures hasAmened == (if user.Some? && result.FetchData? then result.data.Some? else old(hasAmened))
      ensures loading == old(loading) && request == old(request) && newResponse == old(newResponse) && effects == old(effects)
    {
      if user.None? {
        return;
      }
      if result.FetchData? {
        hasAmened := result.data.Some?;
      }
    }

    /** handleAmen: a no-op without a user or a request; otherwise the amen
        row is deleted or inserted according to the flag, and the count and
        flag follow AmenStep. */
    method HandleAmen(ok: bool)
      modifies this
      ensures user.None? || old(request).None? ==>
        request == old(request) && hasAmened == old(hasAmened) && effects == old(effects)
      ensures user.Some? && old(request).Some? ==>
        var step := AmenStep(old(request).value.amenCount, old(hasAmened), ok);
        request == Some(old(request).value.(amenCount := step.0)) && hasAmened == step.1 &&
        effects == old(effects) + [if old(hasAmened) then DeleteAmen(requestId, user.value.id) else InsertAmen(requestId, user.value.id)]
      ensures loading == old(loading) && newResponse == old(newResponse)
    {
      if user.None? || request.None? {
        return;
      }
      var r := request.value;
      if hasAmened {
        effects := effects + [DeleteAmen(requestId, user.value.id)];
        if !ok {
          return;
        }
        request := Some(r.(amenCount := if r.amenCount - 1 > 0 then r.amenCount - 1 else 0));
        hasAmened := false;
      } else {
        effects := effects + [InsertAmen(requestId, user.value.id)];
        if !ok {
          return;
        }
        request := Some(r.(amenCount := r.amenCount + 1));
        hasAmened := true;
      }
    }

    /** handleSubmitResponse: nothing without non-blank text and a user; the
        text is stored trimmed; only on success is the form cleared and are
        both lists fetched again. */
    method SubmitResponse(ok: bool)
      modifies this
      ensures Trim(old(newResponse)) == "" || user.None? ==>
        effects == old(effects) && newResponse == old(newResponse)
      ensures Trim(old(newResponse)) != "" && user.Some? ==>
        effects == old(effects) + [InsertResponse(NewResponse(requestId, user.value, old(newResponse)))] +
                   (if ok then [RefetchResponses, RefetchRequest] else []) &&
        newResponse == (if ok then "" else old(newResponse))
      ensures loading == old(loading) && request == old(request) && hasAmened == old(hasAmened)
    {
      if Trim(newResponse) == "" || user.None? {
        return;
      }
      var record := ResponseRecord(requestId, user.value.id, EmailName(user.value), Trim(newResponse));
      effects := effects + [InsertResponse(record)];
      if !ok {
        return;
      }
      newResponse := "";
      effects := effects + [RefetchResponses, RefetchRequest];
    }

    /** handleMarkAsAnswered: only the author may act; the write flips the
        answered flag and, on success, the local copy flips exactly that
        field. */
    method MarkAsAnswered(ok: bool)
      modifies this
      ensures !(old(request).Some? && user.Some? && old(request).value.userId == user.value.id) ==>
        request == old(request) && effects == old(effects)
      ensures old(request).Some? && user.Some? && old(request).value.userId == user.value.id ==>
        effects == old(effects) + [UpdateAnswered(requestId, !old(request).value.isAnswered)] &&
        request == (if ok then Some(old(request).value.(isAnswered := !old(request).value.isAnswered)) else old(request))
      ensures loading == old(loading) && hasAmened == old(hasAmened) && newResponse == old(newResponse)
    {
      if request.None? || user.None? || request.value.userId != user.value.id {
        return;
      }
      var r := request.value;
      effects := effects + [UpdateAnswered(requestId, !r.isAnswered)];
      if ok {
        request := Some(r.(isAnswered := !r.isAnswered));
      }
    }

    method SetNewResponse(text: string)
      modifies this
      ensures newResponse == text
      ensures loading == old(loading) && request == old(request) && hasAmened == old(hasAmened) && effects == old(effects)
    {
      newResponse := text;
    }
  }
}
