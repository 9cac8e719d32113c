/** The add page: creates a series from the form and then the signed-in
    user's nexo for it. */
module AddSerie {
  import opened Wrappers
  import opened JsText
  import opened JsNumber
  import opened SerieForm
  import Auth

  /** `user?.id ? Number(user.id) : 1`. */
  function NexoOwner(authUserId: Option<string>): (r: Num)
    ensures !Truthy(authUserId) ==> r == Int(1)
    ensures Truthy(authUserId) ==> r == ToNumber(authUserId.value)
  {
    if Truthy(authUserId) then ToNumber(authUserId.value) else Int(1)
  }

  /** The user a login signs in always has id '1', so every nexo the add page
      creates belongs to user 1, whatever id the server gave at login. */
  lemma NewNexosBelongToUserOne(email: string, profileImg: Option<string>)
    ensures NexoOwner(Some(Auth.SessionUser(email, profileImg).id)) == Int(1)
  {
    ToNumberRoundTrip(1);
    assert IntToString(1) == "1";
  }

  class AddSeriePage {
    var form: Form
    var loading: bool
    var error: Option<string>
    var success: bool
    var requests: seq<Request>

    predicate Valid()
      reads this
    {
      SeriesFirst(requests)
    }

    constructor (currentYear: int)
      ensures form == Initial(currentYear) && !loading && error.None? && !success && requests == []
      ensures Valid()
    {
      form := Initial(currentYear);
      loading := false;
      error := None;
      success := false;
      requests := [];
    }

    /** `handleChange`: only the named field changes. */
    method HandleChange(f: Field, raw: string)
      modifies this`form
      ensures form == Change(old(form), f, raw)
      ensures Get(form, f) == Coerce(f, raw)
    {
      form := Change(form, f, raw);
    }

    /** `handleSubmit`: create the series from the form minus the nexo
        fields; only when that succeeds, create the nexo for the new series'
        id and the signed-in user (user 1 without one); a failure shows its
        message; loading ends false on every path. */
    method HandleSubmit(authUserId: Option<string>, created: Result<int, Failure>, nexoReply: Result<(), Failure>)
      requires Valid()
      modifies this`loading, this`error, this`success, this`requests
      ensures Valid() && !loading
      ensures created.Err? ==>
        requests == old(requests) + [CreateSerie(SerieData(form))] &&
        error == Some(ErrorText(created.error)) && success == old(success)
      ensures created.Ok? ==>
        requests == old(requests) + [CreateSerie(SerieData(form)),
          CreateNexo(created.value, NexoOwner(authUserId), NexoData(form))]
      ensures created.Ok? && nexoReply.Err? ==>
        error == Some(ErrorText(nexoReply.error)) && success == old(success)
      ensures created.Ok? && nexoReply.Ok? ==> error.None? && success
    {
      loading := true;
      error := None;
      var serieCall := CreateSerie(SerieData(form));
      if created.Err? {
        SeriesFirstAppend(requests, [serieCall]);
        requests := requests + [serieCall];
        error := Some(ErrorText(created.error));
      } else {
        var calls := [serieCall, CreateNexo(created.value, NexoOwner(authUserId), NexoData(form))];
        SeriesFirstAppend(requests, calls);
        requests := requests + calls;
        if nexoReply.Err? {
          error := Some(ErrorText(nexoReply.error));
        } else {
          success := true;
        }
      }
      loading := false;
    }
  }
}
