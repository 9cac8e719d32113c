/** The edit page: loads a series and the user's nexo for it into the form,
    and on submit updates the series and then, when the user has a nexo for
    it, the nexo. */
module EditSerie {
  import opened Wrappers
  import opened JsText
  import opened JsNumber
  import opened JsArray
  import opened Records
  import opened SerieForm

  const LoadError: string := "Error al cargar los datos de la serie"

  /** `user?.id || localStorage.getItem('id')`. */
  function UserIdText(authUserId: Option<string>, storedId: Option<string>): (r: Option<string>)
    ensures Truthy(authUserId) ==> r == authUserId
    ensures !Truthy(authUserId) ==> r == storedId
  {
    if Truthy(authUserId) then authUserId else storedId
  }

  /** `Number(n.series_id) === Number(id) && Number(n.users_id) === Number(userId)`. */
  predicate IsUserNexo(n: Nexo, routeId: string, userId: Option<string>) {
    ToNumber(routeId) == Int(n.seriesId) && ToNumberOrNull(userId) == Int(n.usersId)
  }

  /** The first nexo of the list for this series and this user. */
  function UserNexo(nexos: seq<Nexo>, routeId: string, userId: Option<string>): (r: Option<Nexo>)
    ensures r.Some? <==> exists n :: n in nexos && IsUserNexo(n, routeId, userId)
    ensures r.Some? ==> r.value in nexos && IsUserNexo(r.value, routeId, userId)
    ensures r.Some? ==>
      exists i :: 0 <= i < |nexos| && nexos[i] == r.value &&
        forall j :: 0 <= j < i ==> !IsUserNexo(nexos[j], routeId, userId)
  {
    Find(nexos, (n: Nexo) => IsUserNexo(n, routeId, userId))
  }

  /** The form filled from the fetched series and the user's nexo: missing
      optional texts become '', and without a nexo (or with an empty state)
      the nexo fields default to airing, 0 seen and 0 stars. */
  function FormFor(s: Serie, nexo: Option<Nexo>): (f: Form)
    ensures SerieData(f) == SeriePayload(s.name, Int(s.episodes), s.studio, s.genre,
      s.genre2.GetOr(""), s.genre3.GetOr(""), Int(s.year), s.season, s.img,
      s.img2.GetOr(""), s.splash.GetOr(""))
    ensures nexo.None? ==> NexoData(f) == NexoFields("En emision", Int(0), Int(0))
    ensures nexo.Some? ==>
      var n := nexo.value;
      NexoData(f) == NexoFields(if n.state != "" then n.state else "En emision", Int(n.seen), Int(n.stars))
  {
    Form(s.name, Int(s.episodes), s.studio, s.genre,
         if Truthy(s.genre2) then s.genre2.value else "",
         if Truthy(s.genre3) then s.genre3.value else "",
         Int(s.year), s.season, s.img,
         if Truthy(s.img2) then s.img2.value else "",
         if Truthy(s.splash) then s.splash.value else "",
         if nexo.Some? && nexo.value.state != "" then nexo.value.state else "En emision",
         Int(if nexo.Some? then nexo.value.seen else 0),
         Int(if nexo.Some? then nexo.value.stars else 0))
  }

  /** Submitting the loaded form unchanged sends the series back as it came. */
  lemma LoadedPayload(s: Serie, nexo: Option<Nexo>)
    requires s.genre2.Some? && s.genre3.Some? && s.img2.Some? && s.splash.Some?
    ensures var p := SerieData(FormFor(s, nexo));
      p.name == s.name && p.episodes == Int(s.episodes) && p.year == Int(s.year) &&
      p.genre2 == s.genre2.value && p.genre3 == s.genre3.value &&
      p.img2 == s.img2.value && p.splash == s.splash.value
  {
  }

  class EditSeriePage {
    var form: Form
    var loading: bool
    var submitting: bool
    var error: Option<string>
    var success: bool
    var nexoId: Option<int>
    var requests: seq<Request>

    predicate Valid()
      reads this
    {
      SeriesFirst(requests)
    }

    constructor (currentYear: int)
      ensures form == Initial(currentYear) && loading && !submitting
      ensures error.None? && !success && nexoId.None? && requests == []
      ensures Valid()
    {
      form := Initial(currentYear);
      loading := true;
      submitting := false;
      error := None;
      success := false;
      nexoId := None;
      requests := [];
    }

    /** The load effect. Without a route id nothing happens (the page keeps
        loading). Otherwise, on success the user's nexo id is remembered when
        there is one and the form is filled; on failure the load error is
        shown; loading ends either way. */
    method Load(routeId: Option<string>, fetched: Result<(Serie, seq<Nexo>), Failure>,
                authUserId: Option<string>, storedId: Option<string>)
      modifies this`form, this`loading, this`error, this`nexoId
      ensures !Truthy(routeId) ==>
        form == old(form) && loading == old(loading) && error == old(error) && nexoId == old(nexoId)
      ensures Truthy(routeId) && fetched.Ok? ==>
        var nexo := UserNexo(fetched.value.1, routeId.value, UserIdText(authUserId, storedId));
        form == FormFor(fetched.value.0, nexo) && error == old(error) &&
        nexoId == (if nexo.Some? then Some(nexo.value.id) else old(nexoId))
      ensures Truthy(routeId) && fetched.Err? ==>
        form == old(form) && nexoId == old(nexoId) && error == Some(LoadError)
      ensures Truthy(routeId) ==> !loading
    {
      if !Truthy(routeId) {
        return;
      }
      loading := true;
      if fetched.Ok? {
        var (s, nexos) := fetched.value;
        var userId := UserIdText(authUserId, storedId);
        var nexo := UserNexo(nexos, routeId.value, userId);
        if nexo.Some? {
          nexoId := Some(nexo.value.id);
        }
        form := FormFor(s, nexo);
      } else {
        error := Some(LoadError);
      }
      loading := false;
    }

    /** `handleChange`: only the named field changes. */
    method HandleChange(f: Field, raw: string)
      modifies this`form
      ensures form == Change(old(form), f, raw)
      ensures Get(form, f) == Coerce(f, raw)
    {
      form := Change(form, f, raw);
    }

    /** `handleSubmit`. Without a route id nothing happens. Otherwise the
        series is updated first; the nexo is updated with exactly its three
        fields only when a nonzero nexo id is known and the series update
        succeeded; a failure shows its message; `submitting` ends false. */
    method HandleSubmit(routeId: Option<string>, serieReply: Result<(), Failure>, nexoReply: Result<(), Failure>)
      requires Valid()
      modifies this`submitting, this`error, this`success, this`requests
      ensures Valid()
      ensures !Truthy(routeId) ==>
        submitting == old(submitting) && error == old(error) &&
        success == old(success) && requests == old(requests)
      ensures Truthy(routeId) ==> !submitting
      ensures Truthy(routeId) ==>
        var serieCall := UpdateSerie(ToNumber(routeId.value), SerieData(form), 1);
        var updatesNexo := serieReply.Ok? && nexoId.Some? && nexoId.value != 0;
        requests == old(requests) + [serieCall] +
          (if updatesNexo then [UpdateNexo(nexoId.value, NexoData(form))] else [])
      ensures Truthy(routeId) && serieReply.Err? ==>
        error == Some(ErrorText(serieReply.error)) && success == old(success)
      ensures Truthy(routeId) && serieReply.Ok? && nexoId.Some? && nexoId.value != 0 && nexoReply.Err? ==>
        error == Some(ErrorText(nexoReply.error)) && success == old(success)
      ensures Truthy(routeId) && serieReply.Ok? && !(nexoId.Some? && nexoId.value != 0 && nexoReply.Err?) ==>
        error.None? && success
    {
      if !Truthy(routeId) {
        return;
      }
      submitting := true;
      error := None;
      var serieCall := UpdateSerie(ToNumber(routeId.value), SerieData(form), 1);
      SeriesFirstAppend(requests, [serieCall]);
      var calls := [serieCall];
      if serieReply.Err? {
        requests := requests + calls;
        error := Some(ErrorText(serieReply.error));
      } else if nexoId.Some? && nexoId.value != 0 {
        calls := calls + [UpdateNexo(nexoId.value, NexoData(form))];
        SeriesFirstAppend(requests, calls);
        requests := requests + calls;
        if nexoReply.Err? {
          error := Some(ErrorText(nexoReply.error));
        } else {
          success := true;
        }
      } else {
        requests := requests + calls;
        success := true;
      }
      submitting := false;
    }
  }
}
