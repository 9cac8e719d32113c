/** The series detail page: the signed-in user's nexo for the shown series,
    the state badge, the cover image, the genre list and the trailer link. */
module SerieDetail {
  import opened Wrappers
  import opened JsText
  import opened JsNumber
  import opened JsArray
  import opened Records

  /** `filteredNexo`: null before the nexos are loaded or without a route id
      or stored user id; otherwise the `find` result, undefined when nothing
      matches. */
  datatype NexoLookup = NotReady | NotFound | Found(nexo: Nexo)

  /** `Number(series_id) === Number(id) && Number(users_id) === Number(userId)`;
      NaN equals nothing. */
  predicate MatchesIds(n: Nexo, routeId: string, storedId: string) {
    ToNumber(routeId) == Int(n.seriesId) && ToNumber(storedId) == Int(n.usersId)
  }

  function FilteredNexo(nexos: Option<seq<Nexo>>, routeId: Option<string>, storedId: Option<string>): (r: NexoLookup)
    ensures r.NotReady? <==> nexos.None? || !Truthy(routeId) || !Truthy(storedId)
    ensures r.Found? ==> r.nexo in nexos.value && MatchesIds(r.nexo, routeId.value, storedId.value)
    ensures r.Found? ==> forall j :: 0 <= j < |nexos.value| && nexos.value[j] != r.nexo ==>
      MatchesIds(nexos.value[j], routeId.value, storedId.value) ==>
        exists k :: 0 <= k < j && nexos.value[k] == r.nexo
    ensures r.NotFound? ==> forall n :: n in nexos.value ==> !MatchesIds(n, routeId.value, storedId.value)
  {
    if nexos.None? || !Truthy(routeId) then NotReady
    else if !Truthy(storedId) then NotReady
    else match FindIndex(nexos.value, (n: Nexo) => MatchesIds(n, routeId.value, storedId.value))
      case None => NotFound
      case Some(i) => Found(nexos.value[i])
  }

  /** The badge of `getStateInfo`. */
  datatype Badge = Badge(color: string, text: string, icon: string)

  /** `getStateInfo`: the three known states have fixed badges; any other
      state is gray, shows its own text and the icon '•'. */
  function StateInfo(state: string): (b: Badge)
    ensures state == "En emision" ==> b == Badge("bg-green-500", "En emisión", "📡")
    ensures state == "Finalizado" ==> b == Badge("bg-amber-500", "Finalizado", "✓")
    ensures state == "Completado" ==> b == Badge("bg-blue-500", "Completado", "★")
    ensures state != "En emision" && state != "Finalizado" && state != "Completado" ==>
      b == Badge("bg-gray-500", state, "•")
  {
    if state == "En emision" then Badge("bg-green-500", "En emisión", "📡")
    else if state == "Finalizado" then Badge("bg-amber-500", "Finalizado", "✓")
    else if state == "Completado" then Badge("bg-blue-500", "Completado", "★")
    else Badge("bg-gray-500", state, "•")
  }

  /** `filteredNexo?.state || ''`. */
  function ShownState(lookup: NexoLookup): (s: string)
    ensures lookup.Found? ==> s == lookup.nexo.state
    ensures !lookup.Found? ==> s == ""
  {
    if lookup.Found? then lookup.nexo.state else ""
  }

  /** Without the user's nexo the badge is the gray one with empty text. */
  lemma NoNexoBadge(lookup: NexoLookup)
    requires !lookup.Found?
    ensures StateInfo(ShownState(lookup)) == Badge("bg-gray-500", "", "•")
  {
  }

  /** Every badge text is the state itself except the accented 'En emisión'. */
  lemma BadgeText(state: string)
    ensures StateInfo(state).text == (if state == "En emision" then "En emisión" else state)
  {
  }

  /** `imageUrl`: the API base followed by '/api/Portadas/' for uploaded covers. */
  function ImageUrl(s: Serie, apiBase: string): (r: string)
    ensures !Truthy(s.img2) ==> r == s.img
    ensures Truthy(s.img2) && Contains(s.img2.value, "http") ==> r == s.img2.value
    ensures Truthy(s.img2) && !Contains(s.img2.value, "http") ==> r == apiBase + "/api/Portadas/" + s.img2.value
  {
    CoverUrl(s.img, s.img2, apiBase + "/api/Portadas/")
  }

  /** `[genre, genre2, genre3].filter(Boolean)`. */
  function Genres(s: Serie): (r: seq<string>)
    ensures |r| <= 3
    ensures forall g :: g in r ==> g != ""
    ensures s.genre != "" ==> |r| > 0 && r[0] == s.genre
    ensures forall g :: g in r <==> g != "" && (g == s.genre || Some(g) == s.genre2 || Some(g) == s.genre3)
    ensures r == (if s.genre != "" then [s.genre] else []) +
                 (if Truthy(s.genre2) then [s.genre2.value] else []) +
                 (if Truthy(s.genre3) then [s.genre3.value] else [])
  {
    var all := [Some(s.genre), s.genre2, s.genre3];
    var kept := Filter(all, Truthy);
    var r := Values(kept);
    assert r == Text(Some(s.genre)) + Text(s.genre2) + Text(s.genre3) by {
      FilterThree(Some(s.genre), s.genre2, s.genre3);
      ValuesAppend(Kept(Some(s.genre)) + Kept(s.genre2), Kept(s.genre3));
      ValuesAppend(Kept(Some(s.genre)), Kept(s.genre2));
      ValuesKept(Some(s.genre));
      ValuesKept(s.genre2);
      ValuesKept(s.genre3);
    }
    TextsFacts(s);
    r
  }

  /** What the three kept parts of a series' genres say, one part at a time. */
  lemma TextsFacts(s: Serie)
    ensures var r := Text(Some(s.genre)) + Text(s.genre2) + Text(s.genre3);
      && |r| <= 3
      && (s.genre != "" ==> |r| > 0 && r[0] == s.genre)
      && (forall g :: g in r <==> g != "" && (g == s.genre || Some(g) == s.genre2 || Some(g) == s.genre3))
      && r == (if s.genre != "" then [s.genre] else []) +
              (if Truthy(s.genre2) then [s.genre2.value] else []) +
              (if Truthy(s.genre3) then [s.genre3.value] else [])
  {
    var t1, t2, t3 := Text(Some(s.genre)), Text(s.genre2), Text(s.genre3);
    assert forall g :: g in t1 + t2 + t3 <==> g in t1 || g in t2 || g in t3;
  }

  /** The text of `o` alone when it is truthy, nothing otherwise. */
  function Text(o: Option<string>): (r: seq<string>)
    ensures r == [] || (Truthy(o) && r == [o.value])
  {
    if Truthy(o) then [o.value] else []
  }

  lemma ValuesKept(o: Option<string>)
    ensures Values(Kept(o)) == Text(o)
  {
  }

  /** `o` alone when it is truthy, nothing otherwise. */
  function Kept(o: Option<string>): (r: seq<Option<string>>)
    ensures r == [] || (r == [o] && Truthy(o))
  {
    if Truthy(o) then [o] else []
  }

  /** `[x, y, z].filter(Boolean)` keeps the truthy ones in order. */
  lemma FilterThree(x: Option<string>, y: Option<string>, z: Option<string>)
    ensures Filter([x, y, z], Truthy) == Kept(x) + Kept(y) + Kept(z)
  {
    var all, t1, t2 := [x, y, z], [y, z], [z];
    assert all[1..] == t1 && t1[1..] == t2 && t2[1..] == [];
    assert Filter(t2, Truthy) == Kept(z);
    assert Filter(t1, Truthy) == Kept(y) + Kept(z);
  }

  /** The texts inside present options. */
  function Values(xs: seq<Option<string>>): (r: seq<string>)
    requires forall x :: x in xs ==> x.Some?
    ensures |r| == |xs|
    ensures forall i :: 0 <= i < |xs| ==> r[i] == xs[i].value
    ensures forall g :: g in r <==> Some(g) in xs
  {
    if xs == [] then [] else [xs[0].value] + Values(xs[1..])
  }

  lemma {:induction false} ValuesAppend(xs: seq<Option<string>>, ys: seq<Option<string>>)
    requires forall x :: x in xs + ys ==> x.Some?
    ensures Values(xs + ys) == Values(xs) + Values(ys)
  {
    if xs != [] {
      assert (xs + ys)[1..] == xs[1..] + ys;
      ValuesAppend(xs[1..], ys);
    } else {
      assert xs + ys == ys;
    }
  }

  /** The genres keep the order genre, genre2, genre3. */
  lemma GenresInOrder(s: Serie)
    requires s.genre != "" && Truthy(s.genre2) && Truthy(s.genre3)
    ensures Genres(s) == [s.genre, s.genre2.value, s.genre3.value]
  {
    var all := [Some(s.genre), s.genre2, s.genre3];
    FilterKeepsAll(all, Truthy);
    var r := Genres(s);
    assert |r| == 3 && r[0] == s.genre && r[1] == s.genre2.value && r[2] == s.genre3.value;
  }

  /** The trailer link: the `embed_url` with its first '-nocookie' removed. */
  function TrailerUrl(embedUrl: string): (r: string)
    ensures !Contains(embedUrl, "-nocookie") ==> r == embedUrl
    ensures Contains(embedUrl, "-nocookie") ==> |r| == |embedUrl| - 9
    ensures Contains(embedUrl, "-nocookie") ==>
      var i := IndexOf(embedUrl, "-nocookie").value;
      r == embedUrl[..i] + embedUrl[i + 9..]
  {
    ReplaceFirst(embedUrl, "-nocookie", "")
  }
}
