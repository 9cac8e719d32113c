/** The two records the back end serves, a series of the catalog and a nexo
    (one user's viewing record for one series), and the joined row the listing
    and the cards display. The optional text columns may come back null. */
module Records {
  import opened Wrappers
  import opened JsText

  datatype Serie = Serie(
    id: int,
    name: string,
    episodes: int,
    studio: string,
    genre: string,
    genre2: Option<string>,
    genre3: Option<string>,
    year: int,
    season: string,
    img: string,
    img2: Option<string>,
    splash: Option<string>,
    status: int,
    createdAt: string,
    updatedAt: string)

  datatype Nexo = Nexo(
    id: int,
    seriesId: int,
    usersId: int,
    state: string,
    seen: int,
    stars: int,
    createdAt: string,
    updatedAt: string)

  /** A series joined with its nexo: every series field plus the nexo's
      `series_id`, `users_id`, `state`, `seen` and `stars`. */
  datatype Row = Row(
    id: int,
    name: string,
    episodes: int,
    studio: string,
    genre: string,
    genre2: Option<string>,
    genre3: Option<string>,
    year: int,
    season: string,
    img: string,
    img2: Option<string>,
    splash: Option<string>,
    status: int,
    createdAt: string,
    updatedAt: string,
    seriesId: int,
    usersId: int,
    state: string,
    seen: int,
    stars: int)

  /** The series fields of a row. */
  function SerieOf(r: Row): Serie {
    Serie(r.id, r.name, r.episodes, r.studio, r.genre, r.genre2, r.genre3, r.year,
          r.season, r.img, r.img2, r.splash, r.status, r.createdAt, r.updatedAt)
  }

  /** `{ ...nexo, ...serie }`: the nexo's fields, overridden by the series' fields
      where both have one (`id`, `created_at`, `updated_at`). */
  function Merge(n: Nexo, s: Serie): (r: Row)
    ensures SerieOf(r) == s
    ensures r.seriesId == n.seriesId && r.usersId == n.usersId
    ensures r.state == n.state && r.seen == n.seen && r.stars == n.stars
  {
    Row(s.id, s.name, s.episodes, s.studio, s.genre, s.genre2, s.genre3, s.year,
        s.season, s.img, s.img2, s.splash, s.status, s.createdAt, s.updatedAt,
        n.seriesId, n.usersId, n.state, n.seen, n.stars)
  }

  /** Merging is determined by the series and the nexo's own fields: two rows
      that agree on these are the same row. */
  lemma MergeDetermined(r: Row, n: Nexo, s: Serie)
    requires SerieOf(r) == s
    requires r.seriesId == n.seriesId && r.usersId == n.usersId
    requires r.state == n.state && r.seen == n.seen && r.stars == n.stars
    ensures r == Merge(n, s)
  {
  }

  /** The cover image choice shared by the card and the detail page:
      `img2 ? (img2.includes('http') ? img2 : uploads + img2) : img`. */
  function CoverUrl(img: string, img2: Option<string>, uploads: string): (r: string)
    ensures !Truthy(img2) ==> r == img
    ensures Truthy(img2) && Contains(img2.value, "http") ==> r == img2.value
    ensures Truthy(img2) && !Contains(img2.value, "http") ==> r == uploads + img2.value
  {
    if Truthy(img2) then
      if Contains(img2.value, "http") then img2.value else uploads + img2.value
    else img
  }

  /** When an uploaded cover is set and the upload location is an http URL,
      the chosen cover is an http URL too, and an uploaded file name is kept
      whole at the end of it. */
  lemma {:induction false} CoverUrlIsAbsolute(img: string, img2: Option<string>, uploads: string)
    requires Truthy(img2) && Contains(uploads, "http")
    ensures Contains(CoverUrl(img, img2, uploads), "http")
    ensures !Contains(img2.value, "http") ==>
      var r := CoverUrl(img, img2, uploads); r[|r| - |img2.value|..] == img2.value
  {
    var r := CoverUrl(img, img2, uploads);
    if !Contains(img2.value, "http") {
      var j := IndexOf(uploads, "http").value;
      assert r == uploads + img2.value;
      assert r[j..j + 4] == uploads[j..j + 4];
      assert OccursAt(r, "http", j);
      ContainsIff(r, "http");
      assert r[|r| - |img2.value|..] == img2.value;
    }
  }
}
