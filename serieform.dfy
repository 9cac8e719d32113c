/** The series form shared by the add and edit pages: its fields, the change
    handler's coercion of numeric inputs, the split of a submitted form into
    the series payload and the nexo fields, and the service calls the pages
    make. */
module SerieForm {
  import opened Wrappers
  import opened JsNumber

  /** The form's inputs, by their `name` attribute. */
  datatype Field =
    | Name | Episodes | Studio | Genre | Genre2 | Genre3 | Year | Season
    | Img | Img2 | Splash | State | Seen | Stars

  /** `['episodes', 'year', 'seen', 'stars']`. */
  predicate IsNumeric(f: Field) {
    f == Episodes || f == Year || f == Seen || f == Stars
  }

  /** What a field holds: text, or the number `Number(value)` gave. */
  datatype Value = Text(text: string) | Number(num: Num)

  datatype Form = Form(
    name: string, episodes: Num, studio: string, genre: string, genre2: string,
    genre3: string, year: Num, season: string, img: string, img2: string,
    splash: string, state: string, seen: Num, stars: Num)

  function Get(form: Form, f: Field): (v: Value)
    ensures v.Number? <==> IsNumeric(f)
  {
    match f
    case Name => Text(form.name)
    case Episodes => Number(form.episodes)
    case Studio => Text(form.studio)
    case Genre => Text(form.genre)
    case Genre2 => Text(form.genre2)
    case Genre3 => Text(form.genre3)
    case Year => Number(form.year)
    case Season => Text(form.season)
    case Img => Text(form.img)
    case Img2 => Text(form.img2)
    case Splash => Text(form.splash)
    case State => Text(form.state)
    case Seen => Number(form.seen)
    case Stars => Number(form.stars)
  }

  /** `numericFields.includes(name) ? Number(value) : value`. */
  function Coerce(f: Field, raw: string): (v: Value)
    ensures v.Number? <==> IsNumeric(f)
    ensures v.Text? ==> v.text == raw
    ensures v.Number? ==> v.num == ToNumber(raw)
  {
    if IsNumeric(f) then Number(ToNumber(raw)) else Text(raw)
  }

  /** `{ ...prev, [name]: coerced }`. */
  function Change(form: Form, f: Field, raw: string): (r: Form)
    ensures Get(r, f) == Coerce(f, raw)
    ensures forall g :: g != f ==> Get(r, g) == Get(form, g)
  {
    var v := Coerce(f, raw);
    match f
    case Name => form.(name := v.text)
    case Episodes => form.(episodes := v.num)
    case Studio => form.(studio := v.text)
    case Genre => form.(genre := v.text)
    case Genre2 => form.(genre2 := v.text)
    case Genre3 => form.(genre3 := v.text)
    case Year => form.(year := v.num)
    case Season => form.(season := v.text)
    case Img => form.(img := v.text)
    case Img2 => form.(img2 := v.text)
    case Splash => form.(splash := v.text)
    case State => form.(state := v.text)
    case Seen => form.(seen := v.num)
    case Stars => form.(stars := v.num)
  }

  /** Typing a number into a numeric field stores that number. */
  lemma ChangeNumber(form: Form, f: Field, n: int)
    requires IsNumeric(f)
    ensures Get(Change(form, f, IntToString(n)), f) == Number(Int(n))
  {
    ToNumberRoundTrip(n);
  }

  /** The form both pages start from: 12 episodes, the current year, winter,
      airing, nothing seen, no stars, every text empty. */
  function Initial(currentYear: int): (r: Form)
    ensures r.episodes == Int(12) && r.year == Int(currentYear)
    ensures r.season == "Invierno" && r.state == "En emision"
    ensures r.seen == Int(0) && r.stars == Int(0)
    ensures forall f :: !IsNumeric(f) && f != Season && f != State ==> Get(r, f) == Text("")
  {
    Form("", Int(12), "", "", "", "", Int(currentYear), "Invierno", "", "", "", "En emision", Int(0), Int(0))
  }

  /** The form minus `state`, `seen` and `stars`. */
  datatype SeriePayload = SeriePayload(
    name: string, episodes: Num, studio: string, genre: string, genre2: string,
    genre3: string, year: Num, season: string, img: string, img2: string, splash: string)

  /** `{ state, seen, stars }`. */
  datatype NexoFields = NexoFields(state: string, seen: Num, stars: Num)

  /** `const { state, seen, stars, ...serieData } = formData`. */
  function SerieData(form: Form): SeriePayload {
    SeriePayload(form.name, form.episodes, form.studio, form.genre, form.genre2,
                 form.genre3, form.year, form.season, form.img, form.img2, form.splash)
  }

  function NexoData(form: Form): NexoFields {
    NexoFields(form.state, form.seen, form.stars)
  }

  /** The form a payload and nexo fields come from. */
  function Join(p: SeriePayload, n: NexoFields): Form {
    Form(p.name, p.episodes, p.studio, p.genre, p.genre2, p.genre3, p.year,
         p.season, p.img, p.img2, p.splash, n.state, n.seen, n.stars)
  }

  /** The split loses and invents nothing: the two parts make the form back,
      and each part is what it was made from. */
  lemma SplitJoin(form: Form, p: SeriePayload, n: NexoFields)
    ensures Join(SerieData(form), NexoData(form)) == form
    ensures SerieData(Join(p, n)) == p && NexoData(Join(p, n)) == n
  {
  }

  /** Editing a nexo field leaves the series payload alone, and editing a
      series field leaves the nexo fields alone. */
  lemma ChangeTouchesOnePart(form: Form, f: Field, raw: string)
    ensures f == State || f == Seen || f == Stars ==> SerieData(Change(form, f, raw)) == SerieData(form)
    ensures f != State && f != Seen && f != Stars ==> NexoData(Change(form, f, raw)) == NexoData(form)
  {
  }

  /** `YEARS`: thirty consecutive years, counting down from the current one. */
  function YearChoices(currentYear: int): (r: seq<int>)
    ensures |r| == 30 && r[0] == currentYear && r[29] == currentYear - 29
    ensures forall i :: 0 < i < |r| ==> r[i] == r[i - 1] - 1
  {
    seq(30, i => currentYear - i)
  }

  /** What a failed call leaves in `error`: the message of an `Error`, or
      'Error desconocido' for anything else thrown. */
  datatype Failure = ErrorObject(message: string) | OtherThrown

  function ErrorText(e: Failure): (r: string)
    ensures e.ErrorObject? ==> r == e.message
    ensures e.OtherThrown? ==> r == "Error desconocido"
  {
    if e.ErrorObject? then e.message else "Error desconocido"
  }

  /** A call the pages make to the back end; `updateSerie` sends `status: 1`
      with the payload. */
  datatype Request =
    | UpdateSerie(serieId: Num, body: SeriePayload, status: int)
    | UpdateNexo(nexoId: int, fields: NexoFields)
    | CreateSerie(body: SeriePayload)
    | CreateNexo(seriesId: int, usersId: Num, fields: NexoFields)

  /** Every nexo call comes right after the series call of the same submit. */
  predicate SeriesFirst(log: seq<Request>) {
    forall i :: 0 <= i < |log| && (log[i].UpdateNexo? || log[i].CreateNexo?) ==>
      i > 0 && (log[i].UpdateNexo? ==> log[i - 1].UpdateSerie?) &&
      (log[i].CreateNexo? ==> log[i - 1].CreateSerie?)
  }

  /** Appending a series call, optionally followed by its nexo call, keeps
      the series-first order. */
  lemma {:induction false} SeriesFirstAppend(log: seq<Request>, calls: seq<Request>)
    requires SeriesFirst(log)
    requires |calls| == 1 || |calls| == 2
    requires calls[0].UpdateSerie? || calls[0].CreateSerie?
    requires |calls| == 2 ==>
      (calls[0].UpdateSerie? && calls[1].UpdateNexo?) || (calls[0].CreateSerie? && calls[1].CreateNexo?)
    ensures SeriesFirst(log + calls)
  {
    var l := log + calls;
    forall i | 0 <= i < |l| && (l[i].UpdateNexo? || l[i].CreateNexo?)
      ensures i > 0 && (l[i].UpdateNexo? ==> l[i - 1].UpdateSerie?) &&
        (l[i].CreateNexo? ==> l[i - 1].CreateSerie?)
    {
      if i < |log| {
        assert l[i] == log[i];
        assert l[i - 1] == log[i - 1];
      } else {
        assert l[i] == calls[i - |log|];
        assert i - |log| == 1;
        assert l[i - 1] == calls[0];
      }
    }
  }
}
