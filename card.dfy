/** A listing card: its state colours, its cover image and where a click on
    it leads. */
module Card {
  import opened Wrappers
  import opened JsText
  import opened JsNumber
  import opened Records
  import SerieDetail

  /** The colours and text of a card's state indicator. */
  datatype StateColor = StateColor(bg: string, glow: string, text: string)

  /** `getStateColor` as written: the airing state's text is the mis-encoded
      literal 'En emisi√≥n' (the UTF-8 bytes of 'ó' read as Mac Roman). */
  function StateColorAsWritten(state: string): (c: StateColor)
    ensures state == "En emision" ==> c == StateColor("bg-green-500", "shadow-green-500/50", "En emisi√≥n")
    ensures state != "En emision" ==> c == StateColorOf(state)
  {
    if state == "En emision" then StateColor("bg-green-500", "shadow-green-500/50", "En emisi√≥n")
    else StateColorOf(state)
  }

  /** The card's text for the airing state differs from the detail page's badge. */
  lemma AsWrittenAiringTextDiffers()
    ensures StateColorAsWritten("En emision").text != SerieDetail.StateInfo("En emision").text
  {
    assert StateColorAsWritten("En emision").text[8] == '√';
    assert SerieDetail.StateInfo("En emision").text[8] == 'ó';
  }

  /** `getStateColor` with the airing text spelled 'En emisión': green, amber
      and blue for the three known states, gray with the state's own text
      otherwise. */
  function StateColorOf(state: string): (c: StateColor)
    ensures state == "En emision" ==> c.bg == "bg-green-500" && c.glow == "shadow-green-500/50"
    ensures state == "Finalizado" ==> c.bg == "bg-amber-500" && c.glow == "shadow-amber-500/50"
    ensures state == "Completado" ==> c.bg == "bg-blue-500" && c.glow == "shadow-blue-500/50"
    ensures state != "En emision" && state != "Finalizado" && state != "Completado" ==>
      c.bg == "bg-gray-500" && c.glow == "shadow-gray-500/50"
    ensures c.text == SerieDetail.StateInfo(state).text
  {
    if state == "En emision" then StateColor("bg-green-500", "shadow-green-500/50", "En emisión")
    else if state == "Finalizado" then StateColor("bg-amber-500", "shadow-amber-500/50", "Finalizado")
    else if state == "Completado" then StateColor("bg-blue-500", "shadow-blue-500/50", "Completado")
    else StateColor("bg-gray-500", "shadow-gray-500/50", state)
  }

  /** The card and the detail page pick the same colour family for a state. */
  lemma CardMatchesBadge(state: string)
    ensures StateColorOf(state).bg == SerieDetail.StateInfo(state).color
  {
  }

  const UploadsBase: string := "http://localhost:4000/Portadas/"

  /** The image `src`: an http `img2` as it is, another non-empty `img2` under
      the uploads folder, else `img`. */
  function ImageSrc(row: Row): (r: string)
    ensures !Truthy(row.img2) ==> r == row.img
    ensures Truthy(row.img2) && Contains(row.img2.value, "http") ==> r == row.img2.value
    ensures Truthy(row.img2) && !Contains(row.img2.value, "http") ==> r == UploadsBase + row.img2.value
  {
    CoverUrl(row.img, row.img2, UploadsBase)
  }

  /** Every card with an uploaded cover shows an http URL. */
  lemma UploadedCoverIsHttp(row: Row)
    requires Truthy(row.img2)
    ensures Contains(ImageSrc(row), "http")
  {
    assert OccursAt(UploadsBase, "http", 0);
    ContainsIff(UploadsBase, "http");
    CoverUrlIsAbsolute(row.img, row.img2, UploadsBase);
  }

  /** `navigate(`/series/${id}`)`. */
  function ClickTarget(id: int): (r: string)
    ensures |r| > 8 && r[..8] == "/series/"
  {
    "/series/" + IntToString(id)
  }

  /** The detail page reads the clicked series' id back from the path, so it
      looks up exactly the nexos of that series. */
  lemma ClickTargetCarriesId(id: int, n: Nexo)
    ensures var param := ClickTarget(id)[8..];
      Truthy(Some(param)) && ToNumber(param) == Int(id) &&
      (ToNumber(param) == Int(n.seriesId) <==> n.seriesId == id)
  {
    assert ClickTarget(id)[8..] == IntToString(id);
    ToNumberRoundTrip(id);
  }
}
