/** The trailer modal: recognising YouTube links, rewriting them to the embed
    form, and the modal's open flag. */
module VideoModal {
  import opened JsText

  const EmbedPrefix: string := "https://www.youtube.com/embed/"

  /** `isYouTube`: the link names youtube.com or youtu.be somewhere. */
  function IsYouTube(url: string): (r: bool)
    ensures r <==> (exists i: nat :: OccursAt(url, "youtube.com", i)) || (exists i: nat :: OccursAt(url, "youtu.be", i))
  {
    ContainsIff(url, "youtube.com");
    ContainsIff(url, "youtu.be");
    Contains(url, "youtube.com") || Contains(url, "youtu.be")
  }

  /** `getYouTubeEmbedUrl`: with a `v=` parameter, the text after the first
      `v=` cut at the next `v=` and then at the first `&`; otherwise with a
      `youtu.be/` link, the text after it cut at the next `youtu.be/` and then
      at the first `?`; otherwise the URL as it is. Neither branch can throw,
      because each splits on a separator the URL is known to contain. */
  function EmbedUrl(url: string): (r: string)
    ensures Contains(url, "v=") ==>
      EmbedPrefix <= r && r[|EmbedPrefix|..] <= After(url, "v=") &&
      !Contains(r[|EmbedPrefix|..], "&") && !Contains(r[|EmbedPrefix|..], "v=")
    ensures !Contains(url, "v=") && Contains(url, "youtu.be/") ==>
      EmbedPrefix <= r && r[|EmbedPrefix|..] <= After(url, "youtu.be/") &&
      !Contains(r[|EmbedPrefix|..], "?") && !Contains(r[|EmbedPrefix|..], "youtu.be/")
    ensures !Contains(url, "v=") && !Contains(url, "youtu.be/") ==> r == url
  {
    if Contains(url, "v=") then
      var id := Before(Before(After(url, "v="), "v="), "&");
      PrefixKeepsAbsence(Before(After(url, "v="), "v="), id, "v=");
      assert (EmbedPrefix + id)[|EmbedPrefix|..] == id;
      EmbedPrefix + id
    else if Contains(url, "youtu.be/") then
      var id := Before(Before(After(url, "youtu.be/"), "youtu.be/"), "?");
      PrefixKeepsAbsence(Before(After(url, "youtu.be/"), "youtu.be/"), id, "youtu.be/");
      assert (EmbedPrefix + id)[|EmbedPrefix|..] == id;
      EmbedPrefix + id
    else url
  }

  /** A prefix of a text free of a pattern is free of it too. */
  lemma PrefixKeepsAbsence(s: string, p: string, pat: string)
    requires p <= s && !Contains(s, pat)
    ensures !Contains(p, pat)
  {
    PrefixAvoids(s, pat, |p|);
    assert s[..|p|] == p;
  }

  /** Cutting `rest` at the first `outer` and then at the first `inner` keeps
      the longest piece free of both: it is all of `rest`, or it stops right at
      an `inner` or at an `outer`. */
  lemma {:induction false} CutIsMaximal(rest: string, outer: string, inner: string)
    requires |outer| > 0 && |inner| > 0
    ensures var id := Before(Before(rest, outer), inner);
      id == rest || OccursAt(rest, inner, |id|) || OccursAt(rest, outer, |id|)
  {
    var cut := Before(rest, outer);
    var id := Before(cut, inner);
    if id != cut {
      assert OccursAt(cut, inner, |id|);
      assert cut[|id|..|id| + |inner|] == rest[|id|..|id| + |inner|];
    } else if cut != rest {
      assert OccursAt(rest, outer, |cut|);
    }
  }

  /** The video id taken from a `v=` link is the longest one: it runs to the
      end of the text after `v=`, or stops right at a `&` or at the next `v=`. */
  lemma WatchIdIsMaximal(url: string)
    requires Contains(url, "v=")
    ensures var rest := After(url, "v=");
      var id := EmbedUrl(url)[|EmbedPrefix|..];
      id == rest || OccursAt(rest, "&", |id|) || OccursAt(rest, "v=", |id|)
  {
    var id := Before(Before(After(url, "v="), "v="), "&");
    assert EmbedUrl(url) == EmbedPrefix + id;
    assert (EmbedPrefix + id)[|EmbedPrefix|..] == id;
    CutIsMaximal(After(url, "v="), "v=", "&");
  }

  /** Likewise for a `youtu.be/` link without `v=`: the id runs to the end of
      the text after `youtu.be/`, or stops right at a `?` or at the next
      `youtu.be/`. */
  lemma YoutuIdIsMaximal(url: string)
    requires !Contains(url, "v=") && Contains(url, "youtu.be/")
    ensures var rest := After(url, "youtu.be/");
      var id := EmbedUrl(url)[|EmbedPrefix|..];
      id == rest || OccursAt(rest, "?", |id|) || OccursAt(rest, "youtu.be/", |id|)
  {
    var id := Before(Before(After(url, "youtu.be/"), "youtu.be/"), "?");
    assert EmbedUrl(url) == EmbedPrefix + id;
    assert (EmbedPrefix + id)[|EmbedPrefix|..] == id;
    CutIsMaximal(After(url, "youtu.be/"), "youtu.be/", "?");
  }

  /** Any link that is rewritten becomes an embed link of YouTube itself. */
  lemma RewrittenIsYouTube(url: string)
    requires Contains(url, "v=") || Contains(url, "youtu.be/")
    ensures IsYouTube(EmbedUrl(url))
  {
    EmbedIsYouTube(EmbedUrl(url));
  }

  /** Anything under the embed prefix names the youtube.com host. */
  lemma EmbedIsYouTube(r: string)
    requires EmbedPrefix <= r
    ensures IsYouTube(r)
  {
    assert r[12..23] == EmbedPrefix[12..23] == "youtube.com";
    assert OccursAt(r, "youtube.com", 12);
    ContainsIff(r, "youtube.com");
  }

  /** The modal's visibility. */
  class Modal {
    var open: bool

    /** The modal starts closed. */
    constructor ()
      ensures !open
    {
      open := false;
    }

    method HandleOpen()
      modifies this
      ensures open
    {
      open := true;
    }

    method HandleClose()
      modifies this
      ensures !open
    {
      open := false;
    }
  }
}
