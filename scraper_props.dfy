/** What the scraper promises, stated over the functions that specify it:
    the attachment loop, record assembly, and scraping texts that name no
    entity. */
module ScraperProperties {
  import opened PyJson
  import opened Pattern
  import opened Buckets
  import opened Scraper

  // ---------------------------------------------------------------------
  // The attachment loop

  /** The loop over `xs + ys` is the loop over `xs` followed by the loop
      over `ys` from where it left off. */
  lemma {:induction false} NormalizeSplit(session: Session, n: Normalized, xs: seq<Json>, ys: seq<Json>)
    requires DistinctKeys(n.buckets)
    ensures DistinctKeys(NormalizeFrom(session, n, xs).buckets)
    ensures NormalizeFrom(session, n, xs + ys) == NormalizeFrom(session, NormalizeFrom(session, n, xs), ys)
    decreases |ys|
  {
    if ys == [] {
      assert xs + ys == xs;
    } else {
      var init := ys[..|ys| - 1];
      assert (xs + ys)[..|xs + ys| - 1] == xs + init;
      assert (xs + ys)[|xs + ys| - 1] == ys[|ys| - 1];
      NormalizeSplit(session, n, xs, init);
    }
  }

  /** Error isolation: an attachment whose processing raises is logged once,
      with the attachment; the buckets it reached stay as they were (only a
      link's own URL, appended before the failure, remains), and the loop
      goes on with the next attachment. */
  lemma FaultyAttachmentSkipped(session: Session, pre: seq<Json>, a: Json, post: seq<Json>)
    requires AttachmentBody(session, Normalize(session, pre).buckets, a).Raised?
    ensures var n := Normalize(session, pre);
      var o := AttachmentBody(session, n.buckets, a);
      Normalize(session, pre + [a] + post) ==
        NormalizeFrom(session, Normalized(o.buckets, n.log + [AttachmentError(a, o.error)]), post) &&
      Grows(n.buckets, o.buckets) &&
      forall k | k != "link" :: Lookup(o.buckets, k) == Lookup(n.buckets, k)
  {
    var start := Normalized([], []);
    NormalizeSplit(session, start, pre + [a], post);
    assert (pre + [a])[..|pre + [a]| - 1] == pre;
  }

  /** Every attachment prints at most one line. */
  lemma {:induction false} LogBound(session: Session, n: Normalized, atts: seq<Json>)
    requires DistinctKeys(n.buckets)
    ensures |n.log| <= |NormalizeFrom(session, n, atts).log| <= |n.log| + |atts|
    ensures NormalizeFrom(session, n, atts).log[..|n.log|] == n.log
  {
    if atts != [] {
      var init := atts[..|atts| - 1];
      LogBound(session, n, init);
      var m := NormalizeFrom(session, n, init);
      var r := Step(session, m, atts[|atts| - 1]);
      assert r.log[..|n.log|] == r.log[..|m.log|][..|n.log|];
    }
  }

  /** A nested video resolves to exactly one URL. */
  lemma NestedVideoSingle(session: Session, media: Json)
    requires NestedVideoUrls(session, media).Ok?
    ensures |NestedVideoUrls(session, media).value| == 1
  {
    var owner := Item(media, "owner_id").value;
    var local := Item(media, "id").value;
    var ids := Findall("video" + Str(owner) + "_" + Str(local), Video);
    var recs := ScrapeVideosSpec(session, "video" + Str(owner) + "_" + Str(local)).value;
    assert recs != [];
    assert ids != [];
    var api := session.transport(VideoRequest(session, ids)).value;
    var items := ResponseItems(api).value;
    NestedVideoPlayer(session, media, ids, api, items);
  }

  /** The URL a nested video resolves to is the `player` of the first item
      the `video.get` lookup returns (`""` when that item has none). */
  lemma NestedVideoPlayer(session: Session, media: Json, ids: seq<string>, api: Json, items: seq<Json>)
    requires Item(media, "owner_id").Ok? && Item(media, "id").Ok?
    requires ids == Findall("video" + Str(Item(media, "owner_id").value) + "_" + Str(Item(media, "id").value), Video)
    requires ids != [] && session.transport(VideoRequest(session, ids)) == Ok(api)
    requires ResponseItems(api) == Ok(items) && items != [] && MapAll(items, VideoRecord).Ok?
    ensures NestedVideoUrls(session, media) == Ok([Get(items[0], "player", JString("")).value])
  {
    var url := "video" + Str(Item(media, "owner_id").value) + "_" + Str(Item(media, "id").value);
    var recs := MapAll(items, VideoRecord).value;
    assert ScrapeVideosSpec(session, url) == Ok(recs);
    assert VideoRecord(items[0]) == Ok(recs[0]);
    VideoRecordFields(items[0]);
    var player := Get(items[0], "player", JString("")).value;
    var att := recs[0].attachments;
    assert att == [("video", [player])];
    assert Keys(att)[0] == "video";
    assert ("video", LookupOr(att, "video", [JString("")])) in att;
  }

  /** A lookup that returns no video fails on `[0]` with IndexError. */
  lemma NestedVideoNotFound(session: Session, media: Json)
    requires Item(media, "owner_id").Ok? && Item(media, "id").Ok?
    requires ScrapeVideosSpec(session, "video" + Str(Item(media, "owner_id").value) + "_" + Str(Item(media, "id").value)) == Ok([])
    ensures NestedVideoUrls(session, media) == Err(IndexError)
  {
  }

  /** A `video` attachment adds the one URL its nested lookup resolves to
      at the end of the `video` bucket, which it creates if needed, and
      touches nothing else. */
  lemma VideoAttachmentAddsOne(session: Session, n: Normalized, a: Json, media: Json)
    requires DistinctKeys(n.buckets)
    requires Item(a, "type") == Ok(JString("video")) && Item(a, "video") == Ok(media)
    requires NestedVideoUrls(session, media).Ok?
    ensures var r := Step(session, n, a);
      r.log == n.log && "video" in Keys(r.buckets) &&
      Lookup(r.buckets, "video") == Lookup(n.buckets, "video") + NestedVideoUrls(session, media).value &&
      |Lookup(r.buckets, "video")| == |Lookup(n.buckets, "video")| + 1 &&
      forall k | k != "video" :: Lookup(r.buckets, k) == Lookup(n.buckets, k)
  {
    NestedVideoSingle(session, media);
  }

  /** A `link` attachment with a URL appends that URL to the `link` bucket,
      whatever its embedded media does. */
  lemma LinkAppendsUrl(session: Session, n: Normalized, a: Json, link: Json, url: Json)
    requires DistinctKeys(n.buckets)
    requires Item(a, "type") == Ok(JString("link")) && Item(a, "link") == Ok(link)
    requires Item(link, "url") == Ok(url)
    ensures var r := Step(session, n, a);
      "link" in Keys(r.buckets) && Lookup(r.buckets, "link") == Lookup(n.buckets, "link") + [url]
  {
    assert AttachmentBody(session, n.buckets, a) == AddLink(session, n.buckets, link);
    AddLinkAppendsUrl(session, n.buckets, link, url);
  }

  lemma AddLinkAppendsUrl(session: Session, b: Buckets, link: Json, url: Json)
    requires DistinctKeys(b) && Item(link, "url") == Ok(url)
    ensures var o := AddLink(session, b, link);
      "link" in Keys(o.buckets) && Lookup(o.buckets, "link") == Lookup(b, "link") + [url]
  {
    var b2 := Append(Touch(b, "link"), "link", url);
    assert Lookup(b2, "link") == Lookup(b, "link") + [url];
  }

  /** A link with an embedded photo: the link's URL goes to `link`, then
      the photo is handled as a photo-like payload of kind `photo`, so the
      URL of its last size goes to `photo`. */
  lemma LinkWithPhoto(session: Session, b: Buckets, link: Json, url: Json, photo: Json,
                      sizes: seq<Json>, u: Json)
    requires DistinctKeys(b) && Item(link, "url") == Ok(url)
    requires Item(link, "photo") == Ok(photo) && photo.JObject?
    requires Item(SizedPayload(photo), "sizes") == Ok(JArray(sizes)) && sizes != []
    requires Item(sizes[|sizes| - 1], "url") == Ok(u)
    ensures var o := AddLink(session, b, link);
      o.Done? && o.log == [] &&
      Lookup(o.buckets, "link") == Lookup(b, "link") + [url] &&
      Lookup(o.buckets, "photo") == Lookup(b, "photo") + [u] &&
      forall k | k != "link" && k != "photo" :: Lookup(o.buckets, k) == Lookup(b, k)
  {
    var b2 := Append(Touch(b, "link"), "link", url);
    PhotoLikeTakesLastSize(b2, "photo", photo, sizes, u);
  }

  /** A link with an embedded video (and no photo): the link's URL goes to
      `link`, then the `video` bucket is created and extended by what the
      nested lookup resolves to; a failing lookup raises and leaves both. */
  lemma LinkWithVideo(session: Session, b: Buckets, link: Json, url: Json, media: Json)
    requires DistinctKeys(b) && Item(link, "url") == Ok(url)
    requires !HasKey(link.fields, "photo") && Item(link, "video") == Ok(media)
    ensures var o := AddLink(session, b, link);
      (o.Done? <==> NestedVideoUrls(session, media).Ok?) &&
      "video" in Keys(o.buckets) &&
      Lookup(o.buckets, "link") == Lookup(b, "link") + [url] &&
      (o.Done? ==> (o.log == [] &&
        Lookup(o.buckets, "video") == Lookup(b, "video") + NestedVideoUrls(session, media).value)) &&
      (o.Raised? ==> (o.error == NestedVideoUrls(session, media).error &&
        Lookup(o.buckets, "video") == Lookup(b, "video"))) &&
      forall k | k != "link" && k != "video" :: Lookup(o.buckets, k) == Lookup(b, k)
  {
    var b2 := Append(Touch(b, "link"), "link", url);
    assert Lookup(b2, "video") == Lookup(b, "video");
  }

  /** A link with neither an embedded photo nor an embedded video adds its
      URL and nothing else. */
  lemma PlainLink(session: Session, n: Normalized, a: Json, link: Json, url: Json)
    requires DistinctKeys(n.buckets)
    requires Item(a, "type") == Ok(JString("link")) && Item(a, "link") == Ok(link)
    requires Item(link, "url") == Ok(url)
    requires !HasKey(link.fields, "photo") && !HasKey(link.fields, "video")
    ensures var r := Step(session, n, a);
      r.log == n.log && Keys(r.buckets) == Keys(Touch(n.buckets, "link")) &&
      Lookup(r.buckets, "link") == Lookup(n.buckets, "link") + [url] &&
      forall k | k != "link" :: Lookup(r.buckets, k) == Lookup(n.buckets, k)
  {
  }

  /** The payload whose sizes are read: the `thumb` when there is one. */
  function SizedPayload(p: Json): (q: Json) {
    if p.JObject? && HasKey(p.fields, "thumb") then Item(p, "thumb").value else p
  }

  /** A photo-like payload (or its `thumb`) with a non-empty `sizes` list
      whose last entry has a `url` adds that URL to the bucket named after
      the kind, and nothing else. */
  lemma PhotoLikeTakesLastSize(b: Buckets, kind: string, p: Json, sizes: seq<Json>, url: Json)
    requires DistinctKeys(b) && p.JObject?
    requires Item(SizedPayload(p), "sizes") == Ok(JArray(sizes)) && sizes != []
    requires Item(sizes[|sizes| - 1], "url") == Ok(url)
    ensures var o := AddPhotoLike(b, kind, p);
      o.Done? && o.log == [] && kind in Keys(o.buckets) &&
      Lookup(o.buckets, kind) == Lookup(b, kind) + [url] &&
      forall k | k != kind :: Lookup(o.buckets, k) == Lookup(b, k)
  {
    var q := SizedPayload(p);
    assert Contains(q, "sizes") == Ok(true);
    assert LargestSizeUrl(q) == Ok(url);
  }

  /** Without `sizes`, a photo-like payload changes nothing and prints
      nothing: no bucket is created. */
  lemma PhotoLikeWithoutSizes(b: Buckets, kind: string, p: Json)
    requires DistinctKeys(b) && p.JObject? && SizedPayload(p).JObject?
    requires !HasKey(SizedPayload(p).fields, "sizes")
    ensures AddPhotoLike(b, kind, p) == Done(b, [])
  {
  }

  /** With `sizes` present but unusable (empty, not a list, or a last entry
      without `url`), the inner handler prints one line and the bucket is
      left created but unchanged. */
  lemma PhotoLikeBadSizes(b: Buckets, kind: string, p: Json)
    requires DistinctKeys(b) && p.JObject? && SizedPayload(p).JObject?
    requires HasKey(SizedPayload(p).fields, "sizes") && LargestSizeUrl(SizedPayload(p)).Err?
    ensures var o := AddPhotoLike(b, kind, p);
      o == Done(Touch(b, kind), [ImageError(LargestSizeUrl(SizedPayload(p)).error)]) &&
      kind in Keys(o.buckets) && forall k :: Lookup(o.buckets, k) == Lookup(b, k)
  {
  }

  /** Any type other than `video` and `link` is treated as a photo-like
      payload and fills a bucket under its own name. */
  lemma OtherTypeFillsOwnBucket(session: Session, n: Normalized, a: Json, t: string, p: Json,
                                sizes: seq<Json>, url: Json)
    requires DistinctKeys(n.buckets) && t != "video" && t != "link"
    requires Item(a, "type") == Ok(JString(t)) && Item(a, t) == Ok(p) && p.JObject?
    requires Item(SizedPayload(p), "sizes") == Ok(JArray(sizes)) && sizes != []
    requires Item(sizes[|sizes| - 1], "url") == Ok(url)
    ensures var r := Step(session, n, a);
      r.log == n.log && t in Keys(r.buckets) &&
      Lookup(r.buckets, t) == Lookup(n.buckets, t) + [url] &&
      forall k | k != t :: Lookup(r.buckets, k) == Lookup(n.buckets, k)
  {
    PhotoLikeTakesLastSize(n.buckets, t, p, sizes, url);
  }

  /** A link attachment whose payload has no `url`. */
  const UrlLessLink := JObject([("type", JString("link")), ("link", JObject([]))])

  lemma UrlLessLinkRaises(session: Session)
    ensures AttachmentBody(session, [], UrlLessLink) == Raised([("link", [])], KeyError)
  {
    var a := UrlLessLink;
    assert Item(a, "type") == Ok(JString("link"));
    assert a.fields[1..] == [("link", JObject([]))];
    assert Item(a, "link") == Ok(JObject([]));
    assert TypedPayload(a, JString("link")) == Ok(JObject([]));
    assert AttachmentBody(session, [], a) == AddLink(session, [], JObject([]));
    LinkWithoutUrl(session, [], JObject([]));
    assert Touch([], "link") == [("link", [])];
  }

  /** A link payload without `url` raises `KeyError` after creating the
      `link` bucket. */
  lemma LinkWithoutUrl(session: Session, b: Buckets, link: Json)
    requires DistinctKeys(b) && link.JObject? && !HasKey(link.fields, "url")
    ensures AddLink(session, b, link) == Raised(Touch(b, "link"), KeyError)
  {
  }

  /** An empty bucket can appear: a link without a URL creates `link`, then
      fails, and the record keeps the empty list. */
  lemma LinkWithoutUrlLeavesEmptyBucket(session: Session)
    ensures Normalize(session, [UrlLessLink]) == Normalized([("link", [])], [AttachmentError(UrlLessLink, KeyError)])
  {
    var one := [UrlLessLink];
    assert one[..|one| - 1] == [];
    assert NormalizeFrom(session, Normalized([], []), one[..|one| - 1]) == Normalized([], []);
    UrlLessLinkRaises(session);
    assert Normalize(session, one) == Step(session, Normalized([], []), UrlLessLink);
  }

  // ---------------------------------------------------------------------
  // Requests

  /** The `wall.getById` request for the posts found in a text: the token,
      the found ids without their `wall` keyword joined by commas, the
      forwarded-post depth in decimal, and the API version. */
  lemma WallRequestOfFound(session: Session, s: string, depth: int)
    ensures var ids := Findall(s, Wall);
      WallRequest(session, ids, depth) ==
        Request(WallEndpoint, [("access_token", session.accessToken),
                               ("posts", Join(",", seq(|ids|, k requires 0 <= k < |ids| => ids[k][4..]))),
                               ("extended", "1"), ("copy_history_depth", IntStr(depth)),
                               ("v", session.apiVersion)])
  {
    BatchParamOfFound(s, Wall);
  }

  /** The `video.get` request for the videos found in a text. */
  lemma VideoRequestOfFound(session: Session, s: string)
    ensures var ids := Findall(s, Video);
      VideoRequest(session, ids) ==
        Request(VideoEndpoint, [("access_token", session.accessToken),
                                ("videos", Join(",", seq(|ids|, k requires 0 <= k < |ids| => ids[k][5..]))),
                                ("extended", "1"), ("v", session.apiVersion)])
  {
    BatchParamOfFound(s, Video);
  }

  /** The `photos.getById` request for the photos found in a text. */
  lemma PhotoRequestOfFound(session: Session, s: string)
    ensures var ids := Findall(s, Photo);
      PhotoRequest(session, ids) ==
        Request(PhotoEndpoint, [("access_token", session.accessToken),
                                ("photos", Join(",", seq(|ids|, k requires 0 <= k < |ids| => ids[k][5..]))),
                                ("extended", "1"), ("v", session.apiVersion)])
  {
    BatchParamOfFound(s, Photo);
  }

  // ---------------------------------------------------------------------
  // Records

  /** The record's text is the item's value under `textKey` (`""` when
      absent) and its date the item's `date` as epoch seconds (0 when
      absent). */
  predicate TextAndDate(item: Json, textKey: string, r: Record)
    requires item.JObject?
  {
    (if HasKey(item.fields, textKey) then Item(item, textKey) == Ok(r.text) else r.text == JString("")) &&
    (if HasKey(item.fields, "date") then EpochSeconds(Item(item, "date").value) == Ok(r.date) else r.date == 0)
  }

  /** A `video.get` item gives a record exactly when it is a dict with
      `owner_id` and `id` and a usable date; the record takes its text from
      `title` and holds one `video` bucket with the item's `player` URL
      (`""` when absent). */
  lemma VideoRecordFields(item: Json)
    ensures VideoRecord(item).Ok? <==>
      item.JObject? && HasKey(item.fields, "owner_id") && HasKey(item.fields, "id") &&
      EpochSeconds(Get(item, "date", JInt(0)).value).Ok?
    ensures VideoRecord(item).Ok? ==>
      TextAndDate(item, "title", VideoRecord(item).value) &&
      VideoRecord(item).value.attachments == [("video", [Get(item, "player", JString("")).value])]
  {
  }

  /** A `photos.getById` item gives a record exactly when, besides the id
      and date, it has an `orig_photo` dict with a `url`; the record holds
      one `photo` bucket with that URL. */
  lemma PhotoRecordFields(item: Json)
    ensures PhotoRecord(item).Ok? <==>
      item.JObject? && HasKey(item.fields, "owner_id") && HasKey(item.fields, "id") &&
      EpochSeconds(Get(item, "date", JInt(0)).value).Ok? &&
      HasKey(item.fields, "orig_photo") && Item(item, "orig_photo").value.JObject? &&
      HasKey(Item(item, "orig_photo").value.fields, "url")
    ensures PhotoRecord(item).Ok? ==>
      TextAndDate(item, "text", PhotoRecord(item).value) &&
      PhotoRecord(item).value.attachments == [("photo", [Item(Item(item, "orig_photo").value, "url").value])]
  {
  }

  /** A photo item with a usable id and date but no `orig_photo`, or an
      `orig_photo` dict without `url`, raises KeyError. */
  lemma PhotoRecordWithoutOriginal(item: Json)
    requires FormatId(Photo, item).Ok? && EpochSeconds(Get(item, "date", JInt(0)).value).Ok?
    requires !HasKey(item.fields, "orig_photo") ||
      (Item(item, "orig_photo").value.JObject? && !HasKey(Item(item, "orig_photo").value.fields, "url"))
    ensures PhotoRecord(item) == Err(KeyError)
  {
  }

  /** `scrape_photo_ids` has no handler: the first item that cannot be made
      into a record ends the whole call with that item's exception. */
  lemma PhotoBatchAborts(session: Session, ids: seq<string>, api: Json, items: seq<Json>, k: nat)
    requires ids != [] && session.transport(PhotoRequest(session, ids)) == Ok(api)
    requires PhotoResponseItems(api) == Ok(items)
    requires k < |items| && PhotoRecord(items[k]).Err?
    requires forall i | 0 <= i < k :: PhotoRecord(items[i]).Ok?
    ensures ScrapePhotoIdsSpec(session, ids) == Err(PhotoRecord(items[k]).error)
  {
    var pre := MapAll(items[..k], PhotoRecord);
    assert pre.Ok?;
    MapAllStep(items, PhotoRecord, k, pre.value);
  }

  /** A `wall.getById` item gives a record exactly when its attachment
      lists can be gathered, it has `owner_id` and `id`, and its date is
      usable; the record's buckets are what the attachment loop builds from
      the gathered list. */
  lemma WallRecordFields(session: Session, item: Json)
    ensures WallRecord(session, item).Ok? <==>
      CollectAttachments(item).Ok? && FormatId(Wall, item).Ok? &&
      EpochSeconds(Get(item, "date", JInt(0)).value).Ok?
    ensures WallRecord(session, item).Ok? ==>
      TextAndDate(item, "text", WallRecord(session, item).value) &&
      WallRecord(session, item).value.attachments == Normalize(session, CollectAttachments(item).value).buckets
  {
  }

  // ---------------------------------------------------------------------
  // Wall items

  /** A post's own attachments come first, before any from forwarded posts. */
  lemma OwnAttachmentsFirst(item: Json, own: seq<Json>)
    requires Get(item, "attachments", JArray([])) == Ok(JArray(own))
    requires CollectAttachments(item).Ok?
    ensures |own| <= |CollectAttachments(item).value|
    ensures CollectAttachments(item).value[..|own|] == own
  {
  }

  /** A post that forwards nothing contributes exactly its own list. */
  lemma NoHistoryOwnOnly(item: Json, own: seq<Json>)
    requires Get(item, "attachments", JArray([])) == Ok(JArray(own))
    requires !HasKey(item.fields, "copy_history")
    ensures CollectAttachments(item) == Ok(own)
  {
    assert Get(item, "copy_history", JArray([])) == Ok(JArray([]));
    assert HistoryAttachments([]) == Ok([]);
    assert SumLists([]) == Ok([]);
    assert own + [] == own;
  }

  /** Lists concatenated in order. */
  function Flatten(lists: seq<seq<Json>>): (flat: seq<Json>) {
    if lists == [] then [] else Flatten(lists[..|lists| - 1]) + lists[|lists| - 1]
  }

  /** `sum` over lists adds them up in order. */
  lemma {:induction false} SumListsFlatten(lists: seq<seq<Json>>)
    ensures SumLists(seq(|lists|, k requires 0 <= k < |lists| => JArray(lists[k]))) == Ok(Flatten(lists))
  {
    var js := seq(|lists|, k requires 0 <= k < |lists| => JArray(lists[k]));
    if lists != [] {
      var init := lists[..|lists| - 1];
      assert js[..|js| - 1] == seq(|init|, k requires 0 <= k < |init| => JArray(init[k]));
      SumListsFlatten(init);
    }
  }

  /** The attachments of forwarded posts follow the post's own, one
      forwarded post after another, in `copy_history` order. */
  lemma HistoryInOrder(item: Json, own: seq<Json>, entries: seq<Json>, lists: seq<seq<Json>>)
    requires Get(item, "attachments", JArray([])) == Ok(JArray(own))
    requires Item(item, "copy_history") == Ok(JArray(entries))
    requires |lists| == |entries|
    requires forall k | 0 <= k < |entries| :: Get(entries[k], "attachments", JArray([])) == Ok(JArray(lists[k]))
    ensures CollectAttachments(item) == Ok(own + Flatten(lists))
  {
    var h := HistoryAttachments(entries);
    assert h.Ok?;
    assert h.value == seq(|lists|, k requires 0 <= k < |lists| => JArray(lists[k]));
    SumListsFlatten(lists);
  }

  /** A post with nothing but its identifiers gives a record with empty
      text, the epoch as its date and no attachment buckets. */
  lemma BareWallPost(session: Session, item: Json, owner: int, local: nat)
    requires Item(item, "owner_id") == Ok(JInt(owner)) && Item(item, "id") == Ok(JInt(local))
    requires !HasKey(item.fields, "attachments") && !HasKey(item.fields, "copy_history")
    requires !HasKey(item.fields, "text") && !HasKey(item.fields, "date")
    ensures WallRecord(session, item) == Ok(Record(RecordId(Wall, owner, local), JString(""), 0, [], item))
  {
    assert HistoryAttachments([]) == Ok([]);
    assert SumLists([]) == Ok([]);
    var none: seq<Json> := [];
    assert none + none == none;
    assert CollectAttachments(item) == Ok([]);
    assert Normalize(session, []) == Normalized([], []);
    FormatIdCanonical(Wall, item, owner, local);
  }

  // ---------------------------------------------------------------------
  // Identifiers

  /** With integer `owner_id` and a non-negative `id`, the record id is the
      canonical `keyword owner _ id` string. */
  lemma FormatIdCanonical(f: Family, item: Json, owner: int, local: nat)
    requires Item(item, "owner_id") == Ok(JInt(owner)) && Item(item, "id") == Ok(JInt(local))
    ensures FormatId(f, item) == Ok(RecordId(f, owner, local))
  {
  }

  lemma IdReextracts(f: Family, id: string, owner: int, local: nat)
    requires id == RecordId(f, owner, local)
    ensures Findall(id, f) == [id]
  {
    RecordIdRoundTrip(f, owner, local);
  }

  /** Scraping a record's id again finds exactly that id. */
  lemma WallRecordIdReextracts(session: Session, item: Json, owner: int, local: nat)
    requires Item(item, "owner_id") == Ok(JInt(owner)) && Item(item, "id") == Ok(JInt(local))
    requires WallRecord(session, item).Ok?
    ensures var id := WallRecord(session, item).value.id; Findall(id, Wall) == [id]
  {
    var id := WallRecord(session, item).value.id;
    assert id == RecordId(Wall, owner, local) by {
      FormatIdCanonical(Wall, item, owner, local);
    }
    IdReextracts(Wall, id, owner, local);
  }

  lemma VideoRecordIdReextracts(item: Json, owner: int, local: nat)
    requires Item(item, "owner_id") == Ok(JInt(owner)) && Item(item, "id") == Ok(JInt(local))
    requires VideoRecord(item).Ok?
    ensures var id := VideoRecord(item).value.id; Findall(id, Video) == [id]
  {
    var id := VideoRecord(item).value.id;
    assert id == RecordId(Video, owner, local) by {
      FormatIdCanonical(Video, item, owner, local);
    }
    IdReextracts(Video, id, owner, local);
  }

  lemma PhotoRecordIdReextracts(item: Json, owner: int, local: nat)
    requires Item(item, "owner_id") == Ok(JInt(owner)) && Item(item, "id") == Ok(JInt(local))
    requires PhotoRecord(item).Ok?
    ensures var id := PhotoRecord(item).value.id; Findall(id, Photo) == [id]
  {
    var id := PhotoRecord(item).value.id;
    assert id == RecordId(Photo, owner, local) by {
      FormatIdCanonical(Photo, item, owner, local);
    }
    IdReextracts(Photo, id, owner, local);
  }

  // ---------------------------------------------------------------------
  // Texts without identifiers

  /** A text naming no entity gives no record, and no request is made. */
  lemma NoIdsNoRecords(session: Session, url: string)
    requires Findall(url, Wall) == [] && Findall(url, Photo) == [] && Findall(url, Video) == []
    ensures ScrapeSpec(session, url) == Ok([])
  {
    assert ScrapeWallsSpec(session, url) == Ok([]);
    assert ScrapePhotosSpec(session, url) == Ok([]);
    assert ScrapeVideosSpec(session, url) == Ok([]);
    var none: seq<Record> := [];
    assert none + none + none == none;
  }

  /** Texts that name vk.com or a family keyword without a numeric id give
      no record, whatever the remote side would answer. */
  lemma UnparseableSomething(session: Session)
    ensures ScrapeSpec(session, "something") == Ok([])
  {
    NoneIn(session, "something", 'w', 'p', 'v');
  }

  lemma UnparseableEmpty(session: Session)
    ensures ScrapeSpec(session, "") == Ok([])
  {
    NoneIn(session, "", 'w', 'p', 'v');
  }

  lemma UnparseableGoogle(session: Session)
    ensures ScrapeSpec(session, "google.com") == Ok([])
  {
    NoneIn(session, "google.com", 'w', 'p', 'v');
  }

  lemma UnparseableBareDomain(session: Session)
    ensures ScrapeSpec(session, "vk.com") == Ok([])
  {
    NoneIn(session, "vk.com", 'w', 'p', 'i');
  }

  lemma UnparseableWallWithoutId(session: Session)
    ensures ScrapeSpec(session, "vk.com/wall") == Ok([])
  {
    NoneIn(session, "vk.com/wall", 'a', 'p', 'i');
  }

  lemma UnparseablePhotoWithoutId(session: Session)
    ensures ScrapeSpec(session, "vk.com/photo") == Ok([])
  {
    NoneIn(session, "vk.com/photo", 'w', 't', 'i');
  }

  lemma UnparseableVideoWithoutId(session: Session)
    ensures ScrapeSpec(session, "vk.com/video") == Ok([])
  {
    NoneIn(session, "vk.com/video", 'w', 'p', 'd');
  }

  /** A letter of each keyword missing from the text (but for its last three
      characters) rules out every record. */
  lemma NoneIn(session: Session, s: string, cw: char, cp: char, cv: char)
    requires cw in Keyword(Wall) && cp in Keyword(Photo) && cv in Keyword(Video)
    requires |s| < 3 || (cw !in s[..|s| - 3] && cp !in s[..|s| - 3] && cv !in s[..|s| - 3])
    ensures ScrapeSpec(session, s) == Ok([])
  {
    MissingLetterNoIds(s, Wall, cw);
    MissingLetterNoIds(s, Photo, cp);
    MissingLetterNoIds(s, Video, cv);
    NoIdsNoRecords(session, s);
  }
}
