/** The scraper: batch requests for the three entity families, the
    normalisation of wall-post attachments into typed buckets, record
    assembly, and `scrape` over a free-form text.

    The HTTP call and `.json()` are the session's `transport`, a function
    from a request to the parsed body or a failure; authentication only
    supplies the access token and API version held in the session. */
module Scraper {
  import opened PyJson
  import opened Pattern
  import opened Buckets

  /** An API call: the endpoint and the query parameters, in order. */
  datatype Request = Request(endpoint: string, params: seq<(string, string)>)

  /** What the scraper holds after logging in, plus the transport:
      `requests.get(endpoint, params).json()`. */
  datatype Session = Session(accessToken: string, apiVersion: string, transport: Request -> Result<Json>)

  /** One scraped entity: `id`, `text`, the date as epoch seconds, the
      attachment buckets and the raw item. */
  datatype Record = Record(id: string, text: Json, date: int, attachments: Buckets, payload: Json)

  /** What the per-attachment `print` calls would write. */
  datatype LogLine =
    | ImageError(error: Error)                    // "could not get image from attachment"
    | AttachmentError(attachment: Json, error: Error)  // "Unexpected error in attachment"

  const WallEndpoint := "https://api.vk.com/method/wall.getById"
  const VideoEndpoint := "https://api.vk.com/method/video.get"
  const PhotoEndpoint := "https://api.vk.com/method/photos.getById"

  /** Default depth of forwarded-post ancestry requested for wall posts. */
  const DefaultCopyHistoryDepth := 2

  // ---------------------------------------------------------------------
  // Requests

  function WallRequest(session: Session, ids: seq<string>, depth: int): (req: Request) {
    Request(WallEndpoint, [("access_token", session.accessToken), ("posts", BatchParam(ids, Wall)),
                           ("extended", "1"), ("copy_history_depth", IntStr(depth)),
                           ("v", session.apiVersion)])
  }

  function VideoRequest(session: Session, ids: seq<string>): (req: Request) {
    Request(VideoEndpoint, [("access_token", session.accessToken), ("videos", BatchParam(ids, Video)),
                            ("extended", "1"), ("v", session.apiVersion)])
  }

  function PhotoRequest(session: Session, ids: seq<string>): (req: Request) {
    Request(PhotoEndpoint, [("access_token", session.accessToken), ("photos", BatchParam(ids, Photo)),
                            ("extended", "1"), ("v", session.apiVersion)])
  }

  /** `api_res.get("response", {}).get("items", [])`, as iterated: a body
      without `response` (an API error) or a response without `items`
      gives no items, and a response whose `items` is a list gives that
      list's elements. */
  function ResponseItems(api: Json): (r: Result<seq<Json>>)
    ensures !api.JObject? ==> r == Err(AttributeError)
    ensures api.JObject? && !HasKey(api.fields, "response") ==> r == Ok([])
    ensures (Item(api, "response").Ok? && Item(api, "response").value.JObject? &&
             !HasKey(Item(api, "response").value.fields, "items")) ==> r == Ok([])
    ensures (Item(api, "response").Ok? && Item(Item(api, "response").value, "items").Ok? &&
             Item(Item(api, "response").value, "items").value.JArray?) ==>
      r == Ok(Item(Item(api, "response").value, "items").value.items)
    ensures (Item(api, "response").Ok? && !Item(api, "response").value.JObject?) ==>
      r == Err(AttributeError)
  {
    var response :- Get(api, "response", JObject([]));
    var items :- Get(response, "items", JArray([]));
    Iterate(items)
  }

  /** `api_res.get("response", [])`, as iterated (photos have no `items`):
      a list response gives its elements, a body without `response` none. */
  function PhotoResponseItems(api: Json): (r: Result<seq<Json>>)
    ensures !api.JObject? ==> r == Err(AttributeError)
    ensures api.JObject? && !HasKey(api.fields, "response") ==> r == Ok([])
    ensures Item(api, "response").Ok? && Item(api, "response").value.JArray? ==>
      r == Ok(Item(api, "response").value.items)
  {
    var response :- Get(api, "response", JArray([]));
    Iterate(response)
  }

  // ---------------------------------------------------------------------
  // Record assembly

  /** `f"{keyword}{item['owner_id']}_{item['id']}"`. */
  function FormatId(f: Family, item: Json): (r: Result<string>)
    ensures r.Ok? <==> item.JObject? && HasKey(item.fields, "owner_id") && HasKey(item.fields, "id")
    ensures r.Ok? ==> |r.value| > |Keyword(f)| && r.value[..|Keyword(f)|] == Keyword(f)
  {
    var owner :- Item(item, "owner_id");
    var local :- Item(item, "id");
    Ok(Keyword(f) + Str(owner) + "_" + Str(local))
  }

  /** The record of one `video.get` item. */
  function VideoRecord(item: Json): (r: Result<Record>)
    ensures r.Ok? ==> FormatId(Video, item) == Ok(r.value.id) && r.value.payload == item
    ensures r.Ok? ==> Keys(r.value.attachments) == ["video"] && |r.value.attachments[0].1| == 1
  {
    var id :- FormatId(Video, item);
    var text := Get(item, "title", JString("")).value;
    var date := Get(item, "date", JInt(0)).value;
    var seconds :- EpochSeconds(date);
    var player := Get(item, "player", JString("")).value;
    Ok(Record(id, text, seconds, [("video", [player])], item))
  }

  /** The record of one `photos.getById` item. */
  function PhotoRecord(item: Json): (r: Result<Record>)
    ensures r.Ok? ==> FormatId(Photo, item) == Ok(r.value.id) && r.value.payload == item
    ensures r.Ok? ==> Keys(r.value.attachments) == ["photo"] && |r.value.attachments[0].1| == 1
  {
    var id :- FormatId(Photo, item);
    var text := Get(item, "text", JString("")).value;
    var date := Get(item, "date", JInt(0)).value;
    var seconds :- EpochSeconds(date);
    var orig :- Item(item, "orig_photo");
    var url :- Item(orig, "url");
    Ok(Record(id, text, seconds, [("photo", [url])], item))
  }

  /** The loop `for item in items: res.append(build(item))`: one record per
      item, in order; the first exception ends the whole call. */
  function MapAll(items: seq<Json>, build: Json -> Result<Record>): (r: Result<seq<Record>>)
    ensures r.Ok? <==> forall k | 0 <= k < |items| :: build(items[k]).Ok?
    ensures r.Ok? ==> (|r.value| == |items| &&
      forall k | 0 <= k < |items| :: build(items[k]) == Ok(r.value[k]))
  {
    if items == [] then Ok([])
    else
      var init := MapAll(items[..|items| - 1], build);
      var last := build(items[|items| - 1]);
      if init.Err? then Err(init.error)
      else if last.Err? then Err(last.error)
      else Ok(init.value + [last.value])
  }

  /** Once a prefix of the items fails, so does the whole loop, with the
      same exception. */
  lemma {:induction false} MapAllPrefixErr(items: seq<Json>, build: Json -> Result<Record>, i: nat)
    requires i <= |items| && MapAll(items[..i], build).Err?
    ensures MapAll(items, build) == MapAll(items[..i], build)
    decreases |items|
  {
    if i < |items| {
      var n := |items| - 1;
      assert items[..n][..i] == items[..i];
      MapAllPrefixErr(items[..n], build, i);
    } else {
      assert items[..i] == items;
    }
  }
  /** One turn of the loop over items: the next build either fails, and the
      whole loop with it, or extends the records built so far. */
  lemma MapAllStep(items: seq<Json>, build: Json -> Result<Record>, i: nat, done: seq<Record>)
    requires i < |items| && MapAll(items[..i], build) == Ok(done)
    ensures build(items[i]).Err? ==> MapAll(items, build) == Err(build(items[i]).error)
    ensures build(items[i]).Ok? ==> MapAll(items[..i + 1], build) == Ok(done + [build(items[i]).value])
  {
    assert items[..i + 1][..i] == items[..i];
    if build(items[i]).Err? {
      MapAllPrefixErr(items, build, i + 1);
    }
  }

  /** The loop over items, building one record each, ending at the first
      exception. */
  method BuildAll(items: seq<Json>, build: Json -> Result<Record>) returns (r: Result<seq<Record>>)
    ensures r == MapAll(items, build)
  {
    var res: seq<Record> := [];
    var i := 0;
    while i < |items|
      invariant 0 <= i <= |items|
      invariant MapAll(items[..i], build) == Ok(res)
    {
      var rec := build(items[i]);
      MapAllStep(items, build, i, res);
      if rec.Err? {
        return Err(rec.error);
      }
      res := res + [rec.value];
      i := i + 1;
    }
    assert items[..i] == items;
    return Ok(res);
  }


  // ---------------------------------------------------------------------
  // Videos and photos

  /** `scrape_video_ids`: no request at all for an empty list; otherwise one
      batch request and one record per returned item. */
  function ScrapeVideoIdsSpec(session: Session, ids: seq<string>): (r: Result<seq<Record>>)
    ensures ids == [] ==> r == Ok([])
    ensures r.Ok? ==> forall k | 0 <= k < |r.value| :: Keys(r.value[k].attachments) == ["video"]
  {
    if ids == [] then Ok([])
    else
      var api :- session.transport(VideoRequest(session, ids));
      var items :- ResponseItems(api);
      MapAll(items, VideoRecord)
  }

  /** `scrape_videos`: the ids found in the text, then `scrape_video_ids`. */
  function ScrapeVideosSpec(session: Session, url: string): (r: Result<seq<Record>>)
    ensures Findall(url, Video) == [] ==> r == Ok([])
  {
    ScrapeVideoIdsSpec(session, Findall(url, Video))
  }

  /** `scrape_photo_ids`: likewise, one record per element of `response`. */
  function ScrapePhotoIdsSpec(session: Session, ids: seq<string>): (r: Result<seq<Record>>)
    ensures ids == [] ==> r == Ok([])
    ensures r.Ok? ==> forall k | 0 <= k < |r.value| :: Keys(r.value[k].attachments) == ["photo"]
  {
    if ids == [] then Ok([])
    else
      var api :- session.transport(PhotoRequest(session, ids));
      var items :- PhotoResponseItems(api);
      MapAll(items, PhotoRecord)
  }

  function ScrapePhotosSpec(session: Session, url: string): (r: Result<seq<Record>>)
    ensures Findall(url, Photo) == [] ==> r == Ok([])
  {
    ScrapePhotoIdsSpec(session, Findall(url, Photo))
  }

  method ScrapeVideoIds(session: Session, videoIds: seq<string>) returns (r: Result<seq<Record>>)
    ensures videoIds == [] ==> r == Ok([])
    ensures r == ScrapeVideoIdsSpec(session, videoIds)
  {
    if |videoIds| == 0 {
      return Ok([]);
    }
    var api := session.transport(VideoRequest(session, videoIds));
    if api.Err? {
      return Err(api.error);
    }
    var items := ResponseItems(api.value);
    if items.Err? {
      return Err(items.error);
    }
    r := BuildAll(items.value, VideoRecord);
  }

  method ScrapeVideos(session: Session, url: string) returns (r: Result<seq<Record>>)
    ensures r == ScrapeVideosSpec(session, url)
  {
    var videoIds := Findall(url, Video);
    r := ScrapeVideoIds(session, videoIds);
  }

  method ScrapePhotoIds(session: Session, photoIds: seq<string>) returns (r: Result<seq<Record>>)
    ensures photoIds == [] ==> r == Ok([])
    ensures r == ScrapePhotoIdsSpec(session, photoIds)
  {
    if |photoIds| == 0 {
      return Ok([]);
    }
    var api := session.transport(PhotoRequest(session, photoIds));
    if api.Err? {
      return Err(api.error);
    }
    var items := PhotoResponseItems(api.value);
    if items.Err? {
      return Err(items.error);
    }
    r := BuildAll(items.value, PhotoRecord);
  }

  method ScrapePhotos(session: Session, url: string) returns (r: Result<seq<Record>>)
    ensures r == ScrapePhotosSpec(session, url)
  {
    var photoIds := Findall(url, Photo);
    r := ScrapePhotoIds(session, photoIds);
  }

  // ---------------------------------------------------------------------
  // Wall-post attachments

  /** The state of one pass through the body of the per-attachment `try`:
      it finished (possibly after the inner `except` logged a line), or it
      raised, leaving the buckets as they were at that moment. */
  datatype Outcome = Done(buckets: Buckets, log: seq<LogLine>) | Raised(buckets: Buckets, error: Error)

  /** `attachment["sizes"][-1]["url"]`: the URL of the largest size, the
      last one listed. */
  function LargestSizeUrl(payload: Json): (r: Result<Json>)
    ensures r.Ok? ==> payload.JObject? && HasKey(payload.fields, "sizes")
    ensures (Item(payload, "sizes").Ok? && Item(payload, "sizes").value.JArray? &&
             Item(payload, "sizes").value.items != []) ==>
      r == Item(Item(payload, "sizes").value.items[|Item(payload, "sizes").value.items| - 1], "url")
  {
    var sizes :- Item(payload, "sizes");
    var last :- LastOf(sizes);
    Item(last, "url")
  }

  /** The URLs a nested video resolves to: the first record that
      `scrape_videos(f"video{owner_id}_{id}")` returns, its `video` list. */
  function NestedVideoUrls(session: Session, media: Json): (r: Result<seq<Json>>)
    ensures !media.JObject? ==> r == Err(TypeError)
    ensures media.JObject? && !(HasKey(media.fields, "owner_id") && HasKey(media.fields, "id")) ==> r == Err(KeyError)
  {
    var owner :- Item(media, "owner_id");
    var local :- Item(media, "id");
    var recs :- ScrapeVideosSpec(session, "video" + Str(owner) + "_" + Str(local));
    if recs == [] then Err(IndexError)
    else Ok(LookupOr(recs[0].attachments, "video", [JString("")]))
  }

  /** `attachments["video"].extend(<nested lookup>)`: the bucket is created
      before the lookup runs, so a failing lookup leaves it behind. */
  function AddNestedVideo(session: Session, b: Buckets, media: Json): (o: Outcome)
    requires DistinctKeys(b)
    ensures DistinctKeys(o.buckets) && Grows(b, o.buckets)
    ensures o.Done? ==> o.log == []
    ensures o.Done? <==> NestedVideoUrls(session, media).Ok?
    ensures o.Done? ==> Lookup(o.buckets, "video") == Lookup(b, "video") + NestedVideoUrls(session, media).value
    ensures o.Raised? ==> o.error == NestedVideoUrls(session, media).error
    ensures o.Raised? ==> forall k :: Lookup(o.buckets, k) == Lookup(b, k)
    ensures "video" in Keys(o.buckets) && forall k | k != "video" :: Lookup(o.buckets, k) == Lookup(b, k)
  {
    var b1 := Touch(b, "video");
    match NestedVideoUrls(session, media)
    case Err(e) => Raised(b1, e)
    case Ok(urls) => Done(Extend(b1, "video", urls), [])
  }

  /** The sizes step for a photo-like payload: nothing unless it has
      `sizes`; then the bucket named `kind` is created and gets the URL of
      the last size, or the inner `except` logs the failure. */
  function AddLargestSize(b: Buckets, kind: string, payload: Json): (o: Outcome)
    requires DistinctKeys(b)
    ensures DistinctKeys(o.buckets) && Grows(b, o.buckets)
    ensures o.Done? ==> |o.log| <= 1
    ensures o.Raised? ==> o.buckets == b
    ensures forall k | k != kind :: Lookup(o.buckets, k) == Lookup(b, k)
    ensures Contains(payload, "sizes") == Ok(false) ==> o == Done(b, [])
    ensures Contains(payload, "sizes") == Ok(true) && LargestSizeUrl(payload).Ok? ==>
      o.Done? && o.log == [] && kind in Keys(o.buckets) &&
      Lookup(o.buckets, kind) == Lookup(b, kind) + [LargestSizeUrl(payload).value]
    ensures Contains(payload, "sizes") == Ok(true) && LargestSizeUrl(payload).Err? ==>
      o == Done(Touch(b, kind), [ImageError(LargestSizeUrl(payload).error)])
  {
    match Contains(payload, "sizes")
    case Err(e) => Raised(b, e)
    case Ok(hasSizes) =>
      if !hasSizes then Done(b, [])
      else
        var b1 := Touch(b, kind);
        match LargestSizeUrl(payload)
        case Err(e) => Done(b1, [ImageError(e)])
        case Ok(url) => Done(Append(b1, kind, url), [])
  }

  /** A photo-like payload: a `thumb` replaces the payload, then the sizes
      step runs. */
  function AddPhotoLike(b: Buckets, kind: string, payload: Json): (o: Outcome)
    requires DistinctKeys(b)
    ensures DistinctKeys(o.buckets) && Grows(b, o.buckets)
    ensures o.Done? ==> |o.log| <= 1
    ensures o.Raised? ==> o.buckets == b
    ensures forall k | k != kind :: Lookup(o.buckets, k) == Lookup(b, k)
  {
    match Contains(payload, "thumb")
    case Err(e) => Raised(b, e)
    case Ok(hasThumb) =>
      if !hasThumb then AddLargestSize(b, kind, payload)
      else
        match Item(payload, "thumb")
        case Err(e) => Raised(b, e)
        case Ok(thumb) => AddLargestSize(b, kind, thumb)
  }

  /** A `link` attachment: its URL first, then an embedded photo (as a
      photo-like payload into `photo`) or an embedded video (resolved like a
      video attachment); without either, only the URL. */
  function AddLink(session: Session, b: Buckets, link: Json): (o: Outcome)
    requires DistinctKeys(b)
    ensures DistinctKeys(o.buckets) && Grows(b, o.buckets)
    ensures o.Done? ==> |o.log| <= 1
    ensures o.Raised? ==> forall k | k != "link" :: Lookup(o.buckets, k) == Lookup(b, k)
  {
    var b1 := Touch(b, "link");
    match Item(link, "url")
    case Err(e) => Raised(b1, e)
    case Ok(url) =>
      var b2 := Append(b1, "link", url);
      assert Grows(b, b2) by { GrowsTrans(b, b1, b2); }
      if HasKey(link.fields, "photo") then
        var o := AddPhotoLike(b2, "photo", Item(link, "photo").value);
        GrowsTrans(b, b2, o.buckets);
        o
      else if HasKey(link.fields, "video") then
        var o := AddNestedVideo(session, b2, Item(link, "video").value);
        GrowsTrans(b, b2, o.buckets);
        o
      else Done(b2, [])
  }

  /** `a[a["type"]]`: the attachment's payload under its own type; only a
      string can be a key of a JSON object. */
  function TypedPayload(a: Json, firstType: Json): (r: Result<Json>)
    ensures r.Ok? ==> firstType.JString?
  {
    match firstType
    case JString(t) => Item(a, t)
    case JArray(_) => Err(TypeError)
    case JObject(_) => Err(TypeError)
    case _ => Err(KeyError)
  }

  /** The body of the per-attachment `try`. */
  function AttachmentBody(session: Session, b: Buckets, a: Json): (o: Outcome)
    requires DistinctKeys(b)
    ensures DistinctKeys(o.buckets) && Grows(b, o.buckets)
    ensures o.Done? ==> |o.log| <= 1
    ensures o.Raised? ==> forall k | k != "link" :: Lookup(o.buckets, k) == Lookup(b, k)
  {
    match Item(a, "type")
    case Err(e) => Raised(b, e)
    case Ok(firstType) =>
      match TypedPayload(a, firstType)
      case Err(e) => Raised(b, e)
      case Ok(payload) =>
        if firstType.s == "video" then AddNestedVideo(session, b, payload)
        else if firstType.s == "link" then AddLink(session, b, payload)
        else AddPhotoLike(b, firstType.s, payload)
  }

  /** The state the normalisation loop keeps: the buckets and the log. */
  datatype Normalized = Normalized(buckets: Buckets, log: seq<LogLine>)

  /** One iteration: run the body; an exception is caught, logged with the
      attachment, and the buckets stay as the body left them. */
  function Step(session: Session, n: Normalized, a: Json): (r: Normalized)
    requires DistinctKeys(n.buckets)
    ensures DistinctKeys(r.buckets) && Grows(n.buckets, r.buckets)
    ensures |n.log| <= |r.log| <= |n.log| + 1 && r.log[..|n.log|] == n.log
  {
    match AttachmentBody(session, n.buckets, a)
    case Done(b, log) => Normalized(b, n.log + log)
    case Raised(b, e) => Normalized(b, n.log + [AttachmentError(a, e)])
  }

  /** The normalisation loop from state `n` over `atts`, in order. */
  function NormalizeFrom(session: Session, n: Normalized, atts: seq<Json>): (r: Normalized)
    requires DistinctKeys(n.buckets)
    ensures DistinctKeys(r.buckets) && Grows(n.buckets, r.buckets)
  {
    if atts == [] then n
    else
      var init := NormalizeFrom(session, n, atts[..|atts| - 1]);
      Step(session, init, atts[|atts| - 1])
  }

  /** The whole loop, from no buckets and no output. */
  function Normalize(session: Session, atts: seq<Json>): (r: Normalized)
    ensures DistinctKeys(r.buckets)
    ensures atts == [] ==> r == Normalized([], [])
  {
    NormalizeFrom(session, Normalized([], []), atts)
  }

  /** The attachments processed for a wall item: its own, then those of each
      `copy_history` entry in turn. */
  function CollectAttachments(item: Json): (r: Result<seq<Json>>)
    ensures !item.JObject? ==> r == Err(AttributeError)
    ensures r.Ok? ==> (Get(item, "attachments", JArray([])).value.JArray? &&
                       Get(item, "attachments", JArray([])).value.items <= r.value)
  {
    var own :- Get(item, "attachments", JArray([]));
    var history := Get(item, "copy_history", JArray([])).value;
    var entries :- Iterate(history);
    var nested :- HistoryAttachments(entries);
    var tail :- SumLists(nested);
    if own.JArray? then Ok(own.items + tail) else Err(TypeError)
  }

  /** `[x.get("attachments", []) for x in entries]`. */
  function HistoryAttachments(entries: seq<Json>): (r: Result<seq<Json>>)
    ensures r.Ok? <==> forall k | 0 <= k < |entries| :: entries[k].JObject?
    ensures r.Ok? ==> (|r.value| == |entries| &&
      forall k | 0 <= k < |entries| :: Get(entries[k], "attachments", JArray([])) == Ok(r.value[k]))
  {
    if entries == [] then Ok([])
    else
      var init :- HistoryAttachments(entries[..|entries| - 1]);
      var last :- Get(entries[|entries| - 1], "attachments", JArray([]));
      Ok(init + [last])
  }

  /** The record of one `wall.getById` item. */
  function WallRecord(session: Session, item: Json): (r: Result<Record>)
    ensures r.Ok? ==> FormatId(Wall, item) == Ok(r.value.id) && r.value.payload == item
    ensures r.Ok? ==> DistinctKeys(r.value.attachments)
  {
    var atts :- CollectAttachments(item);
    var n := Normalize(session, atts);
    var id :- FormatId(Wall, item);
    var text := Get(item, "text", JString("")).value;
    var date := Get(item, "date", JInt(0)).value;
    var seconds :- EpochSeconds(date);
    Ok(Record(id, text, seconds, n.buckets, item))
  }

  /** `scrape_wall_ids`: as for videos, with the forwarded-post depth. */
  function ScrapeWallIdsSpec(session: Session, ids: seq<string>, depth: int): (r: Result<seq<Record>>)
    ensures ids == [] ==> r == Ok([])
    ensures r.Ok? ==> forall k | 0 <= k < |r.value| :: DistinctKeys(r.value[k].attachments)
  {
    if ids == [] then Ok([])
    else
      var api :- session.transport(WallRequest(session, ids, depth));
      var items :- ResponseItems(api);
      MapAll(items, WallBuilder(session))
  }

  /** `WallRecord` with the session fixed, as the loop over items uses it. */
  function WallBuilder(session: Session): (builder: Json -> Result<Record>) {
    item => WallRecord(session, item)
  }

  function ScrapeWallsSpec(session: Session, url: string): (r: Result<seq<Record>>)
    ensures Findall(url, Wall) == [] ==> r == Ok([])
  {
    ScrapeWallIdsSpec(session, Findall(url, Wall), DefaultCopyHistoryDepth)
  }

  /** `scrape`: walls, then photos, then videos; the first exception ends it. */
  function ScrapeSpec(session: Session, url: string): (r: Result<seq<Record>>)
    ensures r.Ok? <==> (ScrapeWallsSpec(session, url).Ok? && ScrapePhotosSpec(session, url).Ok? &&
                        ScrapeVideosSpec(session, url).Ok?)
    ensures r.Ok? ==> (|r.value| == |ScrapeWallsSpec(session, url).value| +
                       |ScrapePhotosSpec(session, url).value| + |ScrapeVideosSpec(session, url).value|)
    ensures r.Ok? ==> r.value[..|ScrapeWallsSpec(session, url).value|] == ScrapeWallsSpec(session, url).value
  {
    var walls :- ScrapeWallsSpec(session, url);
    var photos :- ScrapePhotosSpec(session, url);
    var videos :- ScrapeVideosSpec(session, url);
    Ok(walls + photos + videos)
  }

  // ---------------------------------------------------------------------
  // The imperative side: the loops of the source, each proved against the
  // function above that specifies it.

  /** The nested `scrape_videos(...)[0].get("attachments", {}).get("video", [""])`. */
  method ResolveNestedVideo(session: Session, media: Json) returns (r: Result<seq<Json>>)
    ensures r == NestedVideoUrls(session, media)
  {
    var owner := Item(media, "owner_id");
    if owner.Err? {
      return Err(owner.error);
    }
    var local := Item(media, "id");
    if local.Err? {
      return Err(local.error);
    }
    var recs := ScrapeVideos(session, "video" + Str(owner.value) + "_" + Str(local.value));
    if recs.Err? {
      return Err(recs.error);
    }
    if |recs.value| == 0 {
      return Err(IndexError);
    }
    return Ok(LookupOr(recs.value[0].attachments, "video", [JString("")]));
  }

  /** The video branch: create the `video` bucket, then extend it with the
      nested lookup's URLs. */
  method StoreNestedVideo(session: Session, b: Buckets, media: Json) returns (o: Outcome)
    requires DistinctKeys(b)
    ensures o == AddNestedVideo(session, b, media)
  {
    var buckets := Touch(b, "video");
    var urls := ResolveNestedVideo(session, media);
    if urls.Err? {
      return Raised(buckets, urls.error);
    }
    return Done(Extend(buckets, "video", urls.value), []);
  }

  /** The `thumb` and `sizes` steps on a photo-like payload, the inner
      `try` included. */
  method StorePhotoLike(b: Buckets, kind: string, payload: Json) returns (o: Outcome)
    requires DistinctKeys(b)
    ensures o == AddPhotoLike(b, kind, payload)
  {
    var attachment := payload;
    var hasThumb := Contains(attachment, "thumb");
    if hasThumb.Err? {
      return Raised(b, hasThumb.error);
    }
    if hasThumb.value {
      var thumb := Item(attachment, "thumb");
      if thumb.Err? {
        return Raised(b, thumb.error);
      }
      attachment := thumb.value;
    }
    var hasSizes := Contains(attachment, "sizes");
    if hasSizes.Err? {
      return Raised(b, hasSizes.error);
    }
    if !hasSizes.value {
      return Done(b, []);
    }
    var buckets := Touch(b, kind);
    var url := LargestSizeUrl(attachment);
    if url.Err? {
      return Done(buckets, [ImageError(url.error)]);
    }
    return Done(Append(buckets, kind, url.value), []);
  }

  /** The link branch: the URL, then an embedded photo or video. */
  method StoreLink(session: Session, b: Buckets, link: Json) returns (o: Outcome)
    requires DistinctKeys(b)
    ensures o == AddLink(session, b, link)
  {
    var buckets := Touch(b, "link");
    var url := Item(link, "url");
    if url.Err? {
      return Raised(buckets, url.error);
    }
    buckets := Append(buckets, "link", url.value);
    if HasKey(link.fields, "photo") {
      o := StorePhotoLike(buckets, "photo", Item(link, "photo").value);
    } else if HasKey(link.fields, "video") {
      o := StoreNestedVideo(session, buckets, Item(link, "video").value);
    } else {
      o := Done(buckets, []);
    }
  }

  /** One pass of the per-attachment loop body, `try` and `except` included:
      the buckets and the printed lines after attachment `a`. */
  method ProcessAttachment(session: Session, b: Buckets, log: seq<LogLine>, a: Json)
    returns (buckets: Buckets, newLog: seq<LogLine>)
    requires DistinctKeys(b)
    ensures Normalized(buckets, newLog) == Step(session, Normalized(b, log), a)
  {
    var o: Outcome;
    var firstType := Item(a, "type");
    if firstType.Err? {
      o := Raised(b, firstType.error);
    } else {
      var attachment := TypedPayload(a, firstType.value);
      if attachment.Err? {
        o := Raised(b, attachment.error);
      } else if firstType.value.s == "video" {
        o := StoreNestedVideo(session, b, attachment.value);
      } else if firstType.value.s == "link" {
        o := StoreLink(session, b, attachment.value);
      } else {
        o := StorePhotoLike(b, firstType.value.s, attachment.value);
      }
    }
    match o
    case Done(bs, lines) =>
      buckets, newLog := bs, log + lines;
    case Raised(bs, e) =>
      buckets, newLog := bs, log + [AttachmentError(a, e)];
  }

  /** The `for a in attachments_json` loop over a fresh `defaultdict(list)`. */
  method NormalizeAttachments(session: Session, atts: seq<Json>) returns (buckets: Buckets, log: seq<LogLine>)
    ensures Normalized(buckets, log) == Normalize(session, atts)
  {
    buckets, log := [], [];
    for i := 0 to |atts|
      invariant DistinctKeys(buckets)
      invariant Normalized(buckets, log) == Normalize(session, atts[..i])
    {
      assert atts[..i + 1][..i] == atts[..i];
      buckets, log := ProcessAttachment(session, buckets, log, atts[i]);
    }
    assert atts[..|atts|] == atts;
  }

  /** The body of the loop over wall items: attachments, then the record. */
  method ScrapeWallItem(session: Session, item: Json) returns (r: Result<Record>)
    ensures r == WallRecord(session, item)
  {
    var atts := CollectAttachments(item);
    if atts.Err? {
      return Err(atts.error);
    }
    var buckets, log := NormalizeAttachments(session, atts.value);
    var id := FormatId(Wall, item);
    if id.Err? {
      return Err(id.error);
    }
    // `item` is a dict from here on, so `.get` cannot fail
    var text := Get(item, "text", JString("")).value;
    var date := Get(item, "date", JInt(0)).value;
    var seconds := EpochSeconds(date);
    if seconds.Err? {
      return Err(seconds.error);
    }
    return Ok(Record(id.value, text, seconds.value, buckets, item));
  }

  /** The loop over wall items, each scraped imperatively. */
  method ScrapeWallItems(session: Session, items: seq<Json>) returns (r: Result<seq<Record>>)
    ensures r == MapAll(items, WallBuilder(session))
  {
    ghost var build := WallBuilder(session);
    var res: seq<Record> := [];
    var i := 0;
    while i < |items|
      invariant 0 <= i <= |items|
      invariant MapAll(items[..i], build) == Ok(res)
    {
      var rec := ScrapeWallItem(session, items[i]);
      assert rec == build(items[i]);
      MapAllStep(items, build, i, res);
      if rec.Err? {
        return Err(rec.error);
      }
      res := res + [rec.value];
      i := i + 1;
    }
    assert items[..i] == items;
    return Ok(res);
  }

  method ScrapeWallIds(session: Session, wallIds: seq<string>, copyHistoryDepth: int) returns (r: Result<seq<Record>>)
    ensures wallIds == [] ==> r == Ok([])
    ensures r == ScrapeWallIdsSpec(session, wallIds, copyHistoryDepth)
  {
    if |wallIds| == 0 {
      return Ok([]);
    }
    var api := session.transport(WallRequest(session, wallIds, copyHistoryDepth));
    if api.Err? {
      return Err(api.error);
    }
    var items := ResponseItems(api.value);
    if items.Err? {
      return Err(items.error);
    }
    r := ScrapeWallItems(session, items.value);
  }

  method ScrapeWalls(session: Session, url: string) returns (r: Result<seq<Record>>)
    ensures r == ScrapeWallsSpec(session, url)
  {
    var wallIds := Findall(url, Wall);
    r := ScrapeWallIds(session, wallIds, DefaultCopyHistoryDepth);
  }

  method Scrape(session: Session, url: string) returns (r: Result<seq<Record>>)
    ensures r == ScrapeSpec(session, url)
  {
    var walls := ScrapeWalls(session, url);
    if walls.Err? {
      return Err(walls.error);
    }
    var photos := ScrapePhotos(session, url);
    if photos.Err? {
      return Err(photos.error);
    }
    var videos := ScrapeVideos(session, url);
    if videos.Err? {
      return Err(videos.error);
    }
    return Ok(walls.value + photos.value + videos.value);
  }
}
