/** The naming side of `download_media`: which file each media URL of the
    scraped records is saved under.  Records are visited in order, each
    record's buckets in first-touch order, and within the `photo` and
    `video` buckets the URLs are numbered from 0; every other bucket is
    skipped.  A photo is saved as `{id}_{i}{ext}`, the extension taken from
    the path of its URL; a video is handed to yt-dlp with the output
    template `{id}_{i}.%(ext)s`.  The HTTP requests, yt-dlp itself and the
    file writes are outside the model: the result is the plan of names and
    URLs, in the order the source would fetch them. */
module Download {
  import opened PyJson
  import opened Buckets
  import opened Scraper

  // ---------------------------------------------------------------------
  // String searches

  /** The first index at or after `start` holding a character of `cs`, or
      `|s|` when there is none. */
  function FirstOf(s: string, start: nat, cs: set<char>): (i: nat)
    requires start <= |s|
    ensures start <= i <= |s|
    ensures i < |s| ==> s[i] in cs
    ensures forall j | start <= j < i :: s[j] !in cs
    decreases |s| - start
  {
    if start == |s| || s[start] in cs then start else FirstOf(s, start + 1, cs)
  }

  /** `s.rfind(c)`: the last index holding `c`, or -1. */
  function LastIndex(s: string, c: char): (i: int)
    ensures -1 <= i < |s|
    ensures i >= 0 ==> s[i] == c
    ensures forall j | i < j < |s| :: s[j] != c
  {
    if s == [] then -1
    else if s[|s| - 1] == c then |s| - 1
    else LastIndex(s[..|s| - 1], c)
  }

  // ---------------------------------------------------------------------
  // urllib.parse.urlparse(url).path

  predicate IsAsciiLetter(c: char) { 'a' <= c <= 'z' || 'A' <= c <= 'Z' }

  /** The characters a URL scheme may hold. */
  predicate IsSchemeChar(c: char) {
    IsAsciiLetter(c) || IsDigit(c) || c == '+' || c == '-' || c == '.'
  }

  function LowerAscii(s: string): (r: string)
    ensures |r| == |s|
  {
    seq(|s|, k requires 0 <= k < |s| => if 'A' <= s[k] <= 'Z' then (s[k] as int + 32) as char else s[k])
  }

  /** The schemes whose last path segment may carry `;params`. */
  const UsesParams: set<string> :=
    {"", "ftp", "hdl", "prospero", "http", "imap", "https", "shttp", "rtsp", "rtsps",
     "rtspu", "sip", "sips", "mms", "sftp", "tel"}

  /** `url.lstrip()` of the C0 control characters and the space. */
  function StripLeadingControl(url: string): (r: string)
    ensures |r| <= |url| && r == url[|url| - |r|..]
    ensures r != [] ==> r[0] > ' '
  {
    if url != [] && url[0] <= ' ' then StripLeadingControl(url[1..]) else url
  }

  /** Tabs, carriage returns and line feeds removed everywhere. */
  function RemoveUnsafe(url: string): (r: string)
    ensures forall k | 0 <= k < |r| :: r[k] != '\t' && r[k] != '\r' && r[k] != '\n'
  {
    if url == [] then []
    else
      var init := RemoveUnsafe(url[..|url| - 1]);
      var c := url[|url| - 1];
      if c == '\t' || c == '\r' || c == '\n' then init else init + [c]
  }

  /** The scheme, lower-cased, and the rest; no scheme unless the text
      before the first `:` is non-empty, starts with a letter and holds only
      scheme characters. */
  function SplitScheme(url: string): (r: (string, string))
    ensures r.0 == "" ==> r.1 == url
    ensures r.0 != "" ==> |r.0| < |url| && r.1 == url[|r.0| + 1..] && url[|r.0|] == ':'
  {
    var i := FirstOf(url, 0, {':'});
    if 0 < i < |url| && IsAsciiLetter(url[0]) && forall j | 0 <= j < i :: IsSchemeChar(url[j])
    then (LowerAscii(url[..i]), url[i + 1..])
    else ("", url)
  }

  /** The path with the `;params` of its last segment cut off. */
  function CutParams(url: string): (r: string)
    ensures |r| <= |url| && r == url[..|r|]
  {
    var slash := LastIndex(url, '/');
    url[..FirstOf(url, if slash < 0 then 0 else slash, {';'})]
  }

  /** `//netloc` split off the front: it ends at the first `/`, `?` or
      `#`. */
  function SplitNetloc(rest: string): (r: (string, string))
    ensures |rest| < 2 || rest[..2] != "//" ==> r == ("", rest)
    ensures |r.1| <= |rest| && r.1 == rest[|rest| - |r.1|..]
  {
    if |rest| >= 2 && rest[..2] == "//" then
      var e := FirstOf(rest, 2, {'/', '?', '#'});
      (rest[2..e], rest[e..])
    else ("", rest)
  }

  /** What precedes the fragment and the query. */
  function BeforeQuery(s: string): (r: string)
    ensures |r| <= |s| && r == s[..|r|]
    ensures '#' !in r && '?' !in r
  {
    var a := s[..FirstOf(s, 0, {'#'})];
    var b := a[..FirstOf(a, 0, {'?'})];
    assert forall k | 0 <= k < |b| :: b[k] == a[k] && a[k] != '#';
    b
  }

  /** `urlparse(url).path`: after cleaning, drop the scheme, then the
      `//netloc` (ValueError when it holds only one of `[` and `]`), then
      the fragment, the query and, for the schemes that have them, the
      params. */
  function UrlPath(url: string): (r: Result<string>)
    ensures r.Ok? ==> '#' !in r.value && '?' !in r.value
    ensures r.Err? ==> r.error == ValueError
  {
    var (scheme, rest) := SplitScheme(RemoveUnsafe(StripLeadingControl(url)));
    var (netloc, afterNet) := SplitNetloc(rest);
    if ('[' in netloc) != (']' in netloc) then Err(ValueError)
    else
      var path := BeforeQuery(afterNet);
      if scheme in UsesParams && ';' in path then
        var cut := CutParams(path);
        assert forall k | 0 <= k < |cut| :: cut[k] == path[k];
        Ok(cut)
      else Ok(path)
  }

  // ---------------------------------------------------------------------
  // os.path.splitext and os.path.join (POSIX)

  /** `os.path.splitext(p)`: the extension runs from the last `.` of the
      last path component, unless that component is only dots up to it. */
  function SplitExt(p: string): (r: (string, string))
    ensures r.0 + r.1 == p
    ensures r.1 == "" || (r.1[0] == '.' && '/' !in r.1 && '.' !in r.1[1..])
  {
    var sep := LastIndex(p, '/');
    var dot := LastIndex(p, '.');
    if dot > sep && exists j | sep < j < dot :: p[j] != '.' then
      assert p[..dot] + p[dot..] == p;
      (p[..dot], p[dot..])
    else (p, "")
  }

  /** `os.path.join(a, b)`: an absolute `b` replaces `a`; otherwise `b` is
      appended after a `/` unless `a` is empty or already ends in one. */
  function PathJoin(a: string, b: string): (r: string)
    ensures |r| >= |b| && r[|r| - |b|..] == b
  {
    if b != [] && b[0] == '/' then b
    else if a == [] || a[|a| - 1] == '/' then a + b
    else a + "/" + b
  }

  // ---------------------------------------------------------------------
  // The plan

  /** Python truthiness of a JSON value: the false values are exactly
      `None`, `False`, `0` and the empty string, list and dict. */
  function Truthy(j: Json): (r: bool)
    ensures !r <==> (j == JNull || j == JBool(false) || j == JInt(0) || j == JString("") ||
                     j == JArray([]) || j == JObject([]))
  {
    match j
    case JNull => false
    case JBool(b) => b
    case JInt(i) => i != 0
    case JString(s) => s != []
    case JArray(items) => items != []
    case JObject(fields) => fields != []
  }

  /** The `ext` of a photo URL.  `urlparse` decodes any value that is not a
      string as bytes: a false value becomes empty bytes, whose extension
      formats as `b''` in the file name; a true one has no `decode`. */
  function Ext(url: Json): (r: Result<string>)
    ensures r.Ok? ==> r.value == "" || !IsDigit(r.value[0])
    ensures r.Err? <==> (url.JString? && UrlPath(url.s).Err?) || (!url.JString? && Truthy(url))
  {
    match url
    case JString(s) =>
      var path :- UrlPath(s);
      Ok(SplitExt(path).1)
    case _ => if Truthy(url) then Err(AttributeError) else Ok("b''")
  }

  /** One planned download: a photo file and its URL, or a yt-dlp output
      template and the URL handed to yt-dlp. */
  datatype Planned = PhotoFile(file: string, url: Json) | VideoTemplate(template: string, url: Json)

  /** The base name of the `i`-th media file of record `id`. */
  function MediaName(id: string, i: nat, ext: string): (r: string)
    ensures |r| > |id| + 1 && r[..|id| + 1] == id + "_"
    ensures |r| >= |ext| && r[|r| - |ext|..] == ext
  {
    id + "_" + NatStr(i) + ext
  }

  const VideoExt := ".%(ext)s"

  /** The destination `download_media` uses when none is given. */
  const DefaultDestination := "./output/"

  function PhotoPlan(dest: string, id: string, i: nat, url: Json): (r: Result<Planned>)
    ensures r.Ok? <==> Ext(url).Ok?
    ensures r.Ok? ==> r.value == PhotoFile(PathJoin(dest, MediaName(id, i, Ext(url).value)), url)
  {
    var ext :- Ext(url);
    Ok(PhotoFile(PathJoin(dest, MediaName(id, i, ext)), url))
  }

  /** A video is handed to yt-dlp with the template `{id}_{i}.%(ext)s`
      in the destination. */
  function VideoPlan(dest: string, id: string, i: nat, url: Json): (r: Planned)
    ensures r.VideoTemplate? && r.url == url
  {
    VideoTemplate(PathJoin(dest, MediaName(id, i, VideoExt)), url)
  }

  /** `for i, url in enumerate(urls)` planning each URL; the first
      exception ends the loop. */
  function NumberAll(urls: seq<Json>, plan: (nat, Json) -> Result<Planned>): (r: Result<seq<Planned>>)
    ensures r.Ok? <==> forall i | 0 <= i < |urls| :: plan(i, urls[i]).Ok?
    ensures r.Ok? ==> (|r.value| == |urls| &&
      forall i | 0 <= i < |urls| :: plan(i, urls[i]) == Ok(r.value[i]))
  {
    if urls == [] then Ok([])
    else
      var n := |urls| - 1;
      var init := NumberAll(urls[..n], plan);
      var last := plan(n, urls[n]);
      if init.Err? then Err(init.error)
      else if last.Err? then Err(last.error)
      else Ok(init.value + [last.value])
  }

  /** A loop over `xs` whose body plans a list of downloads each; the first
      exception ends it. */
  function ConcatAll<T>(xs: seq<T>, plan: T -> Result<seq<Planned>>): (r: Result<seq<Planned>>)
    ensures r.Ok? <==> forall k | 0 <= k < |xs| :: plan(xs[k]).Ok?
  {
    if xs == [] then Ok([])
    else
      var n := |xs| - 1;
      var init := ConcatAll(xs[..n], plan);
      var last := plan(xs[n]);
      if init.Err? then Err(init.error)
      else if last.Err? then Err(last.error)
      else Ok(init.value + last.value)
  }

  function PhotoPlanner(dest: string, id: string): (planner: (nat, Json) -> Result<Planned>) {
    (i: nat, url: Json) => PhotoPlan(dest, id, i, url)
  }

  /** The video bucket, numbered from 0; it cannot fail. */
  function VideoPlans(dest: string, id: string, urls: seq<Json>): (r: seq<Planned>)
    ensures |r| == |urls|
  {
    seq(|urls|, i requires 0 <= i < |urls| => VideoPlan(dest, id, i, urls[i]))
  }

  /** One bucket: photos and videos are planned, every other key skipped. */
  function BucketPlan(dest: string, id: string, bucket: (string, seq<Json>)): (r: Result<seq<Planned>>)
    ensures bucket.0 != "photo" && bucket.0 != "video" ==> r == Ok([])
    ensures bucket.0 == "video" ==> r.Ok? && |r.value| == |bucket.1|
    ensures bucket.0 == "photo" ==> (r.Ok? <==> forall i | 0 <= i < |bucket.1| :: Ext(bucket.1[i]).Ok?)
  {
    if bucket.0 == "photo" then NumberAll(bucket.1, PhotoPlanner(dest, id))
    else if bucket.0 == "video" then Ok(VideoPlans(dest, id, bucket.1))
    else Ok([])
  }

  function BucketPlanner(dest: string, id: string): (planner: ((string, seq<Json>)) -> Result<seq<Planned>>) {
    bucket => BucketPlan(dest, id, bucket)
  }

  /** A record's buckets, in order. */
  function RecordPlan(dest: string, r: Record): (p: Result<seq<Planned>>)
    ensures p.Ok? <==> forall k | 0 <= k < |r.attachments| :: BucketPlan(dest, r.id, r.attachments[k]).Ok?
  {
    ConcatAll(r.attachments, BucketPlanner(dest, r.id))
  }

  function RecordPlanner(dest: string): (planner: Record -> Result<seq<Planned>>) {
    r => RecordPlan(dest, r)
  }

  /** `download_media(results, destination)`: the records in order. */
  function Plan(dest: string, records: seq<Record>): (r: Result<seq<Planned>>)
    ensures records == [] ==> r == Ok([])
    ensures r.Ok? <==> forall k | 0 <= k < |records| :: RecordPlan(dest, records[k]).Ok?
  {
    ConcatAll(records, RecordPlanner(dest))
  }

  // ---------------------------------------------------------------------
  // An exception ends the download

  lemma {:induction false} NumberAllPrefixErr(urls: seq<Json>, plan: (nat, Json) -> Result<Planned>, i: nat)
    requires i <= |urls| && NumberAll(urls[..i], plan).Err?
    ensures NumberAll(urls, plan) == NumberAll(urls[..i], plan)
    decreases |urls|
  {
    if i < |urls| {
      var n := |urls| - 1;
      assert urls[..n][..i] == urls[..i];
      NumberAllPrefixErr(urls[..n], plan, i);
    } else {
      assert urls[..i] == urls;
    }
  }

  /** One turn of the numbered loop. */
  lemma NumberAllStep(urls: seq<Json>, plan: (nat, Json) -> Result<Planned>, i: nat, done: seq<Planned>)
    requires i < |urls| && NumberAll(urls[..i], plan) == Ok(done)
    ensures plan(i, urls[i]).Err? ==> NumberAll(urls, plan) == Err(plan(i, urls[i]).error)
    ensures plan(i, urls[i]).Ok? ==> NumberAll(urls[..i + 1], plan) == Ok(done + [plan(i, urls[i]).value])
  {
    assert urls[..i + 1][..i] == urls[..i];
    if plan(i, urls[i]).Err? {
      NumberAllPrefixErr(urls, plan, i + 1);
    }
  }

  lemma {:induction false} ConcatAllPrefixErr<T>(xs: seq<T>, plan: T -> Result<seq<Planned>>, i: nat)
    requires i <= |xs| && ConcatAll(xs[..i], plan).Err?
    ensures ConcatAll(xs, plan) == ConcatAll(xs[..i], plan)
    decreases |xs|
  {
    if i < |xs| {
      var n := |xs| - 1;
      assert xs[..n][..i] == xs[..i];
      ConcatAllPrefixErr(xs[..n], plan, i);
    } else {
      assert xs[..i] == xs;
    }
  }

  /** One turn of the loop over buckets or records. */
  lemma ConcatAllStep<T>(xs: seq<T>, plan: T -> Result<seq<Planned>>, i: nat, done: seq<Planned>)
    requires i < |xs| && ConcatAll(xs[..i], plan) == Ok(done)
    ensures plan(xs[i]).Err? ==> ConcatAll(xs, plan) == Err(plan(xs[i]).error)
    ensures plan(xs[i]).Ok? ==> ConcatAll(xs[..i + 1], plan) == Ok(done + plan(xs[i]).value)
  {
    assert xs[..i + 1][..i] == xs[..i];
    if plan(xs[i]).Err? {
      ConcatAllPrefixErr(xs, plan, i + 1);
    }
  }

  // ---------------------------------------------------------------------
  // The loops

  method PlanPhotos(dest: string, id: string, urls: seq<Json>) returns (r: Result<seq<Planned>>)
    ensures r == NumberAll(urls, PhotoPlanner(dest, id))
  {
    ghost var plan := PhotoPlanner(dest, id);
    var planned: seq<Planned> := [];
    for i := 0 to |urls|
      invariant NumberAll(urls[..i], plan) == Ok(planned)
    {
      var ext := Ext(urls[i]);
      assert plan(i, urls[i]) == PhotoPlan(dest, id, i, urls[i]);
      NumberAllStep(urls, plan, i, planned);
      if ext.Err? {
        return Err(ext.error);
      }
      planned := planned + [PhotoFile(PathJoin(dest, MediaName(id, i, ext.value)), urls[i])];
    }
    assert urls[..|urls|] == urls;
    return Ok(planned);
  }

  /** One turn of the video loop: the next template is numbered by its
      position. */
  lemma VideoPlansStep(dest: string, id: string, urls: seq<Json>, i: nat)
    requires i < |urls|
    ensures VideoPlans(dest, id, urls[..i + 1]) == VideoPlans(dest, id, urls[..i]) + [VideoPlan(dest, id, i, urls[i])]
  {
    var next := VideoPlans(dest, id, urls[..i + 1]);
    var done := VideoPlans(dest, id, urls[..i]);
    forall j | 0 <= j < i
      ensures next[j] == done[j]
    {
      assert urls[..i + 1][j] == urls[..i][j];
    }
  }

  method PlanVideos(dest: string, id: string, urls: seq<Json>) returns (planned: seq<Planned>)
    ensures planned == VideoPlans(dest, id, urls)
  {
    planned := [];
    for i := 0 to |urls|
      invariant planned == VideoPlans(dest, id, urls[..i])
    {
      VideoPlansStep(dest, id, urls, i);
      planned := planned + [VideoPlan(dest, id, i, urls[i])];
    }
    assert urls[..|urls|] == urls;
  }

  /** The loop over one record's buckets. */
  method PlanRecord(dest: string, rec: Record) returns (r: Result<seq<Planned>>)
    ensures r == RecordPlan(dest, rec)
  {
    ghost var plan := BucketPlanner(dest, rec.id);
    var b := rec.attachments;
    var planned: seq<Planned> := [];
    for k := 0 to |b|
      invariant ConcatAll(b[..k], plan) == Ok(planned)
    {
      var part: Result<seq<Planned>>;
      if b[k].0 == "photo" {
        part := PlanPhotos(dest, rec.id, b[k].1);
      } else if b[k].0 == "video" {
        var videos := PlanVideos(dest, rec.id, b[k].1);
        part := Ok(videos);
      } else {
        part := Ok([]);
      }
      assert plan(b[k]) == part;
      ConcatAllStep(b, plan, k, planned);
      if part.Err? {
        return Err(part.error);
      }
      planned := planned + part.value;
    }
    assert b[..|b|] == b;
    return Ok(planned);
  }

  /** The loop over the records. */
  method PlanDownloads(dest: string, records: seq<Record>) returns (r: Result<seq<Planned>>)
    ensures r == Plan(dest, records)
  {
    ghost var plan := RecordPlanner(dest);
    var planned: seq<Planned> := [];
    for k := 0 to |records|
      invariant ConcatAll(records[..k], plan) == Ok(planned)
    {
      var one := PlanRecord(dest, records[k]);
      assert plan(records[k]) == one;
      ConcatAllStep(records, plan, k, planned);
      if one.Err? {
        return Err(one.error);
      }
      planned := planned + one.value;
    }
    assert records[..|records|] == records;
    return Ok(planned);
  }
}
