/** Properties of the download plan: the names in a bucket never collide,
    the plan has one entry per photo and video URL, other buckets change
    nothing, and a URL of the usual shape gives the extension of its file
    name. */
module DownloadProperties {
  import opened PyJson
  import opened Buckets
  import opened Scraper
  import opened Download
  import opened Pattern

  // ---------------------------------------------------------------------
  // Names within a bucket are distinct

  /** A run of digits followed by nothing or by a non-digit is determined by
      the text it starts. */
  lemma DigitRunUnique(d1: string, e1: string, d2: string, e2: string)
    requires AllDigits(d1) && AllDigits(d2)
    requires e1 == [] || !IsDigit(e1[0])
    requires e2 == [] || !IsDigit(e2[0])
    requires d1 + e1 == d2 + e2
    ensures d1 == d2
  {
    var x := d1 + e1;
    assert x[0..|d1|] == d1 && x[0..|d2|] == d2;
    DigitEndExact(x, 0, |d1|);
    DigitEndExact(x, 0, |d2|);
    assert d1 == x[..|d1|];
  }

  /** Two media names of one record differ when their numbers differ, whatever
      their extensions. */
  lemma MediaNameInjective(id: string, i: nat, j: nat, e1: string, e2: string)
    requires e1 == [] || !IsDigit(e1[0])
    requires e2 == [] || !IsDigit(e2[0])
    requires MediaName(id, i, e1) == MediaName(id, j, e2)
    ensures i == j
  {
    var p := id + "_";
    assert MediaName(id, i, e1) == p + (NatStr(i) + e1);
    assert MediaName(id, j, e2) == p + (NatStr(j) + e2);
    assert NatStr(i) + e1 == MediaName(id, i, e1)[|p|..];
    DigitRunUnique(NatStr(i), e1, NatStr(j), e2);
    NatStrInjective(i, j);
  }

  /** Joining one directory with two names that start alike keeps them
      apart. */
  lemma PathJoinInjective(a: string, b1: string, b2: string)
    requires b1 != [] && b2 != [] && b1[0] == b2[0]
    requires PathJoin(a, b1) == PathJoin(a, b2)
    ensures b1 == b2
  {
    var r := PathJoin(a, b1);
    if b1[0] != '/' {
      var p := if a == [] || a[|a| - 1] == '/' then a else a + "/";
      assert r == p + b1 && r == p + b2;
      assert b1 == r[|p|..] == b2;
    }
  }

  lemma MediaNameStart(id: string, i: nat, e: string)
    ensures MediaName(id, i, e) != []
    ensures MediaName(id, i, e)[0] == if id == [] then '_' else id[0]
  {
    assert MediaName(id, i, e) == id + ("_" + NatStr(i) + e);
  }

  /** Two photos of one bucket are never saved under the same name. */
  lemma PhotoNamesDistinct(dest: string, id: string, urls: seq<Json>, i: nat, j: nat)
    requires NumberAll(urls, PhotoPlanner(dest, id)).Ok?
    requires i < j < |urls|
    ensures var plans := NumberAll(urls, PhotoPlanner(dest, id)).value;
      plans[i].PhotoFile? && plans[j].PhotoFile? && plans[i].file != plans[j].file
  {
    var plans := NumberAll(urls, PhotoPlanner(dest, id)).value;
    assert PhotoPlanner(dest, id)(i, urls[i]) == Ok(plans[i]);
    assert PhotoPlanner(dest, id)(j, urls[j]) == Ok(plans[j]);
    var n1 := MediaName(id, i, Ext(urls[i]).value);
    var n2 := MediaName(id, j, Ext(urls[j]).value);
    MediaNameStart(id, i, Ext(urls[i]).value);
    MediaNameStart(id, j, Ext(urls[j]).value);
    if plans[i].file == plans[j].file {
      PathJoinInjective(dest, n1, n2);
      MediaNameInjective(id, i, j, Ext(urls[i]).value, Ext(urls[j]).value);
    }
  }

  /** Two videos of one bucket never get the same output template. */
  lemma VideoTemplatesDistinct(dest: string, id: string, urls: seq<Json>, i: nat, j: nat)
    requires i < j < |urls|
    ensures VideoPlans(dest, id, urls)[i].template != VideoPlans(dest, id, urls)[j].template
  {
    var n1 := MediaName(id, i, VideoExt);
    var n2 := MediaName(id, j, VideoExt);
    MediaNameStart(id, i, VideoExt);
    MediaNameStart(id, j, VideoExt);
    if PathJoin(dest, n1) == PathJoin(dest, n2) {
      PathJoinInjective(dest, n1, n2);
      MediaNameInjective(id, i, j, VideoExt, VideoExt);
    }
  }

  // ---------------------------------------------------------------------
  // One entry per photo and video URL

  /** How many media URLs a record's buckets hold. */
  function MediaCount(b: Buckets): (n: nat) {
    |Lookup(b, "photo")| + |Lookup(b, "video")|
  }

  /** A photo or video bucket plans one entry per URL; other buckets none. */
  lemma BucketPlanCount(dest: string, id: string, bucket: (string, seq<Json>))
    requires BucketPlan(dest, id, bucket).Ok?
    ensures |BucketPlan(dest, id, bucket).value|
            == if bucket.0 == "photo" || bucket.0 == "video" then |bucket.1| else 0
  {
  }

  /** The last bucket adds its URLs when it is a photo or video bucket. */
  lemma MediaCountLast(b: Buckets)
    requires DistinctKeys(b) && b != []
    ensures var n := |b| - 1;
            MediaCount(b) == MediaCount(b[..n]) + if b[n].0 == "photo" || b[n].0 == "video" then |b[n].1| else 0
  {
    var n := |b| - 1;
    assert b == b[..n] + [(b[n].0, b[n].1)];
    assert "photo" != "video" by { assert "photo"[0] != "video"[0]; }
    LookupSnoc(b[..n], b[n].0, b[n].1, "photo");
    LookupSnoc(b[..n], b[n].0, b[n].1, "video");
  }

  lemma ConcatAllLast<T>(xs: seq<T>, plan: T -> Result<seq<Planned>>)
    requires xs != [] && ConcatAll(xs, plan).Ok?
    ensures var n := |xs| - 1;
            ConcatAll(xs[..n], plan).Ok? && plan(xs[n]).Ok? &&
            ConcatAll(xs, plan).value == ConcatAll(xs[..n], plan).value + plan(xs[n]).value
  {
  }

  lemma {:induction false} BucketsCount(dest: string, id: string, b: Buckets)
    requires DistinctKeys(b) && ConcatAll(b, BucketPlanner(dest, id)).Ok?
    ensures |ConcatAll(b, BucketPlanner(dest, id)).value| == MediaCount(b)
    decreases |b|
  {
    if b != [] {
      var n := |b| - 1;
      assert DistinctKeys(b[..n]);
      ConcatAllLast(b, BucketPlanner(dest, id));
      assert BucketPlanner(dest, id)(b[n]) == BucketPlan(dest, id, b[n]);
      BucketsCount(dest, id, b[..n]);
      BucketPlanCount(dest, id, b[n]);
      MediaCountLast(b);
    }
  }

  /** A record that can be downloaded plans exactly one download per URL in
      its `photo` and `video` buckets. */
  lemma RecordCount(dest: string, r: Record)
    requires DistinctKeys(r.attachments) && RecordPlan(dest, r).Ok?
    ensures |RecordPlan(dest, r).value| == MediaCount(r.attachments)
  {
    BucketsCount(dest, r.id, r.attachments);
  }

  /** The same over all records. */
  function TotalMediaCount(records: seq<Record>): (n: nat) {
    if records == [] then 0
    else TotalMediaCount(records[..|records| - 1]) + MediaCount(records[|records| - 1].attachments)
  }

  lemma {:induction false} PlanCount(dest: string, records: seq<Record>)
    requires forall k | 0 <= k < |records| :: DistinctKeys(records[k].attachments)
    requires Plan(dest, records).Ok?
    ensures |Plan(dest, records).value| == TotalMediaCount(records)
    decreases |records|
  {
    if records != [] {
      var n := |records| - 1;
      PlanCount(dest, records[..n]);
      assert RecordPlanner(dest)(records[n]) == RecordPlan(dest, records[n]);
      RecordCount(dest, records[n]);
    }
  }

  // ---------------------------------------------------------------------
  // Buckets other than photo and video are skipped

  /** An element whose plan is empty can be taken out of a loop. */
  lemma {:induction false} ConcatAllSkip<T>(xs: seq<T>, x: T, ys: seq<T>, plan: T -> Result<seq<Planned>>)
    requires plan(x) == Ok([])
    ensures ConcatAll(xs + [x] + ys, plan) == ConcatAll(xs + ys, plan)
    decreases |ys|
  {
    if ys == [] {
      assert xs + [x] + ys == xs + [x];
      assert (xs + [x])[..|xs|] == xs;
      assert xs + ys == xs;
      var c := ConcatAll(xs, plan);
      if c.Ok? {
        assert c.value + [] == c.value;
      }
    } else {
      var m := |ys| - 1;
      ConcatAllSkip(xs, x, ys[..m], plan);
      assert (xs + [x] + ys)[..|xs| + 1 + m] == xs + [x] + ys[..m];
      assert (xs + ys)[..|xs| + m] == xs + ys[..m];
      assert (xs + [x] + ys)[|xs| + 1 + m] == ys[m] == (xs + ys)[|xs| + m];
    }
  }

  /** A bucket under any other key plans nothing and can be removed from a
      record without changing its downloads. */
  lemma OtherBucketIgnored(dest: string, r: Record, before: Buckets, k: string, urls: seq<Json>, after: Buckets)
    requires k != "photo" && k != "video"
    requires r.attachments == before + [(k, urls)] + after
    ensures RecordPlan(dest, r) == RecordPlan(dest, r.(attachments := before + after))
  {
    assert BucketPlanner(dest, r.id)((k, urls)) == Ok([]);
    ConcatAllSkip(before, (k, urls), after, BucketPlanner(dest, r.id));
  }

  // ---------------------------------------------------------------------
  // The extension of a URL of the usual shape

  /** No character of `s` is in `bad`. */
  predicate Avoids(s: string, bad: set<char>) {
    forall k | 0 <= k < |s| :: s[k] !in bad
  }

  const Unsafe: set<char> := {'\t', '\r', '\n'}

  lemma {:induction false} RemoveUnsafeClean(s: string)
    requires Avoids(s, Unsafe)
    ensures RemoveUnsafe(s) == s
  {
    if s != [] {
      var n := |s| - 1;
      assert Avoids(s[..n], Unsafe);
      RemoveUnsafeClean(s[..n]);
      assert s[..n] + [s[n]] == s;
    }
  }

  /** A lower-case scheme followed by `:` is split off as it is. */
  lemma SchemeOf(scheme: string, rest: string)
    requires scheme != [] && forall k | 0 <= k < |scheme| :: 'a' <= scheme[k] <= 'z'
    ensures SplitScheme(scheme + ":" + rest) == (scheme, rest)
  {
    var url := scheme + ":" + rest;
    assert url[|scheme|] == ':';
    assert forall j | 0 <= j < |scheme| :: url[j] == scheme[j];
    assert FirstOf(url, 0, {':'}) == |scheme|;
    assert url[..|scheme|] == scheme;
    assert LowerAscii(scheme) == scheme;
    assert url[|scheme| + 1..] == rest;
  }

  /** `//host` ends where the path begins. */
  lemma NetlocOf(host: string, path: string)
    requires Avoids(host, {'/', '?', '#'}) && path != [] && path[0] == '/'
    ensures SplitNetloc("//" + host + path) == (host, path)
  {
    var rest := "//" + host + path;
    assert rest[..2] == "//";
    assert forall j | 2 <= j < 2 + |host| :: rest[j] == host[j - 2];
    assert rest[2 + |host|] == '/';
    assert FirstOf(rest, 2, {'/', '?', '#'}) == 2 + |host|;
    assert rest[2..2 + |host|] == host && rest[2 + |host|..] == path;
  }

  /** The query, and any fragment after it, is cut off. */
  lemma BeforeQueryOf(path: string, query: string)
    requires Avoids(path, {'?', '#'})
    ensures BeforeQuery(path + "?" + query) == path
  {
    var s := path + "?" + query;
    assert forall j | 0 <= j < |path| :: s[j] == path[j];
    assert s[|path|] == '?';
    var f := FirstOf(s, 0, {'#'});
    assert f > |path|;
    var a := s[..f];
    assert forall j | 0 <= j <= |path| :: a[j] == s[j];
    assert FirstOf(a, 0, {'?'}) == |path|;
    assert a[..|path|] == path;
  }

  lemma AvoidsConcat(a: string, b: string, bad: set<char>)
    requires Avoids(a, bad) && Avoids(b, bad)
    ensures Avoids(a + b, bad)
  {
    forall k | 0 <= k < |a + b| ensures (a + b)[k] !in bad {
      if k >= |a| {
        assert (a + b)[k] == b[k - |a|];
      }
    }
  }

  lemma AvoidsSmaller(s: string, bad: set<char>, fewer: set<char>)
    requires Avoids(s, bad) && fewer <= bad
    ensures Avoids(s, fewer)
  {
  }

  /** `urlparse` put together from its steps. */
  lemma UrlPathFromSteps(url: string, scheme: string, rest: string, netloc: string, afterNet: string, path: string)
    requires SplitScheme(RemoveUnsafe(StripLeadingControl(url))) == (scheme, rest)
    requires SplitNetloc(rest) == (netloc, afterNet)
    requires '[' !in netloc && ']' !in netloc
    requires BeforeQuery(afterNet) == path && ';' !in path
    ensures UrlPath(url) == Ok(path)
  {
  }

  lemma UrlAvoidsUnsafe(scheme: string, host: string, path: string, query: string)
    requires forall k | 0 <= k < |scheme| :: 'a' <= scheme[k] <= 'z'
    requires Avoids(host, Unsafe) && Avoids(path, Unsafe) && Avoids(query, Unsafe)
    ensures Avoids(scheme + "://" + host + path + "?" + query, Unsafe)
  {
    AvoidsConcat(scheme, "://", Unsafe);
    AvoidsConcat(scheme + "://", host, Unsafe);
    AvoidsConcat(scheme + "://" + host, path, Unsafe);
    AvoidsConcat(scheme + "://" + host + path, "?", Unsafe);
    AvoidsConcat(scheme + "://" + host + path + "?", query, Unsafe);
  }

  /** `urlparse` of `scheme://host/path?query` has path `/path`. */
  lemma UrlPathOfParts(scheme: string, host: string, path: string, query: string)
    requires scheme != [] && forall k | 0 <= k < |scheme| :: 'a' <= scheme[k] <= 'z'
    requires Avoids(host, {'/', '?', '#', '[', ']', '\t', '\r', '\n'})
    requires path != [] && path[0] == '/' && Avoids(path, {'?', '#', ';', '\t', '\r', '\n'})
    requires Avoids(query, Unsafe)
    ensures UrlPath(scheme + "://" + host + path + "?" + query) == Ok(path)
  {
    var tail := path + "?" + query;
    var rest := "//" + host + tail;
    var url := scheme + "://" + host + path + "?" + query;
    assert url == scheme + ":" + rest;
    AvoidsSmaller(host, {'/', '?', '#', '[', ']', '\t', '\r', '\n'}, Unsafe);
    AvoidsSmaller(path, {'?', '#', ';', '\t', '\r', '\n'}, Unsafe);
    UrlAvoidsUnsafe(scheme, host, path, query);
    CleanUrlPath(scheme, rest);
    NetlocOf(host, tail);
    BeforeQueryOf(path, query);
    UrlPathFromSteps(url, scheme, rest, host, tail, path);
  }

  lemma CleanUrlPath(scheme: string, rest: string)
    requires scheme != [] && forall k | 0 <= k < |scheme| :: 'a' <= scheme[k] <= 'z'
    requires Avoids(scheme + ":" + rest, Unsafe)
    ensures SplitScheme(RemoveUnsafe(StripLeadingControl(scheme + ":" + rest))) == (scheme, rest)
  {
    var url := scheme + ":" + rest;
    assert url[0] == scheme[0];
    assert StripLeadingControl(url) == url;
    RemoveUnsafeClean(url);
    SchemeOf(scheme, rest);
  }

  /** `os.path.splitext` of `dir/stem.e` takes `.e` when `e` has no dot or
      slash and the stem is not all dots. */
  lemma SplitExtOfName(dir: string, stem: string, e: string)
    requires Avoids(stem, {'/'}) && Avoids(e, {'/', '.'})
    requires exists j | 0 <= j < |stem| :: stem[j] != '.'
    ensures SplitExt(dir + "/" + stem + "." + e) == (dir + "/" + stem, "." + e)
  {
    var p := dir + "/" + stem + "." + e;
    var dot := |dir| + 1 + |stem|;
    assert p[|dir|] == '/' && p[dot] == '.';
    assert forall j | |dir| < j < |p| :: p[j] != '/' by {
      forall j | |dir| < j < |p| ensures p[j] != '/' {
        if j < dot {
          assert p[j] == stem[j - |dir| - 1];
        } else if j > dot {
          assert p[j] == e[j - dot - 1];
        }
      }
    }
    assert forall j | dot < j < |p| :: p[j] != '.' by {
      forall j | dot < j < |p| ensures p[j] != '.' {
        assert p[j] == e[j - dot - 1];
      }
    }
    assert LastIndex(p, '/') == |dir|;
    assert LastIndex(p, '.') == dot;
    var j0 :| 0 <= j0 < |stem| && stem[j0] != '.';
    assert p[|dir| + 1 + j0] == stem[j0];
    assert p[..dot] == dir + "/" + stem && p[dot..] == "." + e;
  }

  /** The extension of a photo URL `scheme://host/dir/stem.e?query` is
      `.e`. */
  lemma ExtOfUrl(scheme: string, host: string, dir: string, stem: string, e: string, query: string)
    requires scheme != [] && forall k | 0 <= k < |scheme| :: 'a' <= scheme[k] <= 'z'
    requires Avoids(host, {'/', '?', '#', '[', ']', '\t', '\r', '\n'})
    requires Avoids(dir, {'?', '#', ';', '\t', '\r', '\n'}) && (dir == [] || dir[0] == '/')
    requires Avoids(stem, {'/', '?', '#', ';', '\t', '\r', '\n'}) && exists j | 0 <= j < |stem| :: stem[j] != '.'
    requires Avoids(e, {'/', '.', '?', '#', ';', '\t', '\r', '\n'})
    requires Avoids(query, Unsafe)
    ensures Ext(JString(scheme + "://" + host + (dir + "/" + stem + "." + e) + "?" + query)) == Ok("." + e)
  {
    var bad := {'?', '#', ';', '\t', '\r', '\n'};
    var path := dir + "/" + stem + "." + e;
    assert path[0] == '/';
    AvoidsSmaller(stem, {'/', '?', '#', ';', '\t', '\r', '\n'}, bad);
    AvoidsSmaller(e, {'/', '.', '?', '#', ';', '\t', '\r', '\n'}, bad);
    AvoidsConcat(dir, "/", bad);
    AvoidsConcat(dir + "/", stem, bad);
    AvoidsConcat(dir + "/" + stem, ".", bad);
    AvoidsConcat(dir + "/" + stem + ".", e, bad);
    UrlPathOfParts(scheme, host, path, query);
    SplitExtOfName(dir, stem, e);
  }

  /** So such a photo is saved as `{id}_{i}.e` in the destination. */
  lemma PhotoFileOfUrl(dest: string, id: string, i: nat,
                       scheme: string, host: string, dir: string, stem: string, e: string, query: string)
    requires scheme != [] && forall k | 0 <= k < |scheme| :: 'a' <= scheme[k] <= 'z'
    requires Avoids(host, {'/', '?', '#', '[', ']', '\t', '\r', '\n'})
    requires Avoids(dir, {'?', '#', ';', '\t', '\r', '\n'}) && (dir == [] || dir[0] == '/')
    requires Avoids(stem, {'/', '?', '#', ';', '\t', '\r', '\n'}) && exists j | 0 <= j < |stem| :: stem[j] != '.'
    requires Avoids(e, {'/', '.', '?', '#', ';', '\t', '\r', '\n'})
    requires Avoids(query, Unsafe)
    ensures var url := JString(scheme + "://" + host + (dir + "/" + stem + "." + e) + "?" + query);
      PhotoPlan(dest, id, i, url) == Ok(PhotoFile(PathJoin(dest, MediaName(id, i, "." + e)), url))
  {
    ExtOfUrl(scheme, host, dir, stem, e, query);
  }
}
