# vk-url-scraper, modelled in Dafny

This project models the core of `vk_url_scraper` (`VkScraper` in
`vk_url_scraper/scraper.py`). Given a piece of text, typically a vk.com URL,
the scraper does the following:

- It finds every `wall…`, `photo…` and `video…` identifier in the text, using
  the regular expressions `kw.{0,1}\d+_\d+`.
- It strips the keyword from each identifier and sends them, comma-joined, in
  one batch request per family to the vk.com API.
- It turns each returned item into a record. A record holds `id`, `text`,
  `datetime`, `attachments` and `payload`.
- For wall posts it normalises the attachments into URL buckets (`photo`,
  `video`, `link`, …). It resolves nested videos through a further
  `scrape_videos` call. Each attachment's exception is caught and printed,
  and the loop goes on with the next attachment. What the attachment had
  already done stays: a bucket it created (possibly empty), and a `link` URL
  appended before the exception.
- `download_media` saves the URLs of the `photo` and `video` buckets into a
  destination directory as `{id}_{i}{ext}`. Photos take their extension from
  the URL path; videos use the template `{id}_{i}.%(ext)s`. The destination
  defaults to `./output/` (`Download.DefaultDestination`).

The HTTP transport is a parameter of the model. `Session.transport` maps a
request (endpoint and parameters) to the decoded JSON, or to an exception. So
every scrape is a pure function of the session and the text.

Python exceptions become `Err` values carrying the exception kind. Each loop
of the source is a `method` with loop invariants. That method is proved equal
to a function that specifies it, and the properties are proved as lemmas
about that function.

Modules:

- `PyJson` (json.dfy): JSON values, and the Python semantics the scraper
  applies to them: subscripting, `.get`, `in`, iteration, `sum` of lists,
  f-string formatting and `str.replace`.
- `Buckets` (buckets.dfy): the `defaultdict(list)` of attachment buckets, as
  an ordered association list.
- `Pattern` (pattern.dfy): `re.findall` for the three identifier patterns,
  keyword stripping, and the batch parameter.
- `Scraper` (scraper.dfy): requests, records, attachment normalisation,
  `scrape_*`, and `scrape`.
- `ScraperProperties` (scraper_props.dfy): lemmas about the scraper.
- `Download` (download.dfy): the part of `urllib.parse.urlparse` that yields
  the path, `os.path.splitext`, `os.path.join`, and the download plan.
- `DownloadProperties` (download_props.dfy): lemmas about the plan.

## Model

| member | source | states |
|---|---|---|
| PyJson.Find | vk_url_scraper/scraper.py:131-132 | a dict lookup finds a value iff the key is present; the value is stored under that key with no later entry for it, so a repeated key gives its last value, as `json.loads` keeps it |
| PyJson.Item | vk_url_scraper/scraper.py:131-132 | `j[key]` succeeds exactly on dicts holding the key; a dict without it raises KeyError |
| PyJson.Get | vk_url_scraper/scraper.py:124 | `.get` succeeds exactly on dicts: it gives the default when the key is missing and the stored value otherwise; anything else raises AttributeError |
| PyJson.Contains | vk_url_scraper/scraper.py:144-147 | `in` works on dicts, lists and strings only; on a dict it is key membership |
| PyJson.Iterate | vk_url_scraper/scraper.py:129 | a `for` loop works on dicts, lists and strings only; over a list it visits the list's own elements, and over a dict (its keys) or a string (its characters) it yields strings |
| PyJson.LastOf | vk_url_scraper/scraper.py:164 | `xs[-1]` is the last element of a non-empty list; it succeeds only on lists and strings |
| PyJson.SumLists | vk_url_scraper/scraper.py:125-127 | `sum(lists, [])` succeeds iff every element is a list |
| PyJson.NatStr | vk_url_scraper/scraper.py:317 | `str(i)` of an index is a non-empty numeral, one digit long exactly when `i < 10` |
| PyJson.ParseNatStr | vk_url_scraper/scraper.py:317 | the numeral reads back as the number it was written from |
| PyJson.NatStrInjective | vk_url_scraper/scraper.py:317 | different indices give different numerals |
| PyJson.Str | vk_url_scraper/scraper.py:135 | an f-string inserts a string as it is and an int as its decimal numeral |
| PyJson.IntStr | vk_url_scraper/scraper.py:118 | `str(n)` is the decimal numeral of `n`, with a leading `-` when negative |
| PyJson.Join | vk_url_scraper/scraper.py:116 | `",".join` of no parts is `""` and of one part that part |
| PyJson.JoinSnoc | vk_url_scraper/scraper.py:116 | joining one more part appends the separator and that part |
| PyJson.Repr | vk_url_scraper/scraper.py:168 | the printed form of a value is never empty |
| PyJson.Remove | vk_url_scraper/scraper.py:112 | `str.replace(word, "")` never makes a string longer |
| PyJson.RemoveAbsent | vk_url_scraper/scraper.py:112 | removing a word that does not occur changes nothing |
| PyJson.RemoveLeading | vk_url_scraper/scraper.py:112 | a leading occurrence is removed and the rest is processed on its own |
| PyJson.EpochSeconds | vk_url_scraper/scraper.py:174 | `utcfromtimestamp` accepts ints, as themselves, and booleans; everything else raises TypeError |
| Buckets.Keys | vk_url_scraper/scraper.py:175 | the keys of the buckets, in first-touch order |
| Buckets.IndexOf | vk_url_scraper/scraper.py:134 | finds the bucket that holds a present key |
| Buckets.IndexOfUnique | vk_url_scraper/scraper.py:128 | with distinct keys, the bucket of a key is unique |
| Buckets.LookupOr | vk_url_scraper/scraper.py:139 | `.get(k, default)` gives the list stored with `k` when the key is present, and the default exactly when it is absent |
| Buckets.Touch | vk_url_scraper/scraper.py:134 | `attachments[k]` on a defaultdict adds `k` at the end when it is new, keeps keys distinct and changes no list |
| Buckets.Extend | vk_url_scraper/scraper.py:134-140 | `.extend` appends to bucket `k` only, and keeps the keys |
| Buckets.Append | vk_url_scraper/scraper.py:143 | `.append` adds one URL to bucket `k` only, and keeps the keys |
| Buckets.GrowsTrans | vk_url_scraper/scraper.py:128-168 | buckets only ever grow: keys are kept and lists extended |
| Buckets.LookupSnoc | vk_url_scraper/scraper.py:313 | with a new last key, lookups see that bucket under its key and the earlier ones elsewhere |
| Pattern.Keyword | vk_url_scraper/scraper.py:38-40 | each keyword starts with two characters that are neither digits nor `_`, the first not a newline either |
| Pattern.DigitEnd | vk_url_scraper/scraper.py:38 | `\d+` runs to the first non-digit |
| Pattern.TailEnd | vk_url_scraper/scraper.py:38 | `\d+_\d+` at a position ends within the text, before a non-digit |
| Pattern.TailEndSound | vk_url_scraper/scraper.py:38 | what `\d+_\d+` matches is digits, `_`, digits |
| Pattern.MatchEnd | vk_url_scraper/scraper.py:38-40 | a match at a position is longer than the keyword plus three characters, and ends before a non-digit |
| Pattern.MatchEndSound | vk_url_scraper/scraper.py:38-40 | the text a match covers is the keyword, then at most one character other than a newline, then `\d+_\d+` |
| Pattern.DigitEndReaches | vk_url_scraper/scraper.py:38 | greedy `\d+` reaches past any run of digits |
| Pattern.DigitEndExact | vk_url_scraper/scraper.py:38 | a run of digits followed by a non-digit is exactly what `\d+` takes |
| Pattern.TailEndComplete | vk_url_scraper/scraper.py:38 | wherever `\d+_\d+` can match, the greedy matcher finds a match |
| Pattern.TailEndAt | vk_url_scraper/scraper.py:38 | digits, `_`, digits at a position are found by `\d+_\d+` |
| Pattern.MatchEndComplete | vk_url_scraper/scraper.py:38-40 | wherever the pattern can match, the matcher finds a match at that position |
| Pattern.ScanWith | vk_url_scraper/scraper.py:92 | findall's left-to-right scan yields matches that lie inside the text and do not overlap, in order |
| Pattern.CoveringSpan | vk_url_scraper/scraper.py:92 | any position where a match starts lies inside some match that the scan reports |
| Pattern.Matcher | vk_url_scraper/scraper.py:38-40 | each match attempt moves strictly forward and stays within the text |
| Pattern.Spans | vk_url_scraper/scraper.py:92 | the reported spans are real matches, in order, without overlap |
| Pattern.Findall | vk_url_scraper/scraper.py:92 | `findall` returns one identifier per span, each of the pattern's shape |
| Pattern.FindallSpans | vk_url_scraper/scraper.py:92 | the k-th identifier is the text of the k-th span |
| Pattern.FindallMissesNothing | vk_url_scraper/scraper.py:92 | every place where the pattern matches is covered by a reported identifier |
| Pattern.MatchesShape | vk_url_scraper/scraper.py:38-40 | a match starts with its keyword, contains `_` and ends in a digit |
| Pattern.FindallShape | vk_url_scraper/scraper.py:92 | every found identifier starts with its keyword, contains `_` and ends in a digit |
| Pattern.NothingToFind | vk_url_scraper/scraper.py:92 | with no match anywhere, findall is empty |
| Pattern.NoKeywordNoIds | vk_url_scraper/scraper.py:92 | text without the keyword yields no identifiers |
| Pattern.MatchHasLetter | vk_url_scraper/scraper.py:38-40 | a match needs every letter of its keyword before the last three characters |
| Pattern.MissingLetterNoIds | vk_url_scraper/scraper.py:92 | text lacking a keyword letter there yields no identifiers |
| Pattern.StripMatched | vk_url_scraper/scraper.py:112 | on a matched identifier, `replace(keyword, "")` deletes exactly the leading keyword |
| Pattern.TailChars | vk_url_scraper/scraper.py:38 | after the separator, an identifier holds only digits and `_` |
| Pattern.NoKeywordInTail | vk_url_scraper/scraper.py:112 | the keyword cannot occur again after the leading one |
| Pattern.StripRoundTrip | vk_url_scraper/scraper.py:112 | for every found identifier, the keyword plus the stripped identifier gives the identifier back |
| Pattern.StripId | vk_url_scraper/scraper.py:112 | `replace(keyword, "")` never lengthens an id and leaves an id without the keyword unchanged |
| Pattern.BatchParam | vk_url_scraper/scraper.py:112-116 | the batch parameter is empty for no ids and the one stripped id for one |
| Pattern.BatchParamSnoc | vk_url_scraper/scraper.py:112-116 | one more id adds a comma and that id, stripped, at the end |
| Pattern.BatchParamOfFound | vk_url_scraper/scraper.py:112-116 | the batch for the ids found in a text is each id with exactly its leading keyword cut off, comma-joined |
| Pattern.TailOfRecordId | vk_url_scraper/scraper.py:172 | the tail of a formatted id is matched to its end |
| Pattern.RecordId | vk_url_scraper/scraper.py:172 | a formatted id starts with its family's keyword |
| Pattern.MatchRecordId | vk_url_scraper/scraper.py:172 | a formatted id `kw{owner}_{id}` matches the pattern as a whole |
| Pattern.MatchWithSeparator | vk_url_scraper/scraper.py:38-40 | keyword, one separator, digits, `_`, digits matches as a whole |
| Pattern.MatchWithoutSeparator | vk_url_scraper/scraper.py:38-40 | keyword, a single digit, `_`, digits matches as a whole |
| Pattern.RecordIdRoundTrip | vk_url_scraper/scraper.py:172 | findall on a formatted id finds exactly that id |
| Scraper.FormatId | vk_url_scraper/scraper.py:172 | formatting an id succeeds iff the item is a dict with `owner_id` and `id` |
| Scraper.ResponseItems | vk_url_scraper/scraper.py:124 | `api_res.get("response", {}).get("items", [])`: a non-dict body raises AttributeError; a body without `response`, or a response without `items`, gives no items; a response whose `items` is a list gives that list's elements; a `response` that is not a dict raises AttributeError |
| Scraper.PhotoResponseItems | vk_url_scraper/scraper.py:279 | `api_res.get("response", [])`: a non-dict body raises AttributeError; a body without `response` gives no items, a list response its elements |
| Scraper.VideoRecord | vk_url_scraper/scraper.py:224-234 | a video record carries the formatted id and the item as payload, and its attachments are the one bucket `video` holding one URL |
| Scraper.PhotoRecord | vk_url_scraper/scraper.py:280-288 | a photo record carries the formatted id and the item as payload, and its attachments are the one bucket `photo` holding one URL |
| Scraper.MapAll | vk_url_scraper/scraper.py:223-235 | building records for all items succeeds iff it succeeds for each, giving one record per item in order |
| Scraper.MapAllPrefixErr | vk_url_scraper/scraper.py:223-235 | once an item raises, the rest of the loop does not matter |
| Scraper.MapAllStep | vk_url_scraper/scraper.py:223-235 | one turn of the record loop: a raising item ends it, otherwise its record is appended |
| Scraper.BuildAll | vk_url_scraper/scraper.py:278-289 | the loop over items computes `MapAll` |
| Scraper.ScrapeVideoIdsSpec | vk_url_scraper/scraper.py:209-235 | no ids gives `[]`; every video record has the single bucket `video` |
| Scraper.ScrapeVideosSpec | vk_url_scraper/scraper.py:193-194 | a text with no video id gives `[]` |
| Scraper.ScrapePhotoIdsSpec | vk_url_scraper/scraper.py:265-289 | no ids gives `[]`; every photo record has the single bucket `photo` |
| Scraper.ScrapePhotosSpec | vk_url_scraper/scraper.py:249-250 | a text with no photo id gives `[]` |
| Scraper.ScrapeWallIdsSpec | vk_url_scraper/scraper.py:110-179 | no ids gives `[]`; every wall record's buckets have distinct keys |
| Scraper.ScrapeWallsSpec | vk_url_scraper/scraper.py:92-93 | a text with no wall id gives `[]` |
| Scraper.ScrapeSpec | vk_url_scraper/scraper.py:78 | `scrape` succeeds iff walls, photos and videos all do; it returns all their records, the walls first |
| Scraper.ScrapeVideoIds | vk_url_scraper/scraper.py:196-235 | no ids gives `[]` whatever the transport does; otherwise one batched request, with one record per item |
| Scraper.ScrapeVideos | vk_url_scraper/scraper.py:181-194 | `scrape_videos` is `scrape_video_ids` of the found video ids |
| Scraper.ScrapePhotoIds | vk_url_scraper/scraper.py:252-289 | no ids gives `[]` whatever the transport does; otherwise one batched request, with one record per item of `response` |
| Scraper.ScrapePhotos | vk_url_scraper/scraper.py:237-250 | `scrape_photos` is `scrape_photo_ids` of the found photo ids |
| Scraper.LargestSizeUrl | vk_url_scraper/scraper.py:164 | `attachment["sizes"][-1]["url"]` needs a dict with `sizes`, and on a non-empty list it is the `url` of the last entry |
| Scraper.NestedVideoUrls | vk_url_scraper/scraper.py:135-139 | the nested lookup raises TypeError on a non-dict payload and KeyError when `owner_id` or `id` is missing |
| Scraper.AddNestedVideo | vk_url_scraper/scraper.py:133-141 | a video attachment creates `video` before the lookup; it finishes iff the lookup does, appending exactly the lookup's URLs, and otherwise raises the lookup's exception with no list changed; no other bucket changes |
| Scraper.AddLargestSize | vk_url_scraper/scraper.py:162-166 | without `sizes` nothing changes; with `sizes`, the URL of the last size is appended to the kind's bucket, or, when it cannot be read, the bucket is created, left unchanged and one line printed; no other bucket changes |
| Scraper.AddPhotoLike | vk_url_scraper/scraper.py:160-166 | a `thumb` is used when present; only the kind's bucket changes |
| Scraper.AddLink | vk_url_scraper/scraper.py:142-158 | a link keeps keys distinct and only grows the buckets; on an exception only the `link` bucket may have changed (its embedded photo and video are stated by `LinkWithPhoto` and `LinkWithVideo`) |
| Scraper.TypedPayload | vk_url_scraper/scraper.py:131-132 | the payload is looked up under the attachment's `type`, which must be a string |
| Scraper.AttachmentBody | vk_url_scraper/scraper.py:130-166 | processing one attachment keeps keys distinct, only grows the buckets, and on an exception changes no list but `link` |
| Scraper.Step | vk_url_scraper/scraper.py:129-168 | one attachment adds at most one log line and only grows the buckets |
| Scraper.NormalizeFrom | vk_url_scraper/scraper.py:128-168 | normalising a list of attachments only grows the buckets and keeps keys distinct |
| Scraper.Normalize | vk_url_scraper/scraper.py:128-168 | the attachment loop from nothing yields buckets with distinct keys; no attachments give no buckets and no output |
| Scraper.CollectAttachments | vk_url_scraper/scraper.py:125-127 | a non-dict item raises AttributeError; the post's own attachment list comes first in what is processed |
| Scraper.HistoryAttachments | vk_url_scraper/scraper.py:126 | `[x.get("attachments", []) …]` succeeds iff every history entry is a dict, giving one list per entry |
| Scraper.WallRecord | vk_url_scraper/scraper.py:170-178 | a wall record carries the formatted id and the item as payload, and its buckets have distinct keys |
| Scraper.ResolveNestedVideo | vk_url_scraper/scraper.py:135-139 | the nested lookup computes `NestedVideoUrls`, which `NestedVideoPlayer` shows is the first returned video's player URL |
| Scraper.StoreNestedVideo | vk_url_scraper/scraper.py:133-141 | computes `AddNestedVideo` |
| Scraper.StorePhotoLike | vk_url_scraper/scraper.py:160-166 | computes `AddPhotoLike` |
| Scraper.StoreLink | vk_url_scraper/scraper.py:142-158 | computes `AddLink` |
| Scraper.ProcessAttachment | vk_url_scraper/scraper.py:129-168 | one turn of the attachment loop computes `Step` |
| Scraper.NormalizeAttachments | vk_url_scraper/scraper.py:128-168 | the attachment loop computes `Normalize` |
| Scraper.ScrapeWallItem | vk_url_scraper/scraper.py:125-178 | one wall item computes `WallRecord` |
| Scraper.ScrapeWallItems | vk_url_scraper/scraper.py:124-179 | the item loop computes `MapAll` over `WallRecord` |
| Scraper.ScrapeWallIds | vk_url_scraper/scraper.py:95-179 | no ids gives `[]` whatever the transport does; otherwise one batched request, with one record per item |
| Scraper.ScrapeWalls | vk_url_scraper/scraper.py:80-93 | `scrape_walls` is `scrape_wall_ids` of the found wall ids, with depth 2 |
| Scraper.Scrape | vk_url_scraper/scraper.py:65-78 | `scrape` gives walls, then photos, then videos; the first exception ends it |
| ScraperProperties.NormalizeSplit | vk_url_scraper/scraper.py:129-168 | normalising `xs + ys` is normalising `ys` after `xs` |
| ScraperProperties.FaultyAttachmentSkipped | vk_url_scraper/scraper.py:167-168 | a raising attachment is logged and skipped, and normalisation carries on with the rest; only `link` may have changed |
| ScraperProperties.LogBound | vk_url_scraper/scraper.py:166-168 | each attachment prints at most one line, and earlier lines are kept |
| ScraperProperties.NestedVideoSingle | vk_url_scraper/scraper.py:133-141 | a resolved nested video contributes exactly one URL |
| ScraperProperties.NestedVideoPlayer | vk_url_scraper/scraper.py:135-139 | that URL is the `player` of the first item `video.get` returns (`""` when it has none) |
| ScraperProperties.NestedVideoNotFound | vk_url_scraper/scraper.py:135-137 | a lookup that returns no video raises IndexError at `[0]` |
| ScraperProperties.VideoAttachmentAddsOne | vk_url_scraper/scraper.py:133-141 | a resolvable video attachment appends exactly the URL its lookup resolves to at the end of `video`, prints nothing and changes no other bucket |
| ScraperProperties.LinkAppendsUrl | vk_url_scraper/scraper.py:142-143 | a link attachment appends its URL to `link` |
| ScraperProperties.AddLinkAppendsUrl | vk_url_scraper/scraper.py:143 | whatever follows, the link URL is appended to `link` |
| ScraperProperties.PlainLink | vk_url_scraper/scraper.py:142-158 | a link without nested photo or video adds its URL to `link` and nothing else |
| ScraperProperties.LinkWithPhoto | vk_url_scraper/scraper.py:142-164 | a link with an embedded photo appends its URL to `link` and the URL of the photo's last size to `photo`, and changes nothing else |
| ScraperProperties.LinkWithVideo | vk_url_scraper/scraper.py:142-156 | a link with an embedded video (and no photo) appends its URL to `link`, creates `video` and extends it by the lookup's URLs; a failing lookup raises its exception and leaves `video` unchanged |
| ScraperProperties.PhotoLikeTakesLastSize | vk_url_scraper/scraper.py:160-164 | the URL of the last entry of `sizes`, of the `thumb` when present, is appended to the kind's bucket, and nothing else changes |
| ScraperProperties.PhotoLikeWithoutSizes | vk_url_scraper/scraper.py:162 | without `sizes` the buckets are untouched |
| ScraperProperties.PhotoLikeBadSizes | vk_url_scraper/scraper.py:163-166 | an unusable `sizes` list prints one line and leaves an empty bucket for the kind |
| ScraperProperties.OtherTypeFillsOwnBucket | vk_url_scraper/scraper.py:160-164 | any attachment type other than video or link fills the bucket named after its type |
| ScraperProperties.UrlLessLinkRaises | vk_url_scraper/scraper.py:142-143 | a link without `url` raises KeyError after creating the `link` bucket |
| ScraperProperties.LinkWithoutUrl | vk_url_scraper/scraper.py:142-143 | in general, a link without `url` raises KeyError and leaves the `link` bucket touched |
| ScraperProperties.LinkWithoutUrlLeavesEmptyBucket | vk_url_scraper/scraper.py:128-175 | the record then has an empty `link` list, and one logged error |
| ScraperProperties.WallRequestOfFound | vk_url_scraper/scraper.py:112-121 | the `wall.getById` request carries the token, the found ids without `wall` comma-joined, `extended=1`, the depth in decimal and the API version |
| ScraperProperties.VideoRequestOfFound | vk_url_scraper/scraper.py:211-219 | the `video.get` request carries the token, the found ids without `video` comma-joined, `extended=1` and the API version |
| ScraperProperties.PhotoRequestOfFound | vk_url_scraper/scraper.py:267-275 | the `photos.getById` request carries the token, the found ids without `photo` comma-joined, `extended=1` and the API version |
| ScraperProperties.VideoRecordFields | vk_url_scraper/scraper.py:224-234 | a video item gives a record iff it is a dict with `owner_id`, `id` and a usable date; the text is `title` (`""` when absent), the date 0 when absent, and the one bucket `video` holds `player` (`""` when absent) |
| ScraperProperties.PhotoRecordFields | vk_url_scraper/scraper.py:280-288 | a photo item gives a record iff it also has an `orig_photo` dict with `url`; the text is `text` (`""` when absent), the date 0 when absent, and the one bucket `photo` holds that URL |
| ScraperProperties.PhotoRecordWithoutOriginal | vk_url_scraper/scraper.py:285 | a photo item without `orig_photo`, or whose `orig_photo` has no `url`, raises KeyError |
| ScraperProperties.PhotoBatchAborts | vk_url_scraper/scraper.py:278-289 | the first photo item that raises ends `scrape_photo_ids` with its exception |
| ScraperProperties.WallRecordFields | vk_url_scraper/scraper.py:170-178 | a wall item gives a record iff its attachments can be gathered, it has `owner_id` and `id`, and its date is usable; text and date default to `""` and 0, and the buckets are what the attachment loop builds from the gathered list |
| ScraperProperties.OwnAttachmentsFirst | vk_url_scraper/scraper.py:125-127 | a post's own attachments come first |
| ScraperProperties.NoHistoryOwnOnly | vk_url_scraper/scraper.py:125-127 | without `copy_history`, only the own attachments are processed |
| ScraperProperties.SumListsFlatten | vk_url_scraper/scraper.py:125-127 | `sum(lists, [])` concatenates the lists in order |
| ScraperProperties.HistoryInOrder | vk_url_scraper/scraper.py:125-127 | the own attachments come first, then those of each history entry in order |
| ScraperProperties.BareWallPost | vk_url_scraper/scraper.py:170-178 | a post with no text, date or attachments gives text `""`, date 0, empty attachments, and the item as payload |
| ScraperProperties.FormatIdCanonical | vk_url_scraper/scraper.py:172 | integer owner and id are formatted as `kw{owner}_{id}` |
| ScraperProperties.IdReextracts | vk_url_scraper/scraper.py:92 | a formatted id is found again by its family's pattern |
| ScraperProperties.WallRecordIdReextracts | vk_url_scraper/scraper.py:172 | a wall record's id scrapes back to itself |
| ScraperProperties.VideoRecordIdReextracts | vk_url_scraper/scraper.py:226 | a video record's id scrapes back to itself |
| ScraperProperties.PhotoRecordIdReextracts | vk_url_scraper/scraper.py:282 | a photo record's id scrapes back to itself |
| ScraperProperties.NoIdsNoRecords | vk_url_scraper/scraper.py:65-78 | text without identifiers scrapes to `[]` with no request at all |
| ScraperProperties.UnparseableSomething | tests/scraper_test.py:35-36 | `scrape("something")` is `[]` |
| ScraperProperties.UnparseableEmpty | tests/scraper_test.py:40 | `scrape("")` is `[]` |
| ScraperProperties.UnparseableGoogle | tests/scraper_test.py:41 | `scrape("google.com")` is `[]` |
| ScraperProperties.UnparseableBareDomain | tests/scraper_test.py:42 | `scrape("vk.com")` is `[]` |
| ScraperProperties.UnparseableWallWithoutId | tests/scraper_test.py:43 | `scrape("vk.com/wall")` is `[]` |
| ScraperProperties.UnparseablePhotoWithoutId | tests/scraper_test.py:44 | `scrape("vk.com/photo")` is `[]` |
| ScraperProperties.UnparseableVideoWithoutId | tests/scraper_test.py:45 | `scrape("vk.com/video")` is `[]` |
| ScraperProperties.NoneIn | vk_url_scraper/scraper.py:38-40 | text missing a letter of each keyword scrapes to `[]` |
| Download.FirstOf | vk_url_scraper/scraper.py:316 | the first position at or after `start` holding one of the characters, or the end |
| Download.LastIndex | vk_url_scraper/scraper.py:316 | `rfind`: the last position of the character, or -1 |
| Download.StripLeadingControl | vk_url_scraper/scraper.py:316 | urlparse drops leading control characters and spaces |
| Download.RemoveUnsafe | vk_url_scraper/scraper.py:316 | urlparse removes every tab, CR and LF |
| Download.SplitScheme | vk_url_scraper/scraper.py:316 | the scheme is what precedes the first `:`; without a scheme the URL is kept whole |
| Download.CutParams | vk_url_scraper/scraper.py:316 | cutting `;params` keeps a prefix of the path |
| Download.SplitNetloc | vk_url_scraper/scraper.py:316 | the netloc exists only after `//`; the rest is a suffix |
| Download.BeforeQuery | vk_url_scraper/scraper.py:316 | the path is a prefix with no `?` or `#` |
| Download.UrlPath | vk_url_scraper/scraper.py:316 | `urlparse(url).path` holds no `?` or `#`; the only failure is ValueError |
| Download.SplitExt | vk_url_scraper/scraper.py:316 | `splitext` splits the path into root plus extension; the extension is empty or a dot followed by no dot or slash |
| Download.PathJoin | vk_url_scraper/scraper.py:317 | `os.path.join(a, b)` ends with `b` |
| Download.Ext | vk_url_scraper/scraper.py:316 | the photo extension is empty or starts with a non-digit; it raises only for a URL urlparse rejects, or for a truthy non-string |
| Download.PhotoPlan | vk_url_scraper/scraper.py:316-321 | a photo is saved as `{id}_{i}{ext}` in the destination, and planning fails iff its extension does |
| Download.Truthy | vk_url_scraper/scraper.py:316 | the false JSON values are exactly `None`, `False`, `0` and the empty string, list and dict |
| Download.MediaName | vk_url_scraper/scraper.py:317 | a media name is the id, `_`, then the index, and ends with the extension |
| Download.VideoPlan | vk_url_scraper/scraper.py:325 | a video URL is handed to yt-dlp unchanged, as a template entry |
| Download.NumberAll | vk_url_scraper/scraper.py:315 | `enumerate` numbers the URLs from 0; it succeeds iff each plan does, giving one entry per URL |
| Download.ConcatAll | vk_url_scraper/scraper.py:312-313 | the loops over records and buckets succeed iff every part does |
| Download.VideoPlans | vk_url_scraper/scraper.py:324-325 | one template per video URL |
| Download.BucketPlan | vk_url_scraper/scraper.py:313-325 | a video bucket plans one entry per URL; a photo bucket succeeds iff every URL's extension can be computed; any other bucket plans nothing |
| Download.RecordPlan | vk_url_scraper/scraper.py:313 | a record plans successfully iff each of its buckets does |
| Download.Plan | vk_url_scraper/scraper.py:312-325 | no records plan nothing; `download_media` plans successfully iff each record does |
| Download.NumberAllPrefixErr | vk_url_scraper/scraper.py:315-321 | an exception ends the photo loop |
| Download.NumberAllStep | vk_url_scraper/scraper.py:315-321 | one turn of the photo loop |
| Download.ConcatAllPrefixErr | vk_url_scraper/scraper.py:312-313 | an exception ends the record and bucket loops |
| Download.ConcatAllStep | vk_url_scraper/scraper.py:312-313 | one turn of the record or bucket loop |
| Download.VideoPlansStep | vk_url_scraper/scraper.py:324-325 | one turn of the video loop appends the template numbered by its position |
| Download.PlanPhotos | vk_url_scraper/scraper.py:314-321 | the photo loop computes its specification `NumberAll` |
| Download.PlanVideos | vk_url_scraper/scraper.py:322-325 | the video loop computes `VideoPlans` |
| Download.PlanRecord | vk_url_scraper/scraper.py:313-325 | the bucket loop computes `RecordPlan` |
| Download.PlanDownloads | vk_url_scraper/scraper.py:291-325 | `download_media` computes `Plan` |
| DownloadProperties.DigitRunUnique | vk_url_scraper/scraper.py:317 | a numeral followed by a non-digit is read back uniquely |
| DownloadProperties.MediaNameInjective | vk_url_scraper/scraper.py:317 | `{id}_{i}{ext}` names differ for different indices |
| DownloadProperties.PathJoinInjective | vk_url_scraper/scraper.py:317 | joining onto the same directory keeps names apart |
| DownloadProperties.MediaNameStart | vk_url_scraper/scraper.py:317 | a media name starts with the id, or with `_` |
| DownloadProperties.PhotoNamesDistinct | vk_url_scraper/scraper.py:315-317 | no two photos of one record overwrite each other's file |
| DownloadProperties.VideoTemplatesDistinct | vk_url_scraper/scraper.py:324-325 | no two videos of one record share a template |
| DownloadProperties.BucketPlanCount | vk_url_scraper/scraper.py:313-325 | a photo or video bucket plans one entry per URL, and any other bucket none |
| DownloadProperties.MediaCountLast | vk_url_scraper/scraper.py:313 | the last bucket adds its URLs to the media count when it is `photo` or `video` |
| DownloadProperties.ConcatAllLast | vk_url_scraper/scraper.py:312-313 | a successful loop appends the last part's entries |
| DownloadProperties.BucketsCount | vk_url_scraper/scraper.py:313-325 | a record's buckets plan one entry per photo and video URL |
| DownloadProperties.RecordCount | vk_url_scraper/scraper.py:313-325 | a downloadable record plans exactly its photo and video URLs |
| DownloadProperties.PlanCount | vk_url_scraper/scraper.py:312-325 | `download_media` plans one file per photo and video URL of all records |
| DownloadProperties.ConcatAllSkip | vk_url_scraper/scraper.py:312-313 | a part that plans nothing can be dropped from the loop |
| DownloadProperties.OtherBucketIgnored | vk_url_scraper/scraper.py:313-322 | a bucket other than photo or video (such as `link`) has no effect on the download |
| DownloadProperties.RemoveUnsafeClean | vk_url_scraper/scraper.py:316 | a URL without tab, CR or LF is kept as it is |
| DownloadProperties.SchemeOf | vk_url_scraper/scraper.py:316 | a lower-case scheme before `:` is split off |
| DownloadProperties.NetlocOf | vk_url_scraper/scraper.py:316 | `//host` ends where the path begins |
| DownloadProperties.BeforeQueryOf | vk_url_scraper/scraper.py:316 | the query is cut off the path |
| DownloadProperties.UrlPathFromSteps | vk_url_scraper/scraper.py:316 | urlparse's path, assembled from its steps |
| DownloadProperties.UrlPathOfParts | vk_url_scraper/scraper.py:316 | `urlparse("scheme://host/path?query").path` is `/path` |
| DownloadProperties.CleanUrlPath | vk_url_scraper/scraper.py:316 | a clean URL keeps its scheme and rest through urlparse's first steps |
| DownloadProperties.SplitExtOfName | vk_url_scraper/scraper.py:316 | `splitext("dir/stem.e")` takes `.e` |
| DownloadProperties.ExtOfUrl | vk_url_scraper/scraper.py:316 | a photo URL `scheme://host/dir/stem.e?query` has extension `.e` |
| DownloadProperties.PhotoFileOfUrl | vk_url_scraper/scraper.py:316-317 | such a photo is saved as `dest/{id}_{i}.e`, as in `wall-17315087_74182_0.jpg` |

## Left out

- HTTP, authentication and the API: `vk_api` login, `requests.get`, `req.json()` and the token file are replaced by `Session`. Its `transport` is any function from a request to decoded JSON or an exception. The access token and API version are plain fields of `Session`.
- File I/O of `download_media`: `os.makedirs`, the photo `requests.get`, writing the file, and the returned list of written names are left out. The model plans the `(file name, URL)` pairs that the loops would write, in order.
- yt-dlp: the downloader itself, its options and `prepare_filename` are left out. The video entry is the output template `{id}_{i}.%(ext)s`. The final name yt-dlp picks, and the `unknown_video` copy and removal afterwards, are not modelled.
- A failing photo request, or a non-string URL reaching `requests.get`, is not modelled. The model plans the name of every photo whose extension can be computed.
- `suppress_stdout`, `__main__.py`, `utils.py` (captcha handling) and `setup.py` are not part of this model.
- `print`: the two messages of the attachment loop are kept as `LogLine` values. Records drop them, as the source only prints them.
- `datetime.utcfromtimestamp`: the date is kept as integer epoch seconds. Floats and the platform's date range limits are not modelled.
- JSON objects are association lists. A lookup takes the last value of a repeated key, as `json.loads` does, but iterating or printing such an object still lists every occurrence, where Python's dict holds the key once.
- PyJson.Repr: `repr` of lists and dicts inside an f-string is simplified. Strings get single quotes without escapes, and floats do not exist in the model.
- Pattern.Findall: `\d` is taken as ASCII `0`–`9` (Python's `\d` also accepts other Unicode digits). `.` matches any character but a newline, as in Python.
- Download.UrlPath: follows Python 3.11's `urlsplit`. The checks on bracketed IPv6 hosts beyond bracket balance, and the NFKC check of the netloc, are not modelled. Scheme validity is only the character test.
- Download.Ext: a non-string URL that is falsy is given the extension `b''`, as the bytes code path of `urlparse` yields. A truthy non-string raises AttributeError. Other exotic inputs are not distinguished.
- Concurrency: there is none in the source.
