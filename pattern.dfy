/** Extraction of entity identifiers from free text: `re.findall` with the
    patterns `wall.{0,1}\d+_\d+`, `photo.{0,1}\d+_\d+` and
    `video.{0,1}\d+_\d+`, the removal of the family keyword with
    `str.replace`, and the comma-joined batch string.  `\d` is modelled as
    the ASCII digits. */
module Pattern {
  import opened PyJson

  /** The three entity families, each recognised by its own keyword. */
  datatype Family = Wall | Photo | Video

  function Keyword(f: Family): (kw: string)
    ensures GoodKeyword(kw)
  {
    match f
    case Wall => "wall"
    case Photo => "photo"
    case Video => "video"
  }

  /** What the proofs need of a keyword: at least two characters, the first
      two being neither digits nor underscores nor newlines. */
  predicate GoodKeyword(kw: string) {
    |kw| >= 2 &&
    !IsDigit(kw[0]) && kw[0] != '_' && kw[0] != '\n' &&
    !IsDigit(kw[1]) && kw[1] != '_'
  }

  // ---------------------------------------------------------------------
  // The pattern, declaratively

  /** `\d+_\d+` matches all of `u`. */
  predicate TailShape(u: string) {
    exists k | 0 < k < |u| - 1 :: u[k] == '_' && AllDigits(u[..k]) && AllDigits(u[k + 1..])
  }

  /** `kw.{0,1}\d+_\d+` matches all of `t`: the keyword, then either one
      character other than a newline or nothing, then `\d+_\d+`. */
  predicate Matches(t: string, kw: string) {
    |t| >= |kw| && t[..|kw|] == kw &&
    (TailShape(t[|kw|..]) || (|t| > |kw| && t[|kw|] != '\n' && TailShape(t[|kw| + 1..])))
  }

  // ---------------------------------------------------------------------
  // The matcher, as the backtracking engine runs it

  /** End of the longest run of digits starting at `q` (a greedy `\d*`). */
  function DigitEnd(s: string, q: nat): (e: nat)
    requires q <= |s|
    ensures q <= e <= |s|
    ensures AllDigits(s[q..e])
    ensures e == |s| || !IsDigit(s[e])
    decreases |s| - q
  {
    if q < |s| && IsDigit(s[q]) then
      var e := DigitEnd(s, q + 1);
      assert s[q..e] == [s[q]] + s[q + 1..e];
      e
    else q
  }

  /** `\d+_\d+` tried at `q`.  Backtracking into the first `\d+` never
      helps, since a shorter run is followed by a digit and not by `_`; the
      last `\d+` takes every digit there is. */
  function TailEnd(s: string, q: nat): (r: Option<nat>)
    requires q <= |s|
    ensures r.Some? ==> q + 3 <= r.value <= |s|
    ensures r.Some? ==> r.value == |s| || !IsDigit(s[r.value])
  {
    var e1 := DigitEnd(s, q);
    if q < e1 < |s| && s[e1] == '_' then
      var e2 := DigitEnd(s, e1 + 1);
      if e2 > e1 + 1 then Some(e2) else None
    else None
  }

  /** What `TailEnd` reports is matched by `\d+_\d+`. */
  lemma TailEndSound(s: string, q: nat)
    requires q <= |s|
    ensures TailEnd(s, q).Some? ==> TailShape(s[q..TailEnd(s, q).value])
  {
    if TailEnd(s, q).Some? {
      var e1 := DigitEnd(s, q);
      var e2 := DigitEnd(s, e1 + 1);
      var u := s[q..e2];
      assert u[e1 - q] == '_' && u[..e1 - q] == s[q..e1] && u[e1 - q + 1..] == s[e1 + 1..e2];
    }
  }

  /** The pattern tried at position `p`: the keyword, then first the
      alternative with one separator character, then the one without. */
  function MatchEnd(s: string, kw: string, p: nat): (r: Option<nat>)
    ensures r.Some? ==> p + |kw| + 3 <= r.value <= |s|
    ensures r.Some? ==> r.value == |s| || !IsDigit(s[r.value])
  {
    if p + |kw| <= |s| && s[p..p + |kw|] == kw then
      var q := p + |kw|;
      var withSep := if q < |s| && s[q] != '\n' then TailEnd(s, q + 1) else None;
      if withSep.Some? then withSep else TailEnd(s, q)
    else None
  }

  /** What `MatchEnd` reports is matched by the pattern. */
  lemma MatchEndSound(s: string, kw: string, p: nat)
    ensures MatchEnd(s, kw, p).Some? ==> Matches(s[p..MatchEnd(s, kw, p).value], kw)
  {
    if MatchEnd(s, kw, p).Some? {
      var e := MatchEnd(s, kw, p).value;
      var q := p + |kw|;
      var t := s[p..e];
      assert t[..|kw|] == kw;
      if q < |s| && s[q] != '\n' && TailEnd(s, q + 1).Some? {
        TailEndSound(s, q + 1);
        assert TailShape(t[|kw| + 1..]) by { assert t[|kw| + 1..] == s[q + 1..e]; }
        assert t[|kw|] == s[q];
      } else {
        TailEndSound(s, q);
        assert TailShape(t[|kw|..]) by { assert t[|kw|..] == s[q..e]; }
      }
    }
  }

  lemma {:induction false} DigitEndReaches(s: string, a: nat, b: nat)
    requires a <= b <= |s| && AllDigits(s[a..b])
    ensures DigitEnd(s, a) >= b
    decreases b - a
  {
    if a < b {
      assert s[a..b][0] == s[a];
      assert s[a + 1..b] == s[a..b][1..];
      DigitEndReaches(s, a + 1, b);
    }
  }

  lemma DigitEndExact(s: string, a: nat, b: nat)
    requires a <= b <= |s| && AllDigits(s[a..b]) && (b == |s| || !IsDigit(s[b]))
    ensures DigitEnd(s, a) == b
  {
    DigitEndReaches(s, a, b);
  }

  lemma TailEndComplete(s: string, q: nat, e: nat)
    requires q <= e <= |s| && TailShape(s[q..e])
    ensures TailEnd(s, q).Some?
  {
    var u := s[q..e];
    var k :| 0 < k < |u| - 1 && u[k] == '_' && AllDigits(u[..k]) && AllDigits(u[k + 1..]);
    var m := q + k;
    assert s[m] == '_';
    assert AllDigits(s[q..m]) by { assert s[q..m] == u[..k]; }
    assert AllDigits(s[m + 1..e]) by { assert s[m + 1..e] == u[k + 1..]; }
    TailEndAt(s, q, m, e);
  }

  /** `\d+_\d+` succeeds at `q` when digits run from `q` to an `_` at `m`
      and on from `m + 1` to `e`. */
  lemma TailEndAt(s: string, q: nat, m: nat, e: nat)
    requires q < m && m + 1 < e <= |s| && s[m] == '_'
    requires AllDigits(s[q..m]) && AllDigits(s[m + 1..e])
    ensures TailEnd(s, q).Some?
  {
    DigitEndExact(s, q, m);
    DigitEndReaches(s, m + 1, e);
  }

  /** The matcher finds a match at `p` whenever some substring starting at
      `p` has the shape of the pattern. */
  lemma MatchEndComplete(s: string, kw: string, p: nat, e: nat)
    requires p <= e <= |s| && Matches(s[p..e], kw)
    ensures MatchEnd(s, kw, p).Some?
  {
    var t := s[p..e];
    var q := p + |kw|;
    assert s[p..q] == t[..|kw|];
    if TailShape(t[|kw|..]) {
      assert t[|kw|..] == s[q..e];
      TailEndComplete(s, q, e);
    } else {
      assert t[|kw| + 1..] == s[q + 1..e] && s[q] == t[|kw|];
      TailEndComplete(s, q + 1, e);
    }
  }

  // ---------------------------------------------------------------------
  // findall: leftmost, non-overlapping matches

  /** A matcher tried at each position: `Some(e)` when a match spans
      `[q, e)`.  A match is never empty and never runs past the text. */
  ghost predicate Advances(m: nat -> Option<nat>, n: nat) {
    forall q: nat :: m(q).Some? ==> q < m(q).value <= n
  }

  /** The spans `[start, end)` that `re.findall` reports when the scan starts
      at `p` of a text of length `n`: at each position try the pattern; after
      a match go on from its end, otherwise from the next position. */
  function ScanWith(m: nat -> Option<nat>, n: nat, p: nat): (spans: seq<(nat, nat)>)
    requires p <= n && Advances(m, n)
    ensures forall k | 0 <= k < |spans| ::
      p <= spans[k].0 < spans[k].1 <= n && m(spans[k].0) == Some(spans[k].1)
    ensures forall j, k | 0 <= j < k < |spans| :: spans[j].1 <= spans[k].0
    decreases n - p
  {
    match m(p)
    case Some(e) =>
      var rest := ScanWith(m, n, e);
      var spans := [(p, e)] + rest;
      assert forall k | 0 < k < |spans| :: spans[k] == rest[k - 1];
      spans
    case None =>
      if p == n then [] else ScanWith(m, n, p + 1)
  }

  /** The scan misses nothing: every position where the matcher succeeds
      lies inside one of the reported spans (a match may start inside an
      earlier one, which `findall` then skips); this is the index of that
      span. */
  function CoveringSpan(m: nat -> Option<nat>, n: nat, p: nat, q: nat): (k: nat)
    requires p <= q <= n && Advances(m, n) && m(q).Some?
    ensures k < |ScanWith(m, n, p)| && ScanWith(m, n, p)[k].0 <= q < ScanWith(m, n, p)[k].1
    decreases n - p
  {
    match m(p)
    case Some(e) =>
      var rest := ScanWith(m, n, e);
      assert ScanWith(m, n, p) == [(p, e)] + rest;
      if e <= q then
        var k := CoveringSpan(m, n, e, q);
        assert ScanWith(m, n, p)[k + 1] == rest[k];
        k + 1
      else 0
    case None =>
      CoveringSpan(m, n, p + 1, q)
  }

  /** The pattern for keyword `kw` as a matcher over `s`. */
  function Matcher(s: string, kw: string): (m: nat -> Option<nat>)
    ensures Advances(m, |s|)
  {
    (q: nat) => MatchEnd(s, kw, q)
  }

  /** The spans `re.findall` reports on `s`: in increasing order, not
      overlapping, each one where the matcher succeeds. */
  function Spans(s: string, kw: string): (spans: seq<(nat, nat)>)
    ensures forall k | 0 <= k < |spans| ::
      spans[k].0 < spans[k].1 <= |s| && MatchEnd(s, kw, spans[k].0) == Some(spans[k].1)
    ensures forall j, k | 0 <= j < k < |spans| :: spans[j].1 <= spans[k].0
  {
    ScanWith(Matcher(s, kw), |s|, 0)
  }

  /** `PATTERN.findall(s)`: the matched substrings, left to right. */
  function Findall(s: string, f: Family): (ids: seq<string>)
    ensures |ids| == |Spans(s, Keyword(f))|
    ensures forall k | 0 <= k < |ids| :: Matches(ids[k], Keyword(f))
  {
    var spans := Spans(s, Keyword(f));
    var ids := seq(|spans|, k requires 0 <= k < |spans| => s[spans[k].0..spans[k].1]);
    assert forall k | 0 <= k < |ids| :: Matches(ids[k], Keyword(f)) by {
      forall k | 0 <= k < |ids|
        ensures Matches(ids[k], Keyword(f))
      {
        MatchEndSound(s, Keyword(f), spans[k].0);
      }
    }
    ids
  }

  /** Every extracted id is the text of its span. */
  lemma FindallSpans(s: string, f: Family, k: nat)
    requires k < |Findall(s, f)|
    ensures Findall(s, f)[k] == s[Spans(s, Keyword(f))[k].0..Spans(s, Keyword(f))[k].1]
  {
  }

  /** Every substring the pattern matches starts inside one of the reported
      spans, so no match is missed before the first, between two, or after
      the last. */
  lemma FindallMissesNothing(s: string, f: Family, q: nat, e: nat)
    requires q <= e <= |s| && Matches(s[q..e], Keyword(f))
    ensures exists k | 0 <= k < |Spans(s, Keyword(f))| ::
      Spans(s, Keyword(f))[k].0 <= q < Spans(s, Keyword(f))[k].1
  {
    var kw := Keyword(f);
    MatchEndComplete(s, kw, q, e);
    var k := CoveringSpan(Matcher(s, kw), |s|, 0, q);
    assert Spans(s, kw)[k].0 <= q < Spans(s, kw)[k].1;
  }

  /** Every text the pattern matches starts with the keyword, contains `_`
      and ends in a digit. */
  lemma MatchesShape(id: string, kw: string)
    requires Matches(id, kw)
    ensures |id| > |kw| + 2 && id[..|kw|] == kw && '_' in id && IsDigit(id[|id| - 1])
  {
    var off := if TailShape(id[|kw|..]) then |kw| else |kw| + 1;
    var u := id[off..];
    assert TailShape(u);
    var j :| 0 < j < |u| - 1 && u[j] == '_' && AllDigits(u[..j]) && AllDigits(u[j + 1..]);
    assert id[off + j] == '_';
    assert u[|u| - 1] == u[j + 1..][|u| - j - 2];
  }

  /** So every extracted id has that shape. */
  lemma FindallShape(s: string, f: Family, k: nat)
    requires k < |Findall(s, f)|
    ensures var id := Findall(s, f)[k];
      |id| > |Keyword(f)| + 2 && id[..|Keyword(f)|] == Keyword(f) &&
      '_' in id && IsDigit(id[|id| - 1])
  {
    MatchesShape(Findall(s, f)[k], Keyword(f));
  }

  /** No match anywhere means nothing is extracted. */
  lemma NothingToFind(s: string, f: Family)
    requires forall q: nat, e: nat | q <= e <= |s| :: !Matches(s[q..e], Keyword(f))
    ensures Findall(s, f) == []
  {
    var ids := Findall(s, f);
    if ids != [] {
      FindallSpans(s, f, 0);
      assert false;
    }
  }

  /** A text in which the keyword never occurs holds no identifier. */
  lemma NoKeywordNoIds(s: string, f: Family)
    requires !Occurs(Keyword(f), s)
    ensures Findall(s, f) == []
  {
    var kw := Keyword(f);
    forall q: nat, e: nat | q <= e <= |s|
      ensures !Matches(s[q..e], kw)
    {
      if Matches(s[q..e], kw) {
        assert s[q..q + |kw|] == s[q..e][..|kw|];
        assert OccursAt(kw, s, q);
      }
    }
    NothingToFind(s, f);
  }

  /** A match spans the keyword and at least `\d_\d` after it, so each
      keyword letter occurs in the text before its last three characters. */
  lemma MatchHasLetter(s: string, f: Family, c: char, q: nat, e: nat)
    requires c in Keyword(f) && q <= e <= |s| && Matches(s[q..e], Keyword(f))
    ensures |s| >= 3 && c in s[..|s| - 3]
  {
    var kw := Keyword(f);
    var j :| 0 <= j < |kw| && kw[j] == c;
    var t := s[q..e];
    MatchesShape(t, kw);
    assert t[j] == t[..|kw|][j] == c;
    assert s[..|s| - 3][q + j] == t[j];
  }

  /** So a keyword letter that appears nowhere but in the last three
      characters rules out every identifier. */
  lemma MissingLetterNoIds(s: string, f: Family, c: char)
    requires c in Keyword(f)
    requires |s| < 3 || c !in s[..|s| - 3]
    ensures Findall(s, f) == []
  {
    forall q: nat, e: nat | q <= e <= |s|
      ensures !Matches(s[q..e], Keyword(f))
    {
      if Matches(s[q..e], Keyword(f)) {
        MatchHasLetter(s, f, c, q, e);
      }
    }
    NothingToFind(s, f);
  }

  // ---------------------------------------------------------------------
  // Stripping the keyword and joining the batch

  /** `id.replace(keyword, "")`: never longer than the id, and an id without
      the keyword is passed through unchanged. */
  function StripId(id: string, f: Family): (r: string)
    ensures |r| <= |id|
    ensures !Occurs(Keyword(f), id) ==> r == id
  {
    if !Occurs(Keyword(f), id) then RemoveAbsent(id, Keyword(f)); Remove(id, Keyword(f))
    else Remove(id, Keyword(f))
  }

  /** `",".join(id.replace(keyword, "") for id in ids)`: the batch parameter;
      empty for no ids, the one stripped id for one. */
  function BatchParam(ids: seq<string>, f: Family): (r: string)
    ensures ids == [] ==> r == ""
    ensures |ids| == 1 ==> r == StripId(ids[0], f)
  {
    Join(",", seq(|ids|, k requires 0 <= k < |ids| => StripId(ids[k], f)))
  }

  /** One more id adds a comma and that id, stripped, at the end. */
  lemma BatchParamSnoc(ids: seq<string>, id: string, f: Family)
    requires ids != []
    ensures BatchParam(ids + [id], f) == BatchParam(ids, f) + "," + StripId(id, f)
  {
    var all := ids + [id];
    var parts := seq(|ids|, k requires 0 <= k < |ids| => StripId(ids[k], f));
    assert seq(|all|, k requires 0 <= k < |all| => StripId(all[k], f)) == parts + [StripId(id, f)];
    JoinSnoc(",", parts, StripId(id, f));
  }

  /** The batch sent for the ids found in a text: each id with exactly its
      leading keyword cut off, joined by commas. */
  lemma BatchParamOfFound(s: string, f: Family)
    ensures var ids := Findall(s, f);
      BatchParam(ids, f) == Join(",", seq(|ids|, k requires 0 <= k < |ids| => ids[k][|Keyword(f)|..]))
  {
    var ids := Findall(s, f);
    forall k | 0 <= k < |ids|
      ensures StripId(ids[k], f) == ids[k][|Keyword(f)|..]
    {
      StripMatched(ids[k], Keyword(f));
    }
    assert seq(|ids|, k requires 0 <= k < |ids| => StripId(ids[k], f)) ==
           seq(|ids|, k requires 0 <= k < |ids| => ids[k][|Keyword(f)|..]);
  }

  /** For a matched id, `replace` deletes exactly the leading keyword: the
      keyword cannot occur again in what follows it. */
  lemma {:induction false} StripMatched(t: string, kw: string)
    requires GoodKeyword(kw) && Matches(t, kw)
    ensures Remove(t, kw) == t[|kw|..]
    ensures kw + Remove(t, kw) == t
  {
    var rest := t[|kw|..];
    assert t == kw + rest;
    RemoveLeading(kw, rest);
    TailChars(rest);
    NoKeywordInTail(rest, kw);
    RemoveAbsent(rest, kw);
  }

  /** After the optional separator, a match holds only digits and `_`. */
  lemma TailChars(rest: string)
    requires TailShape(rest) || (|rest| > 0 && TailShape(rest[1..]))
    ensures forall i | 1 <= i < |rest| :: IsDigit(rest[i]) || rest[i] == '_'
  {
    var off := if TailShape(rest) then 0 else 1;
    var u := rest[off..];
    assert TailShape(u);
    var j :| 0 < j < |u| - 1 && u[j] == '_' && AllDigits(u[..j]) && AllDigits(u[j + 1..]);
    forall i | 1 <= i < |rest|
      ensures IsDigit(rest[i]) || rest[i] == '_'
    {
      if i - off < j {
        assert rest[i] == u[..j][i - off];
      } else if i - off > j {
        assert rest[i] == u[j + 1..][i - off - j - 1];
      }
    }
  }

  /** So the keyword, whose first two characters are neither digits nor
      `_`, cannot occur there again. */
  lemma NoKeywordInTail(rest: string, kw: string)
    requires GoodKeyword(kw)
    requires forall i | 1 <= i < |rest| :: IsDigit(rest[i]) || rest[i] == '_'
    ensures !Occurs(kw, rest)
  {
    forall q: nat | q <= |rest|
      ensures !OccursAt(kw, rest, q)
    {
      if q + |kw| <= |rest| {
        if q == 0 {
          assert rest[q..q + |kw|][1] == rest[1] != kw[1];
        } else {
          assert rest[q..q + |kw|][0] == rest[q] != kw[0];
        }
      }
    }
  }

  /** Stripping every extracted id and putting the keyword back in front
      gives the extracted ids again. */
  lemma StripRoundTrip(s: string, f: Family)
    ensures var ids := Findall(s, f);
      forall k | 0 <= k < |ids| :: Keyword(f) + StripId(ids[k], f) == ids[k]
  {
    var ids := Findall(s, f);
    forall k | 0 <= k < |ids|
      ensures Keyword(f) + StripId(ids[k], f) == ids[k]
    {
      StripMatched(ids[k], Keyword(f));
    }
  }

  // ---------------------------------------------------------------------
  // Record identifiers

  /** The identifier a record carries: `f"{keyword}{owner}_{id}"`. */
  function RecordId(f: Family, owner: int, local: nat): (r: string)
    ensures |r| > |Keyword(f)| + 2 && r[..|Keyword(f)|] == Keyword(f)
  {
    Keyword(f) + IntStr(owner) + "_" + NatStr(local)
  }

  /** `\d+_\d+` at `a` takes everything up to `|s|` when `s[a..]` is a
      numeral, `_` and a numeral. */
  lemma TailOfRecordId(s: string, a: nat, d1: string, d2: string)
    requires a <= |s| && s[a..] == d1 + "_" + d2
    requires |d1| > 0 && |d2| > 0 && AllDigits(d1) && AllDigits(d2)
    ensures TailEnd(s, a) == Some(|s|)
  {
    var m := a + |d1|;
    assert s[a..m] == d1;
    assert s[m] == '_';
    assert s[m + 1..] == d2;
    DigitEndExact(s, a, m);
    DigitEndExact(s, m + 1, |s|);
  }

  /** The pattern applied at the start of a record id spans all of it: a
      minus sign or the first digit of the owner is taken as the separator
      character when what follows is still `\d+_\d+`. */
  lemma MatchRecordId(f: Family, owner: int, local: nat)
    ensures MatchEnd(RecordId(f, owner, local), Keyword(f), 0) == Some(|RecordId(f, owner, local)|)
  {
    var kw := Keyword(f);
    var o := IntStr(owner);
    var l := NatStr(local);
    assert RecordId(f, owner, local) == kw + o + "_" + l;
    if owner < 0 || |o| >= 2 {
      assert o == [o[0]] + o[1..];
      assert kw + o + "_" + l == kw + [o[0]] + o[1..] + "_" + l;
      assert AllDigits(o[1..]);
      MatchWithSeparator(kw, o[0], o[1..], l);
    } else {
      MatchWithoutSeparator(kw, o, l);
    }
  }

  lemma MatchWithSeparator(kw: string, c: char, d1: string, d2: string)
    requires c != '\n' && |d1| > 0 && |d2| > 0 && AllDigits(d1) && AllDigits(d2)
    ensures var s := kw + [c] + d1 + "_" + d2;
      MatchEnd(s, kw, 0) == Some(|s|)
  {
    var s := kw + [c] + d1 + "_" + d2;
    var q := |kw|;
    assert s[0..q] == kw;
    assert s[q] == c;
    TailOfRecordId(s, q + 1, d1, d2);
  }

  lemma MatchWithoutSeparator(kw: string, d1: string, d2: string)
    requires |d1| == 1 && |d2| > 0 && AllDigits(d1) && AllDigits(d2)
    ensures var s := kw + d1 + "_" + d2;
      MatchEnd(s, kw, 0) == Some(|s|)
  {
    var s := kw + d1 + "_" + d2;
    var q := |kw|;
    assert s[0..q] == kw;
    assert s[q] == d1[0] && s[q + 1] == '_';
    assert DigitEnd(s, q + 1) == q + 1;
    assert TailEnd(s, q + 1).None?;
    TailOfRecordId(s, q, d1, d2);
  }

  /** A record id built from an integer owner and a natural local id is
      extracted again as exactly itself, and as nothing else. */
  lemma RecordIdRoundTrip(f: Family, owner: int, local: nat)
    ensures Findall(RecordId(f, owner, local), f) == [RecordId(f, owner, local)]
  {
    var kw := Keyword(f);
    var s := RecordId(f, owner, local);
    MatchRecordId(f, owner, local);
    var m := Matcher(s, kw);
    assert m(0) == Some(|s|);
    assert MatchEnd(s, kw, |s|).None?;
    assert ScanWith(m, |s|, |s|) == [];
    assert Spans(s, kw) == [(0, |s|)];
    assert s[0..|s|] == s;
  }
}
