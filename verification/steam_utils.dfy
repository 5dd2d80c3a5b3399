/** The Steam helpers the pipeline uses on its input: the app id and the
    title read off a store-page URL, and the removal of repeated reviews
    from the fetched pages.
 */
module SteamUtils {
  import opened Results
  import opened Text
  import opened Sequences
  import opened Reviews

  /** The store's address. */
  const StoreHost: string := "https://" + StoreDomain + "/"

  /** The store's domain name. */
  const StoreDomain: string := "store.steampowered.com"

  /** The title segment of the default store page. */
  const DefaultTitleSegment: string := "CounterStrike_Global_Offensive"

  /** The store page the command line uses when none is given:
      `https://store.steampowered.com/app/730/CounterStrike_Global_Offensive/`. */
  const DefaultGameUrl: string := StoreHost + "app/" + "730" + "/" + DefaultTitleSegment + "/"

  // ---------------------------------------------------------------------
  // get_game_id_from_url
  // ---------------------------------------------------------------------

  /** Where the id starts: just past the first `app/`, or 3 when there is
      none, since `find` then gives -1. */
  function IdStart(url: string): (start: nat)
    ensures Find(url, "app/", 0) == -1 ==> start == 3
    ensures Find(url, "app/", 0) != -1 ==> start == Find(url, "app/", 0) + 4
  {
    Find(url, "app/", 0) + 4
  }

  /** `int(url[start:end])`, where `end` is the first `/` at or after
      `start` (-1 when there is none). */
  function GameIdFromUrl(url: string): (r: Result<int>)
    ensures r.Err? ==> r.error.ValueError?
  {
    var start := IdStart(url);
    var end := Find(url, "/", start);
    ParseInt(PySlice(url, start, end))
  }

  /** `find` locates the first occurrence when nothing before it matches. */
  lemma FindAt(s: string, p: string, start: nat, k: int)
    requires start <= k && OccursAt(s, p, k)
    requires forall m :: start <= m < k ==> !OccursAt(s, p, m)
    ensures Find(s, p, start) == k
  {
  }

  /** A run of digits holds no `/`. */
  lemma NoSlashInDigits(s: string, from: int, digits: string)
    requires 0 <= from && from + |digits| <= |s| && s[from .. from + |digits|] == digits
    requires IsDecimal(digits)
    ensures forall m :: from <= m < from + |digits| ==> !OccursAt(s, "/", m)
  {
    forall m | from <= m < from + |digits|
      ensures !OccursAt(s, "/", m)
    {
      assert s[m] == digits[m - from];
    }
  }

  /** `app/` first occurs at `at`. */
  predicate MarkerFirstAt(url: string, at: int) {
    OccursAt(url, "app/", at) && forall k :: 0 <= k < at ==> !OccursAt(url, "app/", k)
  }

  /** With the first `app/` at `at`, the id starts at `at + 4`. */
  lemma IdStartAfterMarker(url: string, at: int)
    requires MarkerFirstAt(url, at)
    ensures IdStart(url) == at + 4
  {
    FindAt(url, "app/", 0, at);
  }

  /** A run of digits followed by `/` ends at that `/`. */
  lemma IdEndAtSlash(url: string, start: nat, digits: string)
    requires IsDecimal(digits)
    requires start + |digits| < |url| && url[start .. start + |digits|] == digits && url[start + |digits|] == '/'
    ensures Find(url, "/", start) == start + |digits|
  {
    var end := start + |digits|;
    NoSlashInDigits(url, start, digits);
    assert url[end .. end + 1] == "/";
    FindAt(url, "/", start, end);
  }

  /** The id is `piece`, read from `start` up to `end`. */
  lemma GameIdSlice(url: string, start: nat, end: int, piece: string)
    requires IdStart(url) == start && Find(url, "/", start) == end
    requires PySlice(url, start, end) == piece
    ensures GameIdFromUrl(url) == ParseInt(piece)
  {
  }

  /** An id that starts at `start` with a run of digits followed by `/`
      reads as the value of those digits. */
  lemma GameIdFromDigits(url: string, start: nat, digits: string)
    requires IdStart(url) == start
    requires IsDecimal(digits)
    requires start + |digits| < |url| && url[start .. start + |digits|] == digits && url[start + |digits|] == '/'
    ensures GameIdFromUrl(url) == Ok(DigitsValue(digits))
  {
    IdEndAtSlash(url, start, digits);
    assert PySlice(url, start, start + |digits|) == digits;
    GameIdSlice(url, start, start + |digits|, digits);
    ParseDigits(digits);
  }

  /** A URL whose first `app/` is followed by a run of digits and a `/`
      yields the value of those digits. */
  lemma GameIdCanonical(url: string, at: nat, digits: string)
    requires Find(url, "app/", 0) == at
    requires IsDecimal(digits)
    requires at + 4 + |digits| < |url| && url[at + 4 .. at + 4 + |digits|] == digits && url[at + 4 + |digits|] == '/'
    ensures GameIdFromUrl(url) == Ok(DigitsValue(digits))
  {
    GameIdFromDigits(url, at + 4, digits);
  }

  /** Without a `/` after the id, `end` is -1 and the slice loses the id's
      last digit: `…/app/730` reads as 73, and a one-digit id as nothing,
      which `int` rejects. */
  lemma GameIdWithoutTrailingSlash(url: string, at: int, digits: string)
    requires MarkerFirstAt(url, at)
    requires IsDecimal(digits)
    requires at + 4 + |digits| == |url| && url[at + 4 ..] == digits
    ensures |digits| >= 2 ==> GameIdFromUrl(url) == Ok(DigitsValue(digits[..|digits| - 1]))
    ensures |digits| == 1 ==> GameIdFromUrl(url).Err?
  {
    IdStartAfterMarker(url, at);
    var start := at + 4;
    assert url[start .. start + |digits|] == digits;
    NoSlashInDigits(url, start, digits);
    assert Find(url, "/", start) == -1;
    var cut := digits[..|digits| - 1];
    assert url[start .. |url| - 1] == cut;
    assert PySlice(url, start, -1) == cut;
    GameIdSlice(url, start, -1, cut);
    if |digits| >= 2 {
      ParseDigits(cut);
    }
  }

  /** Without `app/` in the URL, the id is read from index 3 on. */
  lemma GameIdWithoutAppMarker(url: string)
    requires forall k :: 0 <= k ==> !OccursAt(url, "app/", k)
    ensures GameIdFromUrl(url) == ParseInt(PySlice(url, 3, Find(url, "/", 3)))
  {
  }

  /** A slice holding a character that is no digit, sign or whitespace is
      rejected with `ValueError`. */
  lemma GameIdRejectsNonDigits(url: string, k: int)
    requires var s := PySlice(url, IdStart(url), Find(url, "/", IdStart(url)));
      0 <= k < |s| && !IsDigit(s[k]) && s[k] != '+' && s[k] != '-' && !IsSpace(s[k])
    ensures GameIdFromUrl(url).Err? && GameIdFromUrl(url).error.ValueError?
  {
    ParseIntRejects(PySlice(url, IdStart(url), Find(url, "/", IdStart(url))), k);
  }

  /** The characters of the store's address that matter for `app/` and
      `/app/`: where its slashes are, and the letters around them. */
  lemma StoreHostChars()
    ensures |StoreHost| == 31
    ensures forall k :: 0 <= k < 31 && StoreHost[k] == '/' ==> k == 6 || k == 7 || k == 30
    ensures StoreHost[3] == 'p' && StoreHost[4] == 's' && StoreHost[7] == '/' && StoreHost[8] == 's'
    ensures StoreHost[27] == 'c' && StoreHost[28] == 'o' && StoreHost[29] == 'm' && StoreHost[30] == '/'
  {
    var h := StoreHost;
    assert '/' !in StoreDomain;
    forall k | 8 <= k < 30
      ensures h[k] != '/'
    {
      assert h[k] == StoreDomain[k - 8];
    }
  }

  /** The store's address holds no `app/`. */
  lemma StoreHostHasNoMarker(tail: string)
    ensures forall k :: 0 <= k < |StoreHost| ==> !OccursAt(StoreHost + tail, "app/", k)
  {
    StoreHostChars();
    var url := StoreHost + tail;
    forall k | 0 <= k < |StoreHost|
      ensures !OccursAt(url, "app/", k)
    {
      if k + 4 <= |url| {
        assert url[k .. k + 4][0] == url[k] && url[k .. k + 4][3] == url[k + 3];
        assert url[k] == StoreHost[k];
        assert k + 3 < 31 ==> url[k + 3] == StoreHost[k + 3];
      }
    }
  }

  /** A store page address `StoreHost + "app/" + rest`: its first `app/`
      and its first `/app/` are the ones after the store's address. */
  lemma StoreAppUrl(rest: string)
    ensures var url := StoreHost + "app/" + rest;
      && |url| == 35 + |rest| && url[35..] == rest
      && MarkerFirstAt(url, 31) && PathFirstAt(url, 30)
  {
    var url := StoreHost + "app/" + rest;
    var tail := "app/" + rest;
    assert url == StoreHost + tail;
    assert |StoreHost| == 31 && StoreHost[30] == '/';
    assert url[31..35] == tail[..4] == "app/";
    assert url[30..35] == [StoreHost[30]] + url[31..35];
    StoreHostHasNoMarker(tail);
    StoreHostHasNoPath(tail);
  }

  /** The part of a store page address after `app/`: the id, a slash, the
      title segment and a closing slash. */
  lemma IdSegmentLayout(id: string, seg: string)
    ensures var rest := id + "/" + seg + "/";
      && |rest| == |id| + |seg| + 2
      && rest[..|id|] == id && rest[|id|] == '/'
      && rest[|id| + 1 .. |id| + 1 + |seg|] == seg && rest[|id| + 1 + |seg|] == '/'
  {
  }

  /** The default store page is the store's address, `app/`, and then the
      id and title segment. */
  lemma DefaultGameUrlParts()
    ensures DefaultGameUrl == StoreHost + "app/" + ("730" + "/" + DefaultTitleSegment + "/")
  {
  }

  /** The default store page has app id 730. */
  lemma DefaultGameId()
    ensures GameIdFromUrl(DefaultGameUrl) == Ok(730)
  {
    var rest := "730" + "/" + DefaultTitleSegment + "/";
    var url := DefaultGameUrl;
    DefaultGameUrlParts();
    StoreAppUrl(rest);
    IdSegmentLayout("730", DefaultTitleSegment);
    assert url[35..38] == rest[..3];
    assert url[38] == rest[3];
    FindAt(url, "app/", 0, 31);
    GameIdCanonical(url, 31, "730");
    DigitsOf730();
  }

  /** `DigitsValue` on the digits of the default page's id. */
  lemma DigitsOf730()
    ensures DigitsValue("730") == 730 && DigitsValue("73") == 73
  {
    assert "730"[..2] == "73";
    assert "73"[..1] == "7";
  }

  /** The same store page cut after its id, without a trailing slash,
      reads as app 73. */
  lemma BareGameIdLosesDigit()
    ensures GameIdFromUrl(StoreHost + "app/" + "730") == Ok(73)
  {
    var tail := "app/" + "730";
    var url := StoreHost + "app/" + "730";
    assert url == StoreHost + tail;
    StoreHostHasNoMarker(tail);
    assert url[31..35] == "app/";
    assert url[35..] == "730";
    GameIdWithoutTrailingSlash(url, 31, "730");
    DigitsOf730();
  }

  // ---------------------------------------------------------------------
  // get_game_title_from_url: re.search(r"/app/\d+/(.+?)/", url)
  // ---------------------------------------------------------------------

  /** The end of the run of ASCII digits that starts at `i`. */
  function DigitRunEnd(s: string, i: nat): (e: nat)
    requires i <= |s|
    ensures i <= e <= |s|
    ensures forall m :: i <= m < e ==> IsDigit(s[m])
    ensures e == |s| || !IsDigit(s[e])
    decreases |s| - i
  {
    if i < |s| && IsDigit(s[i]) then DigitRunEnd(s, i + 1) else i
  }

  /** Where the lazy `.+?/` stops once its first character is taken: the
      first `/` at or after `j`, provided no line break comes before it
      (`.` does not match `\n`). */
  function ClosingSlash(s: string, j: nat): (r: Option<nat>)
    requires j <= |s|
    ensures r.Some? ==> j <= r.value < |s| && s[r.value] == '/'
                        && forall m :: j <= m < r.value ==> s[m] != '/' && s[m] != '\n'
    ensures r.None? ==> forall e :: j <= e < |s| && s[e] == '/' ==> exists m :: j <= m < e && s[m] == '\n'
    decreases |s| - j
  {
    if j == |s| then None
    else if s[j] == '/' then Some(j)
    else if s[j] == '\n' then None
    else ClosingSlash(s, j + 1)
  }

  /** The captured group when the pattern matches starting at `p`. The
      greedy `\d+` must be followed by `/`, so only the whole digit run can
      serve; the group then takes at least one character that is not a line
      break, and ends before the next `/`. */
  function TitleMatchAt(s: string, p: nat): (r: Option<string>)
    ensures r.Some? ==> |r.value| > 0 && '\n' !in r.value
  {
    if !OccursAt(s, "/app/", p) then None
    else
      var d := p + 5;
      var e := DigitRunEnd(s, d);
      if e == d || e >= |s| || s[e] != '/' then None
      else
        var g := e + 1;
        if g >= |s| || s[g] == '\n' then None
        else
          match ClosingSlash(s, g + 1)
          case None => None
          case Some(close) => Some(s[g..close])
  }

  /** `re.search`: the group of the leftmost position at or after `p` where
      the pattern matches. */
  function SearchTitle(s: string, p: nat): (r: Option<string>)
    ensures r.None? ==> forall q :: p <= q <= |s| ==> TitleMatchAt(s, q).None?
    ensures r.Some? ==> exists q :: p <= q <= |s| && TitleMatchAt(s, q) == r
                                    && forall m :: p <= m < q ==> TitleMatchAt(s, m).None?
    ensures r.Some? ==> |r.value| > 0
    decreases |s| + 1 - p
  {
    if p > |s| then None
    else if TitleMatchAt(s, p).Some? then TitleMatchAt(s, p)
    else SearchTitle(s, p + 1)
  }

  /** `get_game_title_from_url`: the captured group, with `_` turned into a
      space when asked, or `""` when the pattern does not match. */
  function GameTitleFromUrl(url: string, replaceUnderscore: bool): (title: string)
    ensures title == "" <==> SearchTitle(url, 0).None?
    ensures replaceUnderscore ==> '_' !in title
    ensures SearchTitle(url, 0).Some? ==> |title| == |SearchTitle(url, 0).value|
    ensures SearchTitle(url, 0).Some? && !replaceUnderscore ==> title == SearchTitle(url, 0).value
    ensures SearchTitle(url, 0).Some? && replaceUnderscore ==> title == ReplaceChar(SearchTitle(url, 0).value, '_', ' ')
  {
    match SearchTitle(url, 0)
    case None => ""
    case Some(group) => if replaceUnderscore then ReplaceChar(group, '_', ' ') else group
  }

  /** `/app/` first occurs at `at`. */
  predicate PathFirstAt(url: string, at: int) {
    OccursAt(url, "/app/", at) && forall k :: 0 <= k < at ==> !OccursAt(url, "/app/", k)
  }

  /** No match can start where `/app/` does not occur. */
  lemma NoMatchWithoutPath(url: string, at: nat)
    requires forall k :: 0 <= k < at ==> !OccursAt(url, "/app/", k)
    ensures forall k :: 0 <= k < at ==> TitleMatchAt(url, k).None?
  {
  }

  /** Where `/app/` is followed by digits, `/`, a title without `/` or
      line breaks, and `/`, the pattern matches with that title. */
  lemma TitleMatchLaidOut(url: string, at: nat, digits: string, title: string)
    requires OccursAt(url, "/app/", at)
    requires IsDecimal(digits) && |title| > 0 && '/' !in title && '\n' !in title
    requires var g := at + 5 + |digits| + 1;
      g + |title| < |url| && url[at + 5 .. at + 5 + |digits|] == digits && url[g - 1] == '/'
      && url[g .. g + |title|] == title && url[g + |title|] == '/'
    ensures TitleMatchAt(url, at) == Some(title)
  {
    var d := at + 5;
    var e := d + |digits|;
    var g := e + 1;
    forall m | d <= m < e
      ensures IsDigit(url[m])
    {
      assert url[m] == digits[m - d];
    }
    DigitRunAt(url, d, e);
    forall m | g + 1 <= m < g + |title|
      ensures url[m] != '/' && url[m] != '\n'
    {
      assert url[m] == title[m - g];
    }
    assert url[g] == title[0];
    ClosingSlashAt(url, g + 1, g + |title|);
  }

  /** A URL whose first `/app/` is followed by digits, `/`, a title without
      `/` or line breaks, and `/` yields that title. */
  lemma GameTitleCanonical(url: string, at: nat, digits: string, title: string)
    requires PathFirstAt(url, at)
    requires IsDecimal(digits) && |title| > 0 && '/' !in title && '\n' !in title
    requires var g := at + 5 + |digits| + 1;
      g + |title| < |url| && url[at + 5 .. at + 5 + |digits|] == digits && url[g - 1] == '/'
      && url[g .. g + |title|] == title && url[g + |title|] == '/'
    ensures SearchTitle(url, 0) == Some(title)
    ensures GameTitleFromUrl(url, false) == title
    ensures GameTitleFromUrl(url, true) == ReplaceChar(title, '_', ' ')
  {
    TitleMatchLaidOut(url, at, digits, title);
    NoMatchWithoutPath(url, at);
    SearchTitleAt(url, 0, at);
  }

  /** The digit run starting at `d` ends at `e` when it is followed by `/`. */
  lemma DigitRunAt(s: string, d: nat, e: nat)
    requires d <= e < |s|
    requires forall m :: d <= m < e ==> IsDigit(s[m])
    requires s[e] == '/'
    ensures DigitRunEnd(s, d) == e
    decreases e - d
  {
    if d < e {
      DigitRunAt(s, d + 1, e);
    }
  }

  /** The closing `/` is the first one after `j` when none comes earlier
      and no line break either. */
  lemma ClosingSlashAt(s: string, j: nat, c: nat)
    requires j <= c < |s| && s[c] == '/'
    requires forall m :: j <= m < c ==> s[m] != '/' && s[m] != '\n'
    ensures ClosingSlash(s, j) == Some(c)
    decreases c - j
  {
    if j < c {
      ClosingSlashAt(s, j + 1, c);
    }
  }

  /** The search finds the match at `q` when no earlier position matches. */
  lemma SearchTitleAt(s: string, p: nat, q: nat)
    requires p <= q <= |s| && TitleMatchAt(s, q).Some?
    requires forall m :: p <= m < q ==> TitleMatchAt(s, m).None?
    ensures SearchTitle(s, p) == TitleMatchAt(s, q)
    decreases q - p
  {
    if p < q {
      SearchTitleAt(s, p + 1, q);
    }
  }

  /** The store's address holds no `/app/`. */
  lemma StoreHostHasNoPath(tail: string)
    ensures forall k :: 0 <= k < |StoreHost| - 1 ==> !OccursAt(StoreHost + tail, "/app/", k)
  {
    StoreHostChars();
    var url := StoreHost + tail;
    forall k | 0 <= k < |StoreHost| - 1
      ensures !OccursAt(url, "/app/", k)
    {
      assert url[k] == StoreHost[k] && url[k + 1] == StoreHost[k + 1];
      if k + 5 <= |url| {
        assert url[k .. k + 5][0] == url[k] && url[k .. k + 5][1] == url[k + 1];
      }
    }
  }

  /** Underscores between three underscore-free words become spaces. */
  lemma UnderscoresBetweenWords(w1: string, w2: string, w3: string)
    requires '_' !in w1 && '_' !in w2 && '_' !in w3
    ensures ReplaceChar(w1 + "_" + w2 + "_" + w3, '_', ' ') == w1 + " " + w2 + " " + w3
  {
    assert ReplaceChar("_", '_', ' ')[0] == ' ';
    ReplaceCharAbsent(w1, '_', ' ');
    ReplaceCharAbsent(w2, '_', ' ');
    ReplaceCharAbsent(w3, '_', ' ');
    ReplaceCharAppend(w1, "_", '_', ' ');
    assert ReplaceChar(w1 + "_", '_', ' ') == w1 + " ";
    ReplaceCharAppend(w1 + "_", w2, '_', ' ');
    assert ReplaceChar(w1 + "_" + w2, '_', ' ') == w1 + " " + w2;
    ReplaceCharAppend(w1 + "_" + w2, "_", '_', ' ');
    assert ReplaceChar(w1 + "_" + w2 + "_", '_', ' ') == w1 + " " + w2 + " ";
    ReplaceCharAppend(w1 + "_" + w2 + "_", w3, '_', ' ');
  }

  /** The default title segment is three words joined by underscores. */
  lemma DefaultTitleWords()
    ensures DefaultTitleSegment == "CounterStrike" + "_" + "Global" + "_" + "Offensive"
  {
    var t := DefaultTitleSegment;
    assert t[..13] == "CounterStrike" && t[13..14] == "_" && t[14..20] == "Global";
    assert t[20..21] == "_" && t[21..] == "Offensive";
    assert t == t[..13] + t[13..14] + t[14..20] + t[20..21] + t[21..];
  }

  /** The same three words joined by spaces. */
  lemma SpacedTitleWords()
    ensures "CounterStrike Global Offensive" == "CounterStrike" + " " + "Global" + " " + "Offensive"
  {
    var t := "CounterStrike Global Offensive";
    assert t[..13] == "CounterStrike" && t[13..14] == " " && t[14..20] == "Global";
    assert t[20..21] == " " && t[21..] == "Offensive";
    assert t == t[..13] + t[13..14] + t[14..20] + t[20..21] + t[21..];
  }

  /** The default title segment with its underscores turned into spaces. */
  lemma DefaultTitleWithSpaces()
    ensures ReplaceChar(DefaultTitleSegment, '_', ' ') == "CounterStrike Global Offensive"
  {
    DefaultTitleWords();
    SpacedTitleWords();
    UnderscoresBetweenWords("CounterStrike", "Global", "Offensive");
  }

  /** In the default store page, `/app/` first occurs right after the
      store's address, and is followed by `730/`, the title segment and a
      closing `/`. */
  lemma DefaultGameUrlLayout()
    ensures PathFirstAt(DefaultGameUrl, 30)
    ensures |DefaultGameUrl| == 70
    ensures DefaultGameUrl[35..38] == "730" && DefaultGameUrl[38] == '/'
    ensures DefaultGameUrl[39..69] == DefaultTitleSegment && DefaultGameUrl[69] == '/'
  {
    var rest := "730" + "/" + DefaultTitleSegment + "/";
    var url := DefaultGameUrl;
    DefaultGameUrlParts();
    StoreAppUrl(rest);
    IdSegmentLayout("730", DefaultTitleSegment);
    assert |DefaultTitleSegment| == 30;
    assert url[35..38] == rest[..3];
    assert url[38] == rest[3];
    assert url[39..69] == rest[4..34];
    assert url[69] == rest[34];
  }

  /** The default title segment holds neither `/` nor a line break. */
  lemma DefaultTitleSegmentChars()
    ensures '/' !in DefaultTitleSegment && '\n' !in DefaultTitleSegment
  {
  }

  /** The default store page's title is `CounterStrike_Global_Offensive`
      as captured, and `CounterStrike Global Offensive` with underscores
      replaced. */
  lemma DefaultGameTitle()
    ensures GameTitleFromUrl(DefaultGameUrl, false) == "CounterStrike_Global_Offensive"
    ensures GameTitleFromUrl(DefaultGameUrl, true) == "CounterStrike Global Offensive"
  {
    DefaultGameUrlLayout();
    DefaultTitleSegmentChars();
    assert IsDecimal("730");
    GameTitleCanonical(DefaultGameUrl, 30, "730", DefaultTitleSegment);
    DefaultTitleWithSpaces();
  }

  // ---------------------------------------------------------------------
  // Removing repeated reviews
  // ---------------------------------------------------------------------

  /** The `recommendationid`s occurring in a list of reviews. */
  function IdSet(rs: seq<Review>): set<string> {
    set i | 0 <= i < |rs| :: rs[i].recommendationId
  }

  /** No two reviews of the list share a `recommendationid`. */
  predicate DistinctIds(rs: seq<Review>) {
    forall i, j :: 0 <= i < j < |rs| ==> rs[i].recommendationId != rs[j].recommendationId
  }

  /** The loop over the fetched reviews from some point on, given the ids
      already seen: a review is kept when its id has not been seen, and its
      id is then added. */
  function DedupFrom(rs: seq<Review>, seen: set<string>): seq<Review> {
    if |rs| == 0 then []
    else if rs[0].recommendationId in seen then DedupFrom(rs[1..], seen)
    else [rs[0]] + DedupFrom(rs[1..], seen + {rs[0].recommendationId})
  }

  /** `unique_user_reviews`: the fetched reviews with repeats removed. */
  function Dedup(rs: seq<Review>): seq<Review> {
    DedupFrom(rs, {})
  }

  /** The ids of a one-review head and the rest. */
  lemma IdSetCons(rs: seq<Review>)
    requires |rs| > 0
    ensures IdSet(rs) == {rs[0].recommendationId} + IdSet(rs[1..])
  {
    forall x | x in IdSet(rs)
      ensures x in {rs[0].recommendationId} + IdSet(rs[1..])
    {
      var i :| 0 <= i < |rs| && rs[i].recommendationId == x;
      if i > 0 {
        assert rs[1..][i - 1] == rs[i];
      }
    }
    forall x | x in IdSet(rs[1..])
      ensures x in IdSet(rs)
    {
      var i :| 0 <= i < |rs[1..]| && rs[1..][i].recommendationId == x;
      assert rs[i + 1] == rs[1..][i];
    }
  }

  /** The kept reviews are the input with some reviews deleted, in order;
      their ids are pairwise distinct and none was already seen; and they
      cover exactly the ids of the input that were not already seen. */
  lemma {:induction false} DedupFromShape(rs: seq<Review>, seen: set<string>)
    ensures var out := DedupFrom(rs, seen);
      && IsSubsequence(out, rs)
      && DistinctIds(out)
      && IdSet(out) == IdSet(rs) - seen
    decreases |rs|
  {
    if |rs| > 0 {
      var id := rs[0].recommendationId;
      IdSetCons(rs);
      if id in seen {
        DedupFromShape(rs[1..], seen);
        SubsequenceSkip(rs[0], DedupFrom(rs[1..], seen), rs[1..]);
        assert [rs[0]] + rs[1..] == rs;
      } else {
        var rest := DedupFrom(rs[1..], seen + {id});
        DedupFromShape(rs[1..], seen + {id});
        SubsequenceCons(rs[0], rest, rs[1..]);
        assert [rs[0]] + rs[1..] == rs;
        var out := [rs[0]] + rest;
        IdSetCons(out);
        assert out[1..] == rest;
        forall i, j | 0 <= i < j < |out|
          ensures out[i].recommendationId != out[j].recommendationId
        {
          if i == 0 {
            assert out[j] == rest[j - 1];
            assert rest[j - 1].recommendationId in IdSet(rest);
          } else {
            assert out[i] == rest[i - 1] && out[j] == rest[j - 1];
          }
        }
      }
    }
  }

  /** A list whose ids are distinct and unseen passes through unchanged. */
  lemma {:induction false} DedupFromDistinct(rs: seq<Review>, seen: set<string>)
    requires DistinctIds(rs) && IdSet(rs) !! seen
    ensures DedupFrom(rs, seen) == rs
    decreases |rs|
  {
    if |rs| > 0 {
      var id := rs[0].recommendationId;
      IdSetCons(rs);
      assert id !in seen;
      forall x | x in IdSet(rs[1..])
        ensures x != id
      {
        var i :| 0 <= i < |rs[1..]| && rs[1..][i].recommendationId == x;
        assert rs[1..][i] == rs[i + 1];
      }
      DedupFromDistinct(rs[1..], seen + {id});
      assert [rs[0]] + rs[1..] == rs;
    }
  }

  /** The position of the first review with the given id. */
  function FirstIndex(rs: seq<Review>, id: string): (i: nat)
    requires id in IdSet(rs)
    ensures i < |rs| && rs[i].recommendationId == id
    ensures forall j :: 0 <= j < i ==> rs[j].recommendationId != id
  {
    IdSetCons(rs);
    if rs[0].recommendationId == id then 0
    else 1 + FirstIndex(rs[1..], id)
  }

  /** Each kept review is the first review of the input with its id. */
  lemma {:induction false} DedupFromKeepsFirst(rs: seq<Review>, seen: set<string>)
    ensures forall k :: 0 <= k < |DedupFrom(rs, seen)| ==>
      DedupFrom(rs, seen)[k].recommendationId in IdSet(rs)
      && DedupFrom(rs, seen)[k] == rs[FirstIndex(rs, DedupFrom(rs, seen)[k].recommendationId)]
    decreases |rs|
  {
    if |rs| > 0 {
      var id := rs[0].recommendationId;
      IdSetCons(rs);
      var seen' := if id in seen then seen else seen + {id};
      var rest := DedupFrom(rs[1..], seen');
      DedupFromKeepsFirst(rs[1..], seen');
      DedupFromShape(rs[1..], seen');
      var out := DedupFrom(rs, seen);
      forall k | 0 <= k < |out|
        ensures out[k].recommendationId in IdSet(rs)
        ensures out[k] == rs[FirstIndex(rs, out[k].recommendationId)]
      {
        if id !in seen && k == 0 {
          assert out[0] == rs[0];
        } else {
          var m := if id in seen then k else k - 1;
          assert out[k] == rest[m];
          var x := rest[m].recommendationId;
          assert x in IdSet(rest);
          assert x != id;
          assert FirstIndex(rs, x) == 1 + FirstIndex(rs[1..], x);
        }
      }
    }
  }

  /** The de-duplicated reviews: an order-preserving subsequence of the
      input, with pairwise distinct ids, covering every id of the input,
      each by that id's first review. */
  lemma DedupShape(rs: seq<Review>)
    ensures IsSubsequence(Dedup(rs), rs)
    ensures DistinctIds(Dedup(rs))
    ensures IdSet(Dedup(rs)) == IdSet(rs)
    ensures forall k :: 0 <= k < |Dedup(rs)| ==> Dedup(rs)[k] == rs[FirstIndex(rs, Dedup(rs)[k].recommendationId)]
  {
    DedupFromShape(rs, {});
    DedupFromKeepsFirst(rs, {});
  }

  /** Removing repeats from a list without repeats changes nothing; in
      particular removing them twice is removing them once. */
  lemma DedupIdempotent(rs: seq<Review>)
    ensures DistinctIds(rs) ==> Dedup(rs) == rs
    ensures Dedup(Dedup(rs)) == Dedup(rs)
  {
    DedupFromShape(rs, {});
    DedupFromDistinct(Dedup(rs), {});
    if DistinctIds(rs) {
      DedupFromDistinct(rs, {});
    }
  }

  /** A list with distinct ids has one id per review. */
  lemma {:induction false} DistinctIdCount(rs: seq<Review>)
    requires DistinctIds(rs)
    ensures |IdSet(rs)| == |rs|
    decreases |rs|
  {
    if |rs| > 0 {
      IdSetCons(rs);
      forall x | x in IdSet(rs[1..])
        ensures x != rs[0].recommendationId
      {
        var i :| 0 <= i < |rs[1..]| && rs[1..][i].recommendationId == x;
        assert rs[1..][i] == rs[i + 1];
      }
      DistinctIdCount(rs[1..]);
    }
  }

  /** One review is kept per distinct id, so exactly `|rs| - |IdSet(rs)|`
      repeats are removed. */
  lemma DedupLength(rs: seq<Review>)
    ensures |Dedup(rs)| == |IdSet(rs)|
  {
    DedupFromShape(rs, {});
    DistinctIdCount(Dedup(rs));
  }

  /** The loop of `get_user_reviews` that drops repeated reviews, with its
      set of seen ids. */
  method RemoveDuplicateReviews(userReviews: seq<Review>) returns (unique: seq<Review>)
    ensures unique == Dedup(userReviews)
    ensures IsSubsequence(unique, userReviews) && DistinctIds(unique)
    ensures IdSet(unique) == IdSet(userReviews)
  {
    var seen: set<string> := {};
    unique := [];
    var i := 0;
    while i < |userReviews|
      invariant 0 <= i <= |userReviews|
      invariant seen == IdSet(unique)
      invariant unique + DedupFrom(userReviews[i..], seen) == Dedup(userReviews)
    {
      var review := userReviews[i];
      DedupFromStep(userReviews, i, seen, unique);
      if review.recommendationId !in seen {
        seen := seen + {review.recommendationId};
        IdSetAppend(unique, review);
        unique := unique + [review];
      }
      i := i + 1;
    }
    assert DedupFrom(userReviews[i..], seen) == [];
    DedupShape(userReviews);
  }

  /** One turn of the loop: the review at `i` is kept exactly when its id
      has not been seen. */
  lemma DedupFromStep(rs: seq<Review>, i: nat, seen: set<string>, kept: seq<Review>)
    requires i < |rs|
    ensures rs[i].recommendationId in seen ==> kept + DedupFrom(rs[i..], seen) == kept + DedupFrom(rs[i + 1..], seen)
    ensures rs[i].recommendationId !in seen ==>
      kept + DedupFrom(rs[i..], seen) == (kept + [rs[i]]) + DedupFrom(rs[i + 1..], seen + {rs[i].recommendationId})
  {
    assert rs[i..][1..] == rs[i + 1..];
    if rs[i].recommendationId !in seen {
      var rest := DedupFrom(rs[i + 1..], seen + {rs[i].recommendationId});
      assert DedupFrom(rs[i..], seen) == [rs[i]] + rest;
      assert kept + ([rs[i]] + rest) == (kept + [rs[i]]) + rest;
    }
  }

  /** The ids after appending one review. */
  lemma IdSetAppend(rs: seq<Review>, r: Review)
    ensures IdSet(rs + [r]) == IdSet(rs) + {r.recommendationId}
  {
    forall x | x in IdSet(rs + [r])
      ensures x in IdSet(rs) + {r.recommendationId}
    {
      var i :| 0 <= i < |rs + [r]| && (rs + [r])[i].recommendationId == x;
      if i < |rs| {
        assert (rs + [r])[i] == rs[i];
      }
    }
    forall x | x in IdSet(rs)
      ensures x in IdSet(rs + [r])
    {
      var i :| 0 <= i < |rs| && rs[i].recommendationId == x;
      assert (rs + [r])[i] == rs[i];
    }
    assert (rs + [r])[|rs|] == r;
  }
}
