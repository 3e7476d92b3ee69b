/** The listing catalogue (a search crawl cached as one whole file) and the
    per-listing detail resolver (cached per listing name). */
module StreetEasy {
  import opened Wrappers
  import opened Text
  import opened Values
  import opened Store
  import opened Web
  import opened Steps

  /** The fields the detail resolver extracts from a listing page. */
  const DetailKeys: set<string> := {"lat", "lon", "move_in", "price", "neighborhood"}

  // ----- search URL -----

  /** The search URL for a bedroom count, neighbourhood, rent cap and
      amenity list. */
  function SearchUrl(bedrooms: int, neighborhoods: string, priceCap: int, amenities: seq<string>): string
  {
    "https://streeteasy.com/" + IntToString(bedrooms) + "-bedroom-apartments-for-rent/"
    + neighborhoods + "/" + "price:-" + IntToString(priceCap)
    + "%7Camenities:" + Join(",", amenities)
  }

  /** With the constructor's default arguments the URL is the one the test
      script expects, written as its pieces: the path, the rent cap and the
      amenities filter. */
  lemma DefaultSearchUrl()
    ensures SearchUrl(2, "downtown", 4950, ["laundry", "doorman", "elevator"])
      == "https://streeteasy.com/2-bedroom-apartments-for-rent/downtown/"
         + "price:-4950" + "%7Camenities:laundry,doorman,elevator"
  {
    DefaultBedrooms();
    DefaultPriceCap();
    DefaultAmenities();
    LiteralHead();
    LiteralCap();
    LiteralAmenities();
  }

  // Literal step of DefaultSearchUrl: the path pieces concatenate to one literal.
  lemma LiteralHead()
    ensures "https://streeteasy.com/" + "2" + "-bedroom-apartments-for-rent/" + "downtown" + "/"
      == "https://streeteasy.com/2-bedroom-apartments-for-rent/downtown/"
  {
  }

  // Literal step of DefaultSearchUrl: the rent-cap piece.
  lemma LiteralCap()
    ensures "price:-" + "4950" == "price:-4950"
  {
  }

  // Literal step of DefaultSearchUrl: the amenities piece.
  lemma LiteralAmenities()
    ensures "%7Camenities:" + "laundry,doorman,elevator" == "%7Camenities:laundry,doorman,elevator"
  {
  }

  // Digit step of DefaultSearchUrl: the decimal text of the bedroom count.
  lemma DefaultBedrooms()
    ensures IntToString(2) == "2"
  {
  }

  // Digit step of DefaultSearchUrl: the decimal text of the rent cap, digit by digit.
  lemma DefaultPriceCap()
    ensures IntToString(4950) == "4950"
  {
    assert NatToString(4) == "4";
    assert NatToString(49) == "49";
    assert NatToString(495) == "495";
  }

  // Join step of DefaultSearchUrl: the comma-joined default amenities.
  lemma DefaultAmenities()
    ensures Join(",", ["laundry", "doorman", "elevator"]) == "laundry,doorman,elevator"
  {
    assert Join(",", ["elevator"]) == "elevator";
    assert Join(",", ["doorman", "elevator"]) == "doorman,elevator";
  }

  /** The amenity list is the tail of the URL and can be read back from it
      when no amenity contains a comma. */
  lemma SearchUrlAmenities(bedrooms: int, neighborhoods: string, priceCap: int, amenities: seq<string>)
    requires |amenities| >= 1
    requires forall i :: 0 <= i < |amenities| ==> ',' !in amenities[i]
    ensures var url := SearchUrl(bedrooms, neighborhoods, priceCap, amenities);
      var tail := Join(",", amenities);
      |tail| <= |url| && url[|url| - |tail|..] == tail && SplitOn(tail, ',') == amenities
  {
    SplitOnJoin(amenities, ',');
    assert [','] == ",";
  }

  // ----- listing labels -----

  /** `street_addr, unit = text.split("#")`, and on the first page the
      removal of one trailing space from `street_addr`. A text without
      exactly one `#` does not unpack (ValueError); on the first page an
      empty street part cannot be indexed with `[-1]` (IndexError). */
  function ParseLabel(text: string, firstPage: bool): Result<(string, string), Error>
  {
    var parts := SplitOn(text, '#');
    if |parts| != 2 then Err(ValueError)
    else if firstPage && parts[0] == "" then Err(IndexError)
    else if firstPage && parts[0][|parts[0]| - 1] == ' ' then Ok((parts[0][..|parts[0]| - 1], parts[1]))
    else Ok((parts[0], parts[1]))
  }

  /** A text parses exactly when it holds one `#` (not in front, on the
      first page); the parts then rebuild the text, with the one space
      that the first page trims. */
  lemma {:induction false} ParseLabelMeaning(text: string, firstPage: bool)
    ensures ParseLabel(text, firstPage).Ok? <==>
      Occurrences(text, '#') == 1 && (firstPage ==> !(|text| > 0 && text[0] == '#'))
    ensures ParseLabel(text, firstPage).Ok? ==>
      var (street, unit) := ParseLabel(text, firstPage).value;
      && '#' !in street && '#' !in unit
      && (!firstPage ==> street + "#" + unit == text)
      && (firstPage ==>
            || street + " #" + unit == text
            || (street + "#" + unit == text && street != "" && street[|street| - 1] != ' '))
  {
    var parts := SplitOn(text, '#');
    SplitOnCount(text, '#');
    SplitOnFirst(text, '#');
    if |parts| == 2 {
      assert parts[1..] == [parts[1]];
      assert text == parts[0] + "#" + parts[1];
      if parts[0] != "" {
        assert text[0] == parts[0][0];
        var p := parts[0];
        assert p == p[..|p| - 1] + " " || p[|p| - 1] != ' ';
      }
    }
  }

  /** The cached catalogue entry for one card. */
  function ListingEntry(card: Card, street: string, unit: string): Record
  {
    map["url" := JStr(card.href), "full_address" := JStr(card.text),
        "street_address" := JStr(street), "unit" := JStr(unit)]
  }

  /** The cards of one page, each marked with whether it is on page 1. */
  function Tag(cards: seq<Card>, firstPage: bool): (r: seq<(Card, bool)>)
    ensures |r| == |cards|
    ensures forall i :: 0 <= i < |cards| ==> r[i] == (cards[i], firstPage)
  {
    seq(|cards|, i requires 0 <= i < |cards| => (cards[i], firstPage))
  }

  /** Adds the cards to the catalogue in order, a card replacing any earlier
      one with the same text; the first text that does not parse aborts. */
  function AddCards(acc: CacheFile, cards: seq<(Card, bool)>): Result<CacheFile, Error>
    decreases |cards|
  {
    if cards == [] then Ok(acc)
    else
      var prior :- AddCards(acc, cards[..|cards| - 1]);
      var (card, firstPage) := cards[|cards| - 1];
      var parts :- ParseLabel(card.text, firstPage);
      Ok(prior[card.text := ListingEntry(card, parts.0, parts.1)])
  }

  lemma {:induction false} AddCardsAppend(acc: CacheFile, a: seq<(Card, bool)>, b: seq<(Card, bool)>)
    ensures AddCards(acc, a + b) ==
      match AddCards(acc, a)
      case Err(e) => Err(e)
      case Ok(m) => AddCards(m, b)
    decreases |b|
  {
    if b == [] {
      assert a + b == a;
    } else {
      var c := a + b;
      assert c[..|c| - 1] == a + b[..|b| - 1];
      assert c[|c| - 1] == b[|b| - 1];
      AddCardsAppend(acc, a, b[..|b| - 1]);
    }
  }

  /** The labels of a sequence of cards. */
  function Labels(cards: seq<(Card, bool)>): set<string>
  {
    set i | 0 <= i < |cards| :: cards[i].0.text
  }

  /** A catalogue built without error read every card's text as a label. */
  lemma {:induction false} AddCardsParsed(acc: CacheFile, cards: seq<(Card, bool)>)
    requires AddCards(acc, cards).Ok?
    ensures forall i :: 0 <= i < |cards| ==> ParseLabel(cards[i].0.text, cards[i].1).Ok?
    decreases |cards|
  {
    if cards != [] {
      var n := |cards| - 1;
      var pre := cards[..n];
      AddCardsParsed(acc, pre);
      assert forall i :: 0 <= i < n ==> pre[i] == cards[i];
    }
  }

  lemma LabelsSnoc(cards: seq<(Card, bool)>)
    requires cards != []
    ensures Labels(cards) == Labels(cards[..|cards| - 1]) + {cards[|cards| - 1].0.text}
  {
    var n := |cards| - 1;
    var pre := cards[..n];
    forall k | k in Labels(cards) ensures k in Labels(pre) + {cards[n].0.text} {
      var i :| 0 <= i < |cards| && cards[i].0.text == k;
      if i < n { assert pre[i].0.text == k; }
    }
    forall k | k in Labels(pre) ensures k in Labels(cards) {
      var i :| 0 <= i < |pre| && pre[i].0.text == k;
      assert cards[i].0.text == k;
    }
  }

  /** One step of the fold: the last card's entry is written over the
      catalogue of the others. */
  lemma AddCardsStep(acc: CacheFile, cards: seq<(Card, bool)>)
    requires cards != [] && AddCards(acc, cards).Ok?
    ensures AddCards(acc, cards[..|cards| - 1]).Ok?
    ensures ParseLabel(cards[|cards| - 1].0.text, cards[|cards| - 1].1).Ok?
    ensures var c := cards[|cards| - 1];
      var p := ParseLabel(c.0.text, c.1).value;
      AddCards(acc, cards).value == AddCards(acc, cards[..|cards| - 1]).value[c.0.text := ListingEntry(c.0, p.0, p.1)]
  {
  }

  /** A catalogue built without error has every text as a key and keeps the
      earlier entries no card replaced. */
  lemma {:induction false} AddCardsKeys(acc: CacheFile, cards: seq<(Card, bool)>)
    requires AddCards(acc, cards).Ok?
    ensures var f := AddCards(acc, cards).value;
      && f.Keys == acc.Keys + Labels(cards)
      && (forall k :: k in acc && k !in Labels(cards) ==> f[k] == acc[k])
    decreases |cards|
  {
    if cards != [] {
      AddCardsStep(acc, cards);
      AddCardsKeys(acc, cards[..|cards| - 1]);
      LabelsSnoc(cards);
    }
  }

  /** Each text is mapped to the entry of the LAST card carrying it. */
  lemma {:induction false} AddCardsLastWins(acc: CacheFile, cards: seq<(Card, bool)>, i: int)
    requires AddCards(acc, cards).Ok?
    requires 0 <= i < |cards|
    requires forall j :: i < j < |cards| ==> cards[j].0.text != cards[i].0.text
    ensures ParseLabel(cards[i].0.text, cards[i].1).Ok?
    ensures cards[i].0.text in AddCards(acc, cards).value
    ensures var p := ParseLabel(cards[i].0.text, cards[i].1).value;
      AddCards(acc, cards).value[cards[i].0.text] == ListingEntry(cards[i].0, p.0, p.1)
    decreases |cards|
  {
    var n := |cards| - 1;
    AddCardsStep(acc, cards);
    if i < n {
      var pre := cards[..n];
      assert pre[i] == cards[i];
      assert cards[n].0.text != cards[i].0.text;
      assert forall j :: i < j < |pre| ==> pre[j].0.text != pre[i].0.text;
      AddCardsLastWins(acc, pre, i);
      var c := cards[n];
      var p := ParseLabel(c.0.text, c.1).value;
      var prior := AddCards(acc, pre).value;
      assert AddCards(acc, cards).value == prior[c.0.text := ListingEntry(c.0, p.0, p.1)];
      assert AddCards(acc, cards).value[cards[i].0.text] == prior[cards[i].0.text];
    }
  }

  // ----- the crawl -----

  /** The request for result page `k` (k >= 2). */
  function PageRequest(base: string, k: int): Request
  {
    Request(base + "?page=" + IntToString(k), [])
  }

  /** Number of further pages fetched for `items` pagination items. */
  function LaterPageCount(items: nat): nat
  {
    if items == 0 then 0 else items - 1
  }

  /** The requests for pages 2 .. j+1. */
  function LaterRequests(base: string, j: nat): seq<Request>
  {
    if j == 0 then [] else LaterRequests(base, j - 1) + [PageRequest(base, j + 1)]
  }

  /** The later requests are for pages 2, 3, ... in order. */
  lemma {:induction false} LaterRequestsPages(base: string, j: nat)
    ensures |LaterRequests(base, j)| == j
    ensures forall i :: 0 <= i < j ==> LaterRequests(base, j)[i] == PageRequest(base, i + 2)
  {
    if j > 0 {
      LaterRequestsPages(base, j - 1);
    }
  }

  /** The cards of pages 2 .. j+1, in page order. */
  function LaterCards(base: string, page: Request -> Html, j: nat): seq<(Card, bool)>
  {
    if j == 0 then [] else LaterCards(base, page, j - 1) + Tag(page(PageRequest(base, j + 1)).cards, false)
  }

  /** Every card the crawl of `base` reads, first page first. */
  function CrawlCards(base: string, page: Request -> Html): seq<(Card, bool)>
  {
    var first := page(Request(base, []));
    Tag(first.cards, true) + LaterCards(base, page, LaterPageCount(first.pageItems))
  }

  /** Every request a complete crawl of `base` issues. */
  function CrawlRequests(base: string, page: Request -> Html): seq<Request>
  {
    [Request(base, [])] + LaterRequests(base, LaterPageCount(page(Request(base, [])).pageItems))
  }

  /** The catalogue a crawl of `base` produces. */
  function Catalogue(base: string, page: Request -> Html): Result<CacheFile, Error>
  {
    AddCards(map[], CrawlCards(base, page))
  }

  /** The catalogue page by page: `m0` (the first page's catalogue) with
      the cards of pages 2 .. j+1 added one page at a time. */
  function CrawlFold(m0: CacheFile, base: string, page: Request -> Html, j: nat): Result<CacheFile, Error>
  {
    if j == 0 then Ok(m0)
    else
      var m :- CrawlFold(m0, base, page, j - 1);
      AddCards(m, Tag(page(PageRequest(base, j + 1)).cards, false))
  }

  /** A page that fails to parse fails the rest of the crawl the same way. */
  lemma {:induction false} CrawlFoldErr(m0: CacheFile, base: string, page: Request -> Html, j: nat, k: nat)
    requires j <= k
    requires CrawlFold(m0, base, page, j).Err?
    ensures CrawlFold(m0, base, page, k) == CrawlFold(m0, base, page, j)
    decreases k
  {
    if k > j {
      CrawlFoldErr(m0, base, page, j, k - 1);
    }
  }

  /** Whether pages 2 .. j+1 all parse, read as a step predicate for the
      page loop. */
  function PagesParse(m0: CacheFile, base: string, page: Request -> Html): nat -> bool
  {
    (j: nat) => CrawlFold(m0, base, page, j).Ok?
  }

  lemma PagesParseSticky(m0: CacheFile, base: string, page: Request -> Html)
    ensures Sticky(PagesParse(m0, base, page))
  {
    forall a: nat, b: nat | a <= b && !PagesParse(m0, base, page)(a)
      ensures !PagesParse(m0, base, page)(b)
    {
      CrawlFoldErr(m0, base, page, a, b);
    }
  }

  /** Every request a crawl of `base` issues: the first page, then the later
      pages up to the first whose cards do not parse, if the first page's
      cards do. */
  function CrawlLog(base: string, page: Request -> Html): seq<Request>
  {
    var first := page(Request(base, []));
    var m0 := AddCards(map[], Tag(first.cards, true));
    [Request(base, [])]
      + if m0.Err? then [] else LaterRequests(base, Reached(PagesParse(m0.value, base, page), LaterPageCount(first.pageItems)))
  }

  /** A crawl that builds its catalogue sends every page request. */
  lemma CrawlLogComplete(base: string, page: Request -> Html)
    requires Catalogue(base, page).Ok?
    ensures CrawlLog(base, page) == CrawlRequests(base, page)
  {
    var first := page(Request(base, []));
    var x := Tag(first.cards, true);
    var n := LaterPageCount(first.pageItems);
    AddCardsAppend(map[], x, LaterCards(base, page, n));
    var m0 := AddCards(map[], x).value;
    CrawlFoldCards(x, m0, base, page, n);
    PagesParseSticky(m0, base, page);
    ReachedMeaning(PagesParse(m0, base, page), n);
  }

  /** A crawl whose later page `i + 1` (page `i + 2` of the results) is the
      first that does not parse sends the first page and the later pages up
      to that one, and no more. */
  lemma CrawlLogStop(base: string, page: Request -> Html, i: nat)
    requires AddCards(map[], Tag(page(Request(base, [])).cards, true)).Ok?
    requires i < LaterPageCount(page(Request(base, [])).pageItems)
    requires CrawlFold(AddCards(map[], Tag(page(Request(base, [])).cards, true)).value, base, page, i).Ok?
    requires CrawlFold(AddCards(map[], Tag(page(Request(base, [])).cards, true)).value, base, page, i + 1).Err?
    ensures CrawlLog(base, page) == [Request(base, [])] + LaterRequests(base, i + 1)
  {
    var first := page(Request(base, []));
    var m0 := AddCards(map[], Tag(first.cards, true)).value;
    PagesParseSticky(m0, base, page);
    ReachedStop(PagesParse(m0, base, page), i, LaterPageCount(first.pageItems));
  }

  /** Page by page is all cards at once: folding the later pages over the
      first page's catalogue is the catalogue of all the cards. */
  lemma {:induction false} CrawlFoldCards(x: seq<(Card, bool)>, m0: CacheFile, base: string, page: Request -> Html, j: nat)
    requires AddCards(map[], x) == Ok(m0)
    ensures CrawlFold(m0, base, page, j) == AddCards(map[], x + LaterCards(base, page, j))
  {
    if j == 0 {
      assert x + LaterCards(base, page, 0) == x;
    } else {
      CrawlFoldCards(x, m0, base, page, j - 1);
      CrawlFoldCardsStep(x, m0, base, page, j);
    }
  }

  lemma CrawlFoldCardsStep(x: seq<(Card, bool)>, m0: CacheFile, base: string, page: Request -> Html, j: nat)
    requires j >= 1
    requires CrawlFold(m0, base, page, j - 1) == AddCards(map[], x + LaterCards(base, page, j - 1))
    ensures CrawlFold(m0, base, page, j) == AddCards(map[], x + LaterCards(base, page, j))
  {
    var t := Tag(page(PageRequest(base, j + 1)).cards, false);
    var y := x + LaterCards(base, page, j - 1);
    LaterCardsSnoc(x, base, page, j);
    AddCardsAppend(map[], y, t);
  }

  /** The cards read up to page j+1 are those up to page j, then page j+1's. */
  lemma LaterCardsSnoc(x: seq<(Card, bool)>, base: string, page: Request -> Html, j: nat)
    requires j >= 1
    ensures x + LaterCards(base, page, j) == (x + LaterCards(base, page, j - 1)) + Tag(page(PageRequest(base, j + 1)).cards, false)
  {
    var pre, last := LaterCards(base, page, j - 1), Tag(page(PageRequest(base, j + 1)).cards, false);
    assert x + (pre + last) == (x + pre) + last;
  }

  lemma TagSplit(cards: seq<Card>, firstPage: bool, j: int)
    requires 0 <= j < |cards|
    ensures Tag(cards[..j + 1], firstPage) == Tag(cards[..j], firstPage) + [(cards[j], firstPage)]
    ensures Tag(cards, firstPage) == Tag(cards[..j + 1], firstPage) + Tag(cards[j + 1..], firstPage)
  {
  }

  /** One more card: an earlier error stays, a label that does not parse
      fails with its error, and otherwise the card's entry is set. */
  lemma AddCardsSnoc(acc: CacheFile, xs: seq<(Card, bool)>, c: (Card, bool))
    ensures AddCards(acc, xs + [c]) ==
      match AddCards(acc, xs)
      case Err(e) => Err(e)
      case Ok(m) =>
        match ParseLabel(c.0.text, c.1)
        case Err(e) => Err(e)
        case Ok(p) => Ok(m[c.0.text := ListingEntry(c.0, p.0, p.1)])
  {
    assert (xs + [c])[..|xs|] == xs;
  }

  /** Once the cards up to `j` fail, the later cards change nothing. */
  lemma AddCardsStopAt(acc: CacheFile, cards: seq<Card>, firstPage: bool, j: nat)
    requires j < |cards|
    requires AddCards(acc, Tag(cards[..j + 1], firstPage)).Err?
    ensures AddCards(acc, Tag(cards, firstPage)) == AddCards(acc, Tag(cards[..j + 1], firstPage))
  {
    TagSplit(cards, firstPage, j);
    AddCardsAppend(acc, Tag(cards[..j + 1], firstPage), Tag(cards[j + 1..], firstPage));
  }

  /** A card whose label does not parse, after cards that all did, ends the
      card loop with that card's own error. */
  lemma AddCardsFailsAt(acc: CacheFile, cards: seq<Card>, firstPage: bool, j: nat)
    requires j < |cards|
    requires AddCards(acc, Tag(cards[..j], firstPage)).Ok?
    requires ParseLabel(cards[j].text, firstPage).Err?
    ensures AddCards(acc, Tag(cards, firstPage)) == Err(ParseLabel(cards[j].text, firstPage).error)
  {
    TagSplit(cards, firstPage, j);
    AddCardsSnoc(acc, Tag(cards[..j], firstPage), (cards[j], firstPage));
    AddCardsStopAt(acc, cards, firstPage, j);
  }

  /** One card loop of the crawl: the cards of a page added in order. */
  method AddListings(acc: CacheFile, cards: seq<Card>, firstPage: bool) returns (r: Result<CacheFile, Error>)
    ensures r == AddCards(acc, Tag(cards, firstPage))
  {
    var aptDict := acc;
    var j := 0;
    while j < |cards|
      invariant 0 <= j <= |cards|
      invariant AddCards(acc, Tag(cards[..j], firstPage)) == Ok(aptDict)
    {
      var card := cards[j];
      TagSplit(cards, firstPage, j);
      AddCardsSnoc(acc, Tag(cards[..j], firstPage), (card, firstPage));
      var parts := ParseLabel(card.text, firstPage);
      if parts.Err? {
        AddCardsStopAt(acc, cards, firstPage, j);
        return Err(parts.error);
      }
      aptDict := aptDict[card.text := ListingEntry(card, parts.value.0, parts.value.1)];
      j := j + 1;
    }
    assert cards[..j] == cards;
    r := Ok(aptDict);
  }

  // ----- listing details -----

  /** `content.split(";")`: the latitude is the first piece, the longitude
      the second piece without its first character. A missing meta tag is
      a TypeError, content without `;` an IndexError. */
  function GeoPosition(content: Option<string>): (r: Result<(string, string), Error>)
    ensures r.Ok? <==> content.Some? && ';' in content.value
    ensures r.Ok? ==> ';' !in r.value.0 && ';' !in r.value.1
    ensures r.Ok? ==>
      var s := content.value;
      var rest := s[IndexOf(s, ';') + 1..];
      var second := rest[..IndexOf(rest, ';')];
      && r.value.0 == s[..IndexOf(s, ';')]
      && r.value.1 == if second == "" then "" else second[1..]
  {
    if content.None? then Err(TypeError)
    else
      var pieces := SplitOn(content.value, ';');
      SplitOnSingle(content.value, ';');
      if |pieces| < 2 then Err(IndexError)
      else
        SplitOnFirst(content.value, ';');
        SplitOnSecond(content.value, ';');
        assert content.value == pieces[0] + ";" + Join(";", pieces[1..]);
        var lon := if pieces[1] == "" then "" else pieces[1][1..];
        assert forall k :: 0 <= k < |lon| ==> lon[k] == pieces[1][k + 1];
        Ok((pieces[0], lon))
  }

  /** Content with more than one `;`, and content ending in `;`. */
  lemma GeoPositionExamples()
    ensures GeoPosition(Some("a;bc;d")) == Ok(("a", "c"))
    ensures GeoPosition(Some("a;")) == Ok(("a", ""))
  {
    var s, t := "a;bc;d", "a;";
    assert s[1] == ';' && t[1] == ';';
    assert IndexOf(s, ';') == 1 && s[..1] == "a" && s[2..] == "bc;d";
    assert IndexOf("bc;d", ';') == 2 && "bc;d"[..2] == "bc" && "bc"[1..] == "c";
    assert IndexOf(t, ';') == 1 && t[..1] == "a" && t[2..] == "";
  }

  /** Reads back a position written as latitude, `;`, one separator
      character and longitude. */
  lemma GeoPositionOf(lat: string, sep: char, lon: string)
    requires ';' !in lat && ';' !in lon && sep != ';'
    ensures GeoPosition(Some(lat + ";" + [sep] + lon)) == Ok((lat, lon))
  {
    assert ';' !in [sep] + lon;
    SplitOnJoin([lat, [sep] + lon], ';');
    assert Join([';'], [lat, [sep] + lon]) == lat + ";" + [sep] + lon;
    assert ([sep] + lon)[1..] == lon;
  }

  predicate StartsWithDollar(t: string)
  {
    |t| > 0 && t[0] == '$'
  }

  /** The first token that starts with `$`, or "" if there is none. */
  function DollarAmount(tokens: seq<string>): string
  {
    if tokens == [] then ""
    else if StartsWithDollar(tokens[0]) then tokens[0]
    else DollarAmount(tokens[1..])
  }

  /** DollarAmount is "" exactly when no token starts with `$`, and
      otherwise the earliest token that does. */
  lemma {:induction false} DollarAmountFirst(tokens: seq<string>)
    ensures DollarAmount(tokens) == "" <==> forall i :: 0 <= i < |tokens| ==> !StartsWithDollar(tokens[i])
    ensures DollarAmount(tokens) != "" ==>
      exists i :: 0 <= i < |tokens| && tokens[i] == DollarAmount(tokens) && StartsWithDollar(tokens[i])
        && forall j :: 0 <= j < i ==> !StartsWithDollar(tokens[j])
  {
    if tokens != [] && !StartsWithDollar(tokens[0]) {
      DollarAmountFirst(tokens[1..]);
      assert forall i :: 1 <= i < |tokens| ==> tokens[i] == tokens[1..][i - 1];
      if DollarAmount(tokens) != "" {
        var i :| 0 <= i < |tokens[1..]| && tokens[1..][i] == DollarAmount(tokens[1..]) && StartsWithDollar(tokens[1..][i])
          && forall j :: 0 <= j < i ==> !StartsWithDollar(tokens[1..][j]);
        assert tokens[i + 1] == DollarAmount(tokens);
      }
    }
  }

  /** The price loop: the first whitespace-separated word of the price text
      that starts with `$`, else "". */
  method FindDollarAmount(text: string) returns (amount: string)
    ensures amount == DollarAmount(Split(text))
  {
    var tokens := Split(text);
    amount := "";
    var i := 0;
    while i < |tokens|
      invariant 0 <= i <= |tokens|
      invariant DollarAmount(tokens[i..]) == DollarAmount(tokens)
    {
      if tokens[i][0] == '$' {
        amount := tokens[i];
        break;
      }
      assert tokens[i..][1..] == tokens[i + 1..];
      i := i + 1;
    }
    if i == |tokens| {
      assert tokens[i..] == [];
    }
  }

  /** The record of the five resolved fields. */
  function DetailRecord(lat: string, lon: string, moveIn: string, price: string, hood: string): (r: Record)
    ensures r.Keys == DetailKeys
    ensures r["lat"] == JStr(lat) && r["lon"] == JStr(lon) && r["move_in"] == JStr(moveIn)
    ensures r["price"] == JStr(price) && r["neighborhood"] == JStr(hood)
    ensures forall k :: k in r ==> r[k].JStr?
  {
    map["lat" := JStr(lat), "lon" := JStr(lon), "move_in" := JStr(moveIn), "price" := JStr(price),
        "neighborhood" := JStr(hood)]
  }

  /** The five fields resolved from a listing page, checked in the order the
      page is read: position, move-in heading, price block, breadcrumbs. */
  function Details(doc: Html): (r: Result<Record, Error>)
    ensures r.Ok? <==>
      && doc.geoPosition.Some? && ';' in doc.geoPosition.value
      && doc.availableOn.Some? && doc.priceTexts != [] && |doc.crumbs| >= 2
    ensures r.Ok? ==> r.value.Keys == DetailKeys && forall k :: k in r.value ==> r.value[k].JStr?
  {
    var ll :- GeoPosition(doc.geoPosition);
    DetailsAt(doc, ll)
  }

  /** The steps after the position, given the position `ll`. */
  function DetailsAt(doc: Html, ll: (string, string)): Result<Record, Error>
  {
    if doc.availableOn.None? then Err(IndexError)
    else if doc.priceTexts == [] then Err(IndexError)
    else if |doc.crumbs| < 2 then Err(IndexError)
    else
      Ok(DetailRecord(ll.0, ll.1, CollapseSpaces(doc.availableOn.value), DollarAmount(Split(doc.priceTexts[0])),
                      Strip(doc.crumbs[|doc.crumbs| - 2])))
  }

  /** A page whose every step succeeds resolves to the record of those
      steps' results. */
  lemma DetailsFields(doc: Html, ll: (string, string), price: string, hood: string)
    requires GeoPosition(doc.geoPosition) == Ok(ll)
    requires doc.availableOn.Some? && doc.priceTexts != [] && |doc.crumbs| >= 2
    requires price == DollarAmount(Split(doc.priceTexts[0]))
    requires hood == Strip(doc.crumbs[|doc.crumbs| - 2])
    ensures Details(doc) == Ok(DetailRecord(ll.0, ll.1, CollapseSpaces(doc.availableOn.value), price, hood))
  {
    DetailsAtFields(doc, ll);
  }

  lemma DetailsAtFields(doc: Html, ll: (string, string))
    requires doc.availableOn.Some? && doc.priceTexts != [] && |doc.crumbs| >= 2
    ensures DetailsAt(doc, ll) == Ok(DetailRecord(ll.0, ll.1, CollapseSpaces(doc.availableOn.value),
                                                  DollarAmount(Split(doc.priceTexts[0])), Strip(doc.crumbs[|doc.crumbs| - 2])))
  {
  }

  /** The position fields are the two halves of the page's geo position. */
  lemma DetailsPosition(doc: Html)
    requires Details(doc).Ok?
    ensures GeoPosition(doc.geoPosition) == Ok((Details(doc).value["lat"].s, Details(doc).value["lon"].s))
  {
    var ll := GeoPosition(doc.geoPosition).value;
    DetailsFields(doc, ll, DollarAmount(Split(doc.priceTexts[0])), Strip(doc.crumbs[|doc.crumbs| - 2]));
  }

  /** The move-in date keeps the words of the heading, single-spaced. */
  lemma DetailsMoveIn(doc: Html)
    requires Details(doc).Ok?
    ensures SingleSpaced(Details(doc).value["move_in"].s)
    ensures Split(Details(doc).value["move_in"].s) == Split(doc.availableOn.value)
  {
    var ll := GeoPosition(doc.geoPosition).value;
    DetailsFields(doc, ll, DollarAmount(Split(doc.priceTexts[0])), Strip(doc.crumbs[|doc.crumbs| - 2]));
    CollapseSpacesMeaning(doc.availableOn.value);
  }

  /** The price is "" exactly when no word of the price block starts with
      `$`, and otherwise the first word that does. */
  lemma DetailsPrice(doc: Html)
    requires Details(doc).Ok?
    ensures var price := Details(doc).value["price"].s;
      var words := Split(doc.priceTexts[0]);
      && (price == "" <==> forall i :: 0 <= i < |words| ==> !StartsWithDollar(words[i]))
      && (price != "" ==> exists i :: 0 <= i < |words| && words[i] == price && StartsWithDollar(price)
                              && forall j :: 0 <= j < i ==> !StartsWithDollar(words[j]))
  {
    var words := Split(doc.priceTexts[0]);
    DollarAmountFirst(words);
    DetailsPriceIs(doc);
  }

  lemma DetailsPriceIs(doc: Html)
    requires Details(doc).Ok?
    ensures Details(doc).value["price"].s == DollarAmount(Split(doc.priceTexts[0]))
  {
    var ll := GeoPosition(doc.geoPosition).value;
    DetailsFields(doc, ll, DollarAmount(Split(doc.priceTexts[0])), Strip(doc.crumbs[|doc.crumbs| - 2]));
  }

  /** The neighbourhood is the second-to-last breadcrumb without the space
      around it. */
  lemma DetailsNeighborhood(doc: Html)
    requires Details(doc).Ok?
    ensures Details(doc).value["neighborhood"].s == Strip(doc.crumbs[|doc.crumbs| - 2])
    ensures Details(doc).value["neighborhood"].s != "" ==>
      !IsSpace(Details(doc).value["neighborhood"].s[0])
      && !IsSpace(Details(doc).value["neighborhood"].s[|Details(doc).value["neighborhood"].s| - 1])
  {
    var ll := GeoPosition(doc.geoPosition).value;
    DetailsFields(doc, ll, DollarAmount(Split(doc.priceTexts[0])), Strip(doc.crumbs[|doc.crumbs| - 2]));
  }

  /** Overlaying the resolved fields on the cached record keeps every other
      field (stores, commute, url, ...) and replaces exactly the five. */
  lemma DetailsOverlay(base: Record, doc: Html)
    requires Details(doc).Ok?
    ensures var m := base + Details(doc).value;
      && m.Keys == base.Keys + DetailKeys
      && (forall k :: k in base && k !in DetailKeys ==> m[k] == base[k])
      && (forall k :: k in DetailKeys ==> m[k] == Details(doc).value[k])
  {
  }

  /** Setting the five fields one by one is overlaying them at once. */
  lemma OverlayFields(base: Record, lat: string, lon: string, moveIn: string, price: string, hood: string)
    ensures base["lat" := JStr(lat)]["lon" := JStr(lon)]["move_in" := JStr(moveIn)]["price" := JStr(price)]
      ["neighborhood" := JStr(hood)]
      == base + DetailRecord(lat, lon, moveIn, price, hood)
  {
  }

  // ----- the two scrapers -----

  /** The search-results scraper; its cache file is written whole. */
  class SearchScraper {
    var priceCap: int
    var amenities: seq<string>
    var neighborhoods: string
    var bedrooms: int
    var debug: bool
    var forceRefresh: bool
    var apts: CacheFile
    var requestUrl: string
    const disk: Disk
    const net: Network

    /** Sets the fields and builds the request URL; `GetApts` is the call
        that completes the Python constructor. */
    constructor (disk: Disk, net: Network, priceCap: int := 4950,
                 amenities: seq<string> := ["laundry", "doorman", "elevator"], bedrooms: int := 2,
                 neighborhoods: string := "downtown", debug: bool := false, forceRefresh: bool := false)
      ensures this.priceCap == priceCap && this.amenities == amenities && this.bedrooms == bedrooms
      ensures this.neighborhoods == neighborhoods && this.debug == debug && this.forceRefresh == forceRefresh
      ensures this.disk == disk && this.net == net
      ensures apts == map[] && requestUrl == SearchUrl(bedrooms, neighborhoods, priceCap, amenities)
    {
      this.priceCap := priceCap;
      this.amenities := amenities;
      this.neighborhoods := neighborhoods;
      this.bedrooms := bedrooms;
      this.debug := debug;
      this.forceRefresh := forceRefresh;
      this.apts := map[];
      this.disk := disk;
      this.net := net;
      new;
      requestUrl := GenReqUrl();
    }

    method GenReqUrl() returns (url: string)
      ensures url == SearchUrl(bedrooms, neighborhoods, priceCap, amenities)
    {
      url := "https://streeteasy.com/";
      url := url + IntToString(bedrooms) + "-bedroom-apartments-for-rent/";
      url := url + neighborhoods + "/";
      url := url + "price:-" + IntToString(priceCap);
      url := url + "%7Camenities:" + Join(",", amenities);
    }

    /** True iff the file exists; the names in it are not looked at. */
    method ExistsInCache(path: string) returns (b: bool)
      ensures b == (path in disk.files)
    {
      b := disk.IsFile(path);
    }

    method LoadFromCache(path: string) returns (f: CacheFile)
      requires path in disk.files
      ensures f == disk.files[path]
    {
      f := disk.Load(path);
    }

    /** Replaces the whole file with `data`. */
    method WriteToCache(data: CacheFile, path: string)
      modifies disk
      ensures disk.files == old(disk.files)[path := data]
    {
      disk.Dump(path, data);
    }

    /** The crawl inside `GetApts`: the first result page, then the later
        pages; a card that does not parse ends the crawl. */
    method Crawl() returns (r: Result<CacheFile, Error>)
      modifies net
      ensures r == Catalogue(requestUrl, net.page)
      ensures net.sent == old(net.sent) + CrawlLog(requestUrl, net.page)
      ensures r.Ok? ==> net.sent == old(net.sent) + CrawlRequests(requestUrl, net.page)
    {
      var first := net.Fetch(Request(requestUrl, []));
      var firstTagged := Tag(first.cards, true);
      var n := LaterPageCount(first.pageItems);
      r := AddListings(map[], first.cards, true);
      if r.Err? {
        AddCardsAppend(map[], firstTagged, LaterCards(requestUrl, net.page, n));
        LogExtends(old(net.sent), [Request(requestUrl, [])], []);
        return;
      }
      var m0 := r.value;
      CrawlFoldCards(firstTagged, m0, requestUrl, net.page, n);
      r := FetchLaterPages(first, m0);
      LogExtends(old(net.sent), [Request(requestUrl, [])], LaterRequests(requestUrl, Reached(PagesParse(m0, requestUrl, net.page), n)));
      if r.Ok? {
        CrawlLogComplete(requestUrl, net.page);
      }
    }

    /** One later page of the crawl: page `i + 1` fetched and its cards
        added to the catalogue built so far. */
    method FetchPage(i: nat, aptDict: CacheFile) returns (r: Result<CacheFile, Error>)
      modifies net
      ensures net.sent == old(net.sent) + [PageRequest(requestUrl, i + 1)]
      ensures r == AddCards(aptDict, Tag(net.page(PageRequest(requestUrl, i + 1)).cards, false))
    {
      var doc := net.Fetch(PageRequest(requestUrl, i + 1));
      r := AddListings(aptDict, doc.cards, false);
    }

    /** The page loop of the crawl: pages 2 .. n for the n pagination items
        of the first page, their cards added in page order. */
    method FetchLaterPages(first: Html, acc: CacheFile) returns (r: Result<CacheFile, Error>)
      modifies net
      ensures r == CrawlFold(acc, requestUrl, net.page, LaterPageCount(first.pageItems))
      ensures net.sent == old(net.sent) + LaterRequests(requestUrl, Reached(PagesParse(acc, requestUrl, net.page), LaterPageCount(first.pageItems)))
    {
      var n := LaterPageCount(first.pageItems);
      var aptDict := acc;
      var i := 1;
      while i < first.pageItems
        invariant 1 <= i <= n + 1
        invariant net.sent == old(net.sent) + LaterRequests(requestUrl, i - 1)
        invariant CrawlFold(acc, requestUrl, net.page, i - 1) == Ok(aptDict)
      {
        var more := FetchPage(i, aptDict);
        LogExtends(old(net.sent), LaterRequests(requestUrl, i - 1), [PageRequest(requestUrl, i + 1)]);
        if more.Err? {
          CrawlFoldErr(acc, requestUrl, net.page, i, n);
          PagesParseSticky(acc, requestUrl, net.page);
          ReachedStop(PagesParse(acc, requestUrl, net.page), i - 1, n);
          return more;
        }
        aptDict := more.value;
        i := i + 1;
      }
      r := Ok(aptDict);
    }

    /** The catalogue: from the cache file when it exists and no refresh is
        forced (in debug mode nothing is loaded then); otherwise, in debug
        mode, an empty catalogue and no I/O; otherwise a crawl of every
        result page, stored as one whole-file write. */
    method GetApts() returns (r: Result<CacheFile, Error>)
      modifies this`apts, disk, net
      ensures var hit := TopFile in old(disk.files) && !forceRefresh;
        && (hit ==>
              && disk.files == old(disk.files) && net.sent == old(net.sent)
              && apts == (if debug then old(apts) else old(disk.files)[TopFile])
              && r == Ok(apts))
        && (!hit && debug ==>
              && disk.files == old(disk.files) && net.sent == old(net.sent)
              && apts == map[] && r == Ok(apts))
        && (!hit && !debug ==>
              && r == Catalogue(requestUrl, net.page)
              && net.sent == old(net.sent) + CrawlLog(requestUrl, net.page)
              && (r.Ok? ==>
                    && apts == r.value
                    && disk.files == old(disk.files)[TopFile := r.value]
                    && net.sent == old(net.sent) + CrawlRequests(requestUrl, net.page))
              && (r.Err? ==> apts == old(apts) && disk.files == old(disk.files)))
    {
      var cached := ExistsInCache(TopFile);
      if !(cached && !forceRefresh) {
        var aptDict: CacheFile := map[];
        if !debug {
          r := Crawl();
          if r.Err? {
            return;
          }
          aptDict := r.value;
          WriteToCache(aptDict, TopFile);
        }
        apts := aptDict;
      } else if !debug {
        apts := LoadFromCache(TopFile);
      }
      r := Ok(apts);
    }
  }

  /** The test script's scraper: built with every default but debug mode,
      it holds the default search URL, and the construction's `get_apts`
      call leaves the catalogue empty whether or not the file is cached. */
  method TestScraper(disk: Disk, net: Network) returns (s: SearchScraper, r: Result<CacheFile, Error>)
    modifies disk, net
    ensures s.debug && !s.forceRefresh && s.apts == map[] && r == Ok(map[])
    ensures s.requestUrl == "https://streeteasy.com/2-bedroom-apartments-for-rent/downtown/"
                            + "price:-4950" + "%7Camenities:laundry,doorman,elevator"
  {
    s := new SearchScraper(disk, net, debug := true, forceRefresh := false);
    DefaultSearchUrl();
    r := s.GetApts();
  }

  /** The single-listing scraper; its cache file keeps one entry per name
      and a write replaces only the entry of `name`. */
  class ListingScraper {
    var requestUrl: string
    var name: string
    var debug: bool
    var forceRefresh: bool
    var aptInfo: CacheFile
    const disk: Disk
    const net: Network

    /** Sets the fields; `LoadApt` is the call that completes the Python
        constructor. */
    constructor (disk: Disk, net: Network, name: string, url: string, debug: bool := false, forceRefresh: bool := false)
      ensures this.name == name && requestUrl == url && this.debug == debug && this.forceRefresh == forceRefresh
      ensures this.disk == disk && this.net == net
      ensures aptInfo == map[name := map[]]
    {
      this.requestUrl := url;
      this.name := name;
      this.debug := debug;
      this.forceRefresh := forceRefresh;
      this.aptInfo := map[name := map[]];
      this.disk := disk;
      this.net := net;
    }

    /** True iff the file exists and has an entry for `name`. */
    method ExistsInCache(path: string) returns (b: bool)
      ensures b == HasEntry(disk.files, path, name)
    {
      var isFile := disk.IsFile(path);
      if !isFile {
        return false;
      }
      var all := disk.Load(path);
      b := name in all;
    }

    /** The cached entry of `name`. */
    method LoadFromCache(path: string) returns (rec: Record)
      requires HasEntry(disk.files, path, name)
      ensures rec == disk.files[path][name]
    {
      var all := disk.Load(path);
      rec := all[name];
    }

    /** Replaces the entry of `name` when the file exists, keeping every
        other entry; otherwise writes `data` as the file. */
    method WriteToCache(data: CacheFile, path: string)
      requires path in disk.files ==> name in data
      modifies disk
      ensures disk.files == PutEntry(old(disk.files), path, name, data)
    {
      var toWrite := data;
      var isFile := disk.IsFile(path);
      if isFile {
        var all := disk.Load(path);
        all := all[name := data[name]];
        toWrite := all;
      }
      disk.Dump(path, toWrite);
    }

    /** The listing's record: the cached entry when there is one and no
        refresh is forced (in debug mode nothing is loaded then); otherwise
        the cached entry, or {}, with the five page fields laid over it and
        stored with the per-name write, except in debug mode, which fetches
        and writes nothing. */
    method LoadApt() returns (r: Result<CacheFile, Error>)
      modifies this`aptInfo, disk, net
      ensures var hit := HasEntry(old(disk.files), AptsFile, name);
        var base: Record := if hit then old(disk.files)[AptsFile][name] else map[];
        var req := Request(requestUrl, []);
        var d := Details(net.page(req));
        && (hit && !forceRefresh ==>
              && disk.files == old(disk.files) && net.sent == old(net.sent)
              && aptInfo == (if debug then old(aptInfo) else map[name := base])
              && r == Ok(aptInfo))
        && (!(hit && !forceRefresh) && debug ==>
              && disk.files == old(disk.files) && net.sent == old(net.sent)
              && aptInfo == map[name := base] && r == Ok(aptInfo))
        && (!(hit && !forceRefresh) && !debug ==>
              && net.sent == old(net.sent) + [req]
              && (d.Err? ==> r == Err(d.error) && aptInfo == old(aptInfo) && disk.files == old(disk.files))
              && (d.Ok? ==>
                    && aptInfo == map[name := base + d.value]
                    && disk.files == PutEntry(old(disk.files), AptsFile, name, aptInfo)
                    && r == Ok(aptInfo)))
    {
      var cached := ExistsInCache(AptsFile);
      if !(cached && !forceRefresh) {
        // `apt_dict` only ever holds the one key `name`: its record is kept
        // in `rec` and the page fields are set on it one by one.
        var rec: Record := map[];
        if cached {
          rec := LoadFromCache(AptsFile);
        }
        if !debug {
          var doc := net.Fetch(Request(requestUrl, []));
          var ll := GeoPosition(doc.geoPosition);
          if ll.Err? {
            return Err(ll.error);
          }
          rec := rec["lat" := JStr(ll.value.0)];
          rec := rec["lon" := JStr(ll.value.1)];
          if doc.availableOn.None? {
            return Err(IndexError);
          }
          rec := rec["move_in" := JStr(CollapseSpaces(doc.availableOn.value))];
          if doc.priceTexts == [] {
            return Err(IndexError);
          }
          var amount := FindDollarAmount(doc.priceTexts[0]);
          rec := rec["price" := JStr(amount)];
          if |doc.crumbs| < 2 {
            return Err(IndexError);
          }
          var hood := Strip(doc.crumbs[|doc.crumbs| - 2]);
          rec := rec["neighborhood" := JStr(hood)];
          DetailsFields(doc, ll.value, amount, hood);
          ghost var base: Record := if cached then old(disk.files)[AptsFile][name] else map[];
          OverlayFields(base, ll.value.0, ll.value.1, CollapseSpaces(doc.availableOn.value), amount, hood);
          WriteToCache(map[name := rec], AptsFile);
        }
        aptInfo := map[name := rec];
      } else if !debug {
        var rec := LoadFromCache(AptsFile);
        aptInfo := map[name := rec];
      }
      r := Ok(aptInfo);
    }
  }
}
