# Cache-backed listing enrichment, modelled in Dafny

This project models the apartment-hunting scraper's core: it finds rental
listings, resolves each listing's details and enriches the listing with
commute times and nearby grocery stores. Two JSON files on disk act as a
cache keyed by listing name. The modelled parts are:

- **The search-results scraper** (`StreetEasy.SearchScraper`). It builds the
  search URL and crawls every result page. It parses each listing card's
  label (`street # unit`) into a catalogue entry, with later cards replacing
  earlier ones of the same label. It stores the catalogue as one whole-file
  write. A cache hit, `force_refresh` and `debug` decide which of these
  happen.
- **The single-listing scraper** (`StreetEasy.ListingScraper`). It resolves
  five fields from the listing page:
  - latitude and longitude from the `;`-separated `geo.position`;
  - the whitespace-normalised move-in date;
  - the first `$` word of the price block;
  - the stripped second-to-last breadcrumb.

  It lays these fields over the cached record and stores them with a
  per-name write that keeps every other listing's entry.
- **The maps lookup** (`Maps.MapsLookup`). It builds the place-search and
  directions parameter lists and parses duration texts such as
  `"1 hour 5 mins"`. It computes the four-mode commute table, with the
  transit vehicle type. It gathers the grocery-store candidates for each
  store name: all of them, or none when a search is not answered "OK".
  Both results go through the same per-name write, which needs the listing
  to be in the cache file already.

Supporting modules:

- `Store`: the file system as `map<path, map<name, Record>>`, with the
  `Disk` class and the per-name merge `PutEntry`.
- `Web`: requests as URL plus ordered parameters, and the parts of a page
  the HTML selectors find. Its `Network` class logs every request, and the
  environment supplies the responses.
- `Values`: JSON values, the Python exceptions a lookup can raise, and
  Python's `[]`, `.get`, `for` and `str` on them.
- `Text`: Python's `split()`, `split(c)`, `join`, `strip`, `str(int)` and
  `int(str)`.
- `Wrappers`: `Option` and `Result`.

Each Python exception that the modelled code raises becomes an `Err` value.
The few failures the model leaves out or turns into preconditions are listed
under "## Left out". Each source loop is a method with a `while` loop, proved
equal to a fold function over a prefix of its input. The exception is the
price loop, which stops at the first `$` word: its invariant is stated over
the suffix it has not scanned yet. Lemmas then state what each fold means.

A loop that returns at its first error or rejected answer logs exactly the
requests it sent up to that point. `Steps.Reached` counts the steps that
ran, and the `...Stop` lemmas say that the loop stops just after the
first step that fails.

The Python default arguments are Dafny default parameter values. The file
system and the network come first, as the environment.

Quirks of the code that the model keeps:

- A label without exactly one `#` fails with `ValueError`. On the first
  page, an empty street part fails with `IndexError`.
- The commute loop sends its directions request even in debug mode. Only
  the reading of the answer is skipped.
- The commute and store short-circuits compare the cached value with `[]`,
  so an empty table `{}` counts as cached.
- An empty store list is stored as `[]`, which the store short-circuit does
  not take as cached, so it is searched again on every call.
- The transit vehicle type is read from the second step of the leg, not
  from the step that has transit details.
- A debug cache hit loads nothing, so the record stays as the constructor
  set it.
- The writes in the maps lookup fail with `AssertionError` when the listing
  is not in the cache file yet. The table has already been set in memory
  by then.

## Model

| member | source | states |
|---|---|---|
| StreetEasy.SearchScraper.constructor | streeteasy.py:13-22 | the fields are set, the defaults are a rent cap of 4950, laundry, doorman and elevator, two bedrooms, "downtown" and both flags off, the catalogue is empty and the request URL is the search URL of the arguments |
| StreetEasy.SearchScraper.GenReqUrl | streeteasy.py:28-34 | returns the search URL of the scraper's bedroom count, neighbourhood, rent cap and amenities |
| StreetEasy.DefaultSearchUrl | test.py:8 | with the default arguments the search URL is exactly the URL the test script asserts |
| StreetEasy.TestScraper | test.py:18 | the test script's debug scraper, built from the defaults and then running `get_apts` as its constructor does, holds the expected URL and ends with an empty catalogue and the result `{}`, whether or not the cache file exists |
| StreetEasy.SearchUrlAmenities | streeteasy.py:33 | the URL ends with the comma-joined amenities, and splitting that tail on `,` gives the amenity list back |
| StreetEasy.SearchScraper.ExistsInCache | streeteasy.py:36-37 | true exactly when the file exists |
| StreetEasy.SearchScraper.LoadFromCache | streeteasy.py:39-42 | returns the whole content of an existing file |
| StreetEasy.SearchScraper.WriteToCache | streeteasy.py:44-46 | the file is replaced by the data and no other file changes |
| StreetEasy.ParseLabelMeaning | streeteasy.py:57-59 | a label parses exactly when it has one `#` (and on page 1 does not start with it); the parts hold no `#` and rebuild the label, with one trailing space removed on page 1 only |
| StreetEasy.AddCardsStep | streeteasy.py:57-60 | when the cards add up without error, so do all but the last, the last label parses, and its entry is written over the catalogue of the others |
| StreetEasy.AddCardsSnoc | streeteasy.py:56-60 | one more card: an earlier error stays, a label that does not parse fails with its own error, and otherwise the card's entry replaces any earlier one of that label |
| StreetEasy.AddCardsStopAt | streeteasy.py:57-59 | once the cards up to `j` fail, the later cards change nothing: the loop's result is that failure |
| StreetEasy.AddCardsFailsAt | streeteasy.py:57-59 | when every earlier card parsed and card `j`'s label does not, the card loop fails with card `j`'s own parse error |
| StreetEasy.AddListings | streeteasy.py:56-60 | the card loop adds the page's cards one after the other, in page order |
| StreetEasy.AddCardsAppend | streeteasy.py:56-69 | adding two runs of cards is adding the first run, then the second |
| StreetEasy.AddCardsParsed | streeteasy.py:57 | when the catalogue is built without error, every card's label parsed |
| StreetEasy.AddCardsKeys | streeteasy.py:60 | the catalogue's keys are the earlier keys plus every card's label, and keys no card carries keep their entries |
| StreetEasy.AddCardsLastWins | streeteasy.py:69 | each label maps to the entry (url, full label, street, unit) of the last card that carries it |
| StreetEasy.LaterRequestsPages | streeteasy.py:62-64 | the later requests are for pages 2, 3, ... in order, one per pagination item after the first |
| StreetEasy.CrawlFoldCards | streeteasy.py:61-69 | folding the later pages one by one over the first page's catalogue is adding all cards of all pages in page order |
| StreetEasy.CrawlFoldErr | streeteasy.py:68 | a page whose label fails to parse ends the crawl with that error |
| StreetEasy.PagesParseSticky | streeteasy.py:61-69 | once a later page fails to parse, every longer crawl fails too, so the page loop never continues past an error |
| StreetEasy.CrawlLogComplete | streeteasy.py:52-69 | a crawl that builds its catalogue sent every page request: the first page, then one per later page in order |
| StreetEasy.CrawlLogStop | streeteasy.py:61-69 | when a later page is the first whose cards do not parse, the crawl sent the first page and the later pages up to that one, and no more |
| StreetEasy.SearchScraper.FetchPage | streeteasy.py:64-69 | one request for page i+1 is sent, and its cards are added to the catalogue |
| StreetEasy.SearchScraper.FetchLaterPages | streeteasy.py:61-69 | the page loop yields the page-by-page fold and sends the requests for pages 2, 3, ... up to and including the first page that fails, and no more |
| StreetEasy.SearchScraper.Crawl | streeteasy.py:52-69 | the crawl yields the catalogue of all result pages; it sends the first page, then the later pages up to the first one that fails, and on success exactly the crawl's requests |
| StreetEasy.SearchScraper.GetApts | streeteasy.py:48-81 | a cache hit sends and writes nothing and keeps the catalogue in debug mode, or else loads the file; a debug miss gives `{}` with no I/O; a miss crawls, sending the requests up to the first failing page, then writes the whole catalogue file once; a crawl error changes nothing on disk |
| Store.PutEntry | streeteasy.py:109-117 | when the file exists only the entry `name` is replaced by `data[name]`; otherwise the file becomes `data`; every other file is unchanged |
| Store.PutEntryIsolation | streeteasy.py:114 | writing one listing's entry leaves every other listing's entry as it was, and the written entry reads back |
| Store.PutEntryIdempotent | streeteasy.py:109-117 | repeating the same per-name write changes nothing more |
| StreetEasy.ListingScraper.constructor | streeteasy.py:84-89 | the fields are set, both flags default to off, and the record table is `{name: {}}` |
| StreetEasy.ListingScraper.ExistsInCache | streeteasy.py:96-100 | true exactly when the file exists and has an entry for the listing's name |
| StreetEasy.ListingScraper.LoadFromCache | streeteasy.py:103-107 | returns the listing's entry of the file |
| StreetEasy.ListingScraper.WriteToCache | streeteasy.py:109-117 | the file system becomes the per-name write of the listing's entry |
| StreetEasy.GeoPosition | streeteasy.py:132-135 | the position resolves exactly when the meta content exists and holds a `;`; the latitude is the text before the first `;`, the longitude the text between the first `;` and the next one (or the end) without its first character; neither half holds a `;` |
| StreetEasy.GeoPositionExamples | streeteasy.py:133-135 | `a;bc;d` gives `(a, c)` and `a;` gives `(a, "")` |
| StreetEasy.GeoPositionOf | streeteasy.py:133-135 | `lat;` + one separator + `lon` reads back as `(lat, lon)`: the longitude loses its first character |
| StreetEasy.DollarAmountFirst | streeteasy.py:144-148 | the amount is `""` exactly when no word starts with `$`, and otherwise the earliest word that does |
| StreetEasy.FindDollarAmount | streeteasy.py:143-149 | the price loop returns the first `$` word of the split price text |
| StreetEasy.Details | streeteasy.py:131-153 | the page resolves exactly when the geo position, the "Available on" text, a price block and two breadcrumbs are all there; the record then has exactly the five string fields |
| StreetEasy.DetailsFields | streeteasy.py:131-153 | a page whose every step succeeds resolves to the record of the position halves, the collapsed move-in date, the price and the stripped breadcrumb |
| StreetEasy.DetailsAtFields | streeteasy.py:138-153 | once the position is read, a page with the move-in text, a price block and two breadcrumbs yields the five-field record of the collapsed date, the dollar amount and the stripped breadcrumb |
| StreetEasy.DetailsPosition | streeteasy.py:132-135 | `lat` and `lon` are the two halves of the geo position |
| StreetEasy.DetailsMoveIn | streeteasy.py:140 | the move-in date is single-spaced and has the same words as the page text |
| StreetEasy.DetailsPrice | streeteasy.py:143-149 | the price is `""` exactly when no word of the first price block starts with `$`, and otherwise its first such word |
| StreetEasy.DetailsPriceIs | streeteasy.py:143-149 | the resolved price is the dollar amount of the first price block's words |
| StreetEasy.DetailsNeighborhood | streeteasy.py:152-153 | the neighbourhood is the stripped second-to-last breadcrumb, with no whitespace at either end |
| StreetEasy.DetailsOverlay | streeteasy.py:123-153 | laying the fields over the cached record keeps every other field (url, stores, commute, ...) and sets exactly the five |
| StreetEasy.OverlayFields | streeteasy.py:134-153 | setting the five fields one by one is laying the five-field record over the base |
| StreetEasy.ListingScraper.LoadApt | streeteasy.py:120-165 | a hit without refresh sends and writes nothing, and loads the entry unless in debug mode; otherwise debug mode keeps the base record with no I/O; a non-debug miss sends one request, and on success lays the fields over the cached entry (or `{}`) and does the per-name write; an error changes nothing |
| Text.CollapseSpacesMeaning | streeteasy.py:140 | the collapsed text is single-spaced and keeps exactly the words of the original |
| Text.Split | streeteasy.py:140 | `split()` yields whitespace-free, non-empty words |
| Text.SplitOn | streeteasy.py:57 | `split(c)` has at least one piece, no piece holds `c`, and joining the pieces with `c` gives the text back |
| Text.Strip | streeteasy.py:153 | `strip()` neither starts nor ends with whitespace and is no longer than the text |
| Text.SplitJoinSpaces | streeteasy.py:140 | splitting words joined by single spaces gives the words back |
| Text.StripMeaning | streeteasy.py:153 | `strip()` leaves a piece of the text that only whitespace surrounds |
| Text.SplitOnCount | streeteasy.py:57 | `split(c)` has one piece more than the text has occurrences of `c` |
| Text.SplitOnJoin | streeteasy.py:57 | splitting on `c` undoes joining with `c` when no piece contains `c` |
| Text.SplitOnFirst | streeteasy.py:133 | the first piece of `split(c)` is everything before the first `c` |
| Text.SplitOnSecond | streeteasy.py:133-135 | when `c` occurs there is a second piece, and it is what lies between the first `c` and the next one or the end |
| Text.ParseIntToString | maps.py:87 | `int` reads back what `str` writes for every integer |
| Text.IntToStringIsToken | maps.py:84-87 | `str` of an integer is one word, so a duration text keeps its numbers as words |
| Values.Field | maps.py:84 | `j[key]` succeeds exactly on a dictionary holding the key, a missing key raising `KeyError` |
| Values.Index | maps.py:84 | `j[i]` on a list yields the item, counting from the end for a negative index, and `IndexError` out of range |
| Values.GetOr | maps.py:94 | `.get(key, default)` succeeds exactly on a dictionary and gives the value or the default |
| Values.Elements | maps.py:93 | a `for` loop visits a list's items; an empty string or dictionary gives none; the rest fails |
| Values.PyStr | maps.py:25 | `str` of a string is the string itself; strings, integers, booleans and None have a text form |
| Values.FalsyValues | maps.py:94 | a value is falsy exactly when it is None, `False`, zero, `""`, `[]` or `{}` |
| Maps.FindRequestParams | maps.py:17-21 | the place search has the five parameters in order, key last: the circle bias of radius and position, the fixed input type and fields, the query and the key |
| Maps.FindRequestExample | test.py:30-31 | the test script's search biases to `circle:2000@40.72797292,-73.98678763` and searches "Whole Foods" |
| Maps.CommuteRequestParams | maps.py:23-32 | the directions query goes from `lat,lon` to the work place with the key and mode, and departs at 1632314754 exactly for transit, else at 1663245954 |
| Maps.IntOf | maps.py:87 | `int(t)` succeeds exactly on a signed run of digits, and otherwise raises `ValueError` |
| Maps.DurationWords | maps.py:84 | reading a duration text is reading its words |
| Maps.ParseHoursMinutes | maps.py:84-90 | `<h> hour(s) <m> min(s)` reads back as 60*h+m minutes |
| Maps.ParseMinutes | maps.py:86-87 | `<m> min(s)` reads back as m minutes |
| Maps.ParseHours | maps.py:88-89 | `<h> hour(s)` reads back as 60*h minutes |
| Maps.ParseNoMarker | maps.py:85-90 | a text with neither marker counts 0 minutes |
| Maps.ParseDurationExample1 | maps.py:84-90 | "1 hour 5 mins" is 65 minutes |
| Maps.ParseDurationExample2 | maps.py:84-90 | "45 mins" is 45 minutes |
| Maps.ParseDurationExample3 | maps.py:84-90 | "2 hours" is 120 minutes |
| Maps.DurationText | maps.py:84 | the duration text is read exactly when `duration.text` is a string, and it is that string |
| Maps.StepsTypeMeaning | maps.py:93-95 | the step loop succeeds when every step is a dictionary and, if some step is a transit step, the vehicle type of step 1 can be read; it finds a type exactly when some step is a transit step, and the type is step 1's |
| Maps.StepsTypeErr | maps.py:93-95 | an error at one step is the result of the whole step loop |
| Maps.ScanSteps | maps.py:93-95 | the step loop as written computes the step fold |
| Maps.ParseCommuteMeaning | maps.py:83-95 | a mode's entry holds the parsed minutes of the first leg, and a `type` only for transit, then step 1's vehicle type |
| Maps.ReadCommute | maps.py:83-95 | reading one answer as the source does gives the mode's entry |
| Maps.CommuteRequestsModes | maps.py:79-80 | one directions query per mode, in the order driving, walking, bicycling, transit |
| Maps.CommuteFoldShape | maps.py:78-98 | outside debug mode the table's keys are exactly the modes queried, each with an integer duration and only transit with a type; in debug mode the table is `{}` |
| Maps.CommuteFoldAt | maps.py:78-95 | outside debug mode the table holds every mode queried, and its entry for a mode is that mode's answer read as a commute entry (minutes, and for transit the vehicle type of step 1 when a step has transit details) |
| Maps.CommuteFoldErr | maps.py:83-95 | an error for one mode is the result of the whole loop |
| Maps.ModesAnsweredSticky | maps.py:79-97 | once one mode fails, the loop over more modes fails too |
| Maps.CommuteLogComplete | maps.py:79-97 | a mode loop without error sent the four directions queries |
| Maps.CommuteLogStop | maps.py:79-95 | when mode i+1 is the first whose answer fails, the loop sent the first i+1 queries and no more |
| Maps.MapsLookup.constructor | maps.py:35-48 | a missing key turns debug on with an empty key; without a scraper (the default) the listing's cached entry is loaded, otherwise the scraper's table is taken; debug defaults to off |
| Maps.MapsLookup.ExistsInCache | maps.py:50-54 | true exactly when the file exists and has the listing's entry |
| Maps.MapsLookup.LoadFromCache | maps.py:56-60 | returns the listing's entry of the file |
| Maps.MapsLookup.WriteToCache | maps.py:62-70 | the file system becomes the per-name write of the listing's entry |
| Maps.MapsLookup.QueryMode | maps.py:80-95 | one directions query for the mode is sent, and the table is extended by that mode's entry (or, in debug mode, left as it is) |
| Maps.MapsLookup.QueryModes | maps.py:79-97 | the mode loop computes the commute fold over all four modes; it sends the queries up to and including the first mode that fails, and on success exactly the four queries in order |
| Maps.MapsLookup.GetCommuteTimes | maps.py:72-104 | missing listing or position fields raise `KeyError` and change nothing; a cached table (not `[]`, no force, which defaults to off) is returned with no query and no write; otherwise the queries up to the first failing mode are sent, and on success the table is set in memory and, outside debug mode, written per name, or `AssertionError` without a write when the listing is not cached |
| Maps.MapsLookup.CommuteTwice | maps.py:72-76 | a second request for the commute table, after a first that gave a table, returns that same table and sends and writes nothing |
| Maps.FindCoordinates | maps.py:114 | the position is at hand exactly when `lat` and `lon` are strings in the record |
| Maps.StoreEntry | maps.py:125-127 | an entry succeeds exactly when the candidate's position and name are there and the distance succeeds; it is `{name, distance, candidate}` with the candidate's own name, the distance from the listing to the candidate's `geometry.location`, and the raw candidate |
| Maps.EntriesPointwise | maps.py:124-128 | the candidates' entries succeed exactly when each does, and then entry i belongs to candidate i, in response order |
| Maps.EntriesErr | maps.py:124-128 | an error for one candidate is the result of the whole candidate loop |
| Maps.MapsLookup.CollectEntries | maps.py:124-128 | the candidate loop yields the entries of the candidates in order |
| Maps.MapsLookup.SearchOne | maps.py:114-128 | one place search is sent for the store name; the answer is rejected unless its status is "OK", else its candidates' entries |
| Maps.MapsLookup.SearchStores | maps.py:112-130 | the store loop computes the store fold; it sends nothing in debug mode, and otherwise one search per store name in order, up to and including the first name whose search is rejected or fails |
| Maps.MapsLookup.SearchStep | maps.py:113-128 | one store name: the loop result is the fold over one name more, and the one search for that name is sent unless in debug mode or without a position |
| Maps.MapsLookup.GatherStores | maps.py:112-128 | the loop runs until the first rejection or error, holding the fold over the names so far and their searches |
| Maps.StoreFoldRejectedSticky | maps.py:119-123 | once a search is rejected, the loop's result is rejected |
| Maps.StoreFoldErrSticky | maps.py:113-128 | an error for one store name is the result of the whole loop |
| Maps.StoreFoldAllOrNothing | maps.py:119-123 | a status other than "OK" for any store name rejects the whole search, whatever was gathered before |
| Maps.StoreFoldPrefix | maps.py:112-128 | the entries gathered for the first k store names come first, in order, among all the entries gathered |
| Maps.StoreFoldStep | maps.py:113-128 | one more name: an error or a missing position ends the loop with that error, debug mode adds nothing, a rejected search rejects the loop, and otherwise the name's entries are appended |
| Maps.StoresGatheredSticky | maps.py:113-128 | once the loop is rejected or fails, the loop over more names is too |
| Maps.SearchLogMeaning | maps.py:113-118 | the searches for the first k names are one per name, in order, outside debug mode when a position is at hand, and none otherwise |
| Maps.StoreLogComplete | maps.py:112-130 | a loop that gathers every name's entries had a position whenever it had names, and sent the searches of all the names |
| Maps.StoreLogStop | maps.py:117-118 | when the search for name i+1 is the first that is rejected or fails, the loop's result is that of the first i+1 names and it sent only their searches: it returns at once |
| Maps.StoreLoopExit | maps.py:112-130 | wherever the loop stops, its result is the result over all names and its searches are those of the names it reached |
| Maps.StoreFoldDebug | test.py:41 | in debug mode the store loop gathers nothing when a position is at hand or there is no name, and otherwise fails on the missing position |
| Maps.CachedQuirk | maps.py:74 | the short-circuit tests for `[]` only: an empty table `{}` counts as cached, `[]` does not, and a forced refresh never hits the cache |
| Maps.MapsLookup.FindGroceryStores | maps.py:107-138 | a missing listing raises `KeyError`; a cached list (not `[]`, no force) returns the whole table with no I/O; a rejected search returns None at once, after sending only the searches up to and including the rejected one, with nothing set or written; otherwise the flat list is set in memory and, outside debug mode, written per name, or `AssertionError` without a write when the listing is not cached; the store names default to "Whole Foods" and "Trader Joe's" |
| Maps.StoreFoldNoCandidates | maps.py:112-128 | when every search is answered "OK" without candidates, the store loop gathers the empty list |
| Maps.MapsLookup.EmptyStoresSearch | maps.py:107-132 | with both default store names answered "OK" and no candidates, one call sends both searches and sets `stores` to `[]` |
| Maps.MapsLookup.StoresTwiceEmpty | maps.py:108-132 | the store lookup is not idempotent: after a first call that stored `[]`, a second call sends both searches again |
| Web.Network.Fetch | streeteasy.py:53 | a page request is logged and answered with the environment's page |
| Web.Network.Query | maps.py:80 | an API request is logged and answered with the environment's JSON |
| Store.Disk.IsFile | streeteasy.py:37 | true exactly when the path exists |
| Store.Disk.Load | streeteasy.py:40-42 | `json.load` returns the whole content of an existing file |
| Store.Disk.Dump | streeteasy.py:45-46 | the file at the path becomes the data; no other file changes |

## Left out

- `urllib.parse.urlencode`: requests are modelled as ordered parameter lists, not percent-encoded strings. The encoded URL of the test script (test.py:31) is therefore checked only through its parameters.
- `geopy.distance` and `round(..., 3)` are floating point. They are the `distance` parameter of the store search, which also stands for the `float` conversions of the listing position.
- BeautifulSoup and the HTML selectors: the label texts, links, pagination count, `geo.position` content, "Available on" text, price texts and breadcrumbs are inputs (`Web.Html`). A missing `href` and the `.next.next.next` walk are not modelled.
- HTTP, file I/O, `print` logging, `HEADERS` and the JSON encoding options are not modelled. Requests are logged and their answers come from the environment.
- `decouple.config` is the `mapsKey` option of the lookup's constructor, `None` when the key is missing.
- apt_collector.py is not part of this model.
- The Python constructors call `get_apts` and `load_apt` themselves. In the model the caller makes that call after the constructor.
- The lookup takes the scraper's table as a value, so the aliasing of `scraper.apt_info` is not modelled. Dictionary key order is not modelled either.
- Values.PyStr: `str` of a list, dictionary or float is not modelled, and the commute and store searches fail with `TypeError` on such a position. The store search also needs `lat` and `lon` to be strings, as the source's `+` does.
- Text.ParseInt: Python's `int` also accepts underscores between digits and non-ASCII digits; the model accepts only a sign and ASCII digits.
- Values.Elements: a loop over a non-empty string or dictionary is modelled as failing on its first element. Such a loop yields strings, and every modelled loop body fails at once on a string.
- StreetEasy.DefaultSearchUrl: states the expected URL as three literal pieces joined, rather than as one literal.
- The `assert` inside each `load_from_cache` (streeteasy.py:40,104; maps.py:57) is a precondition of the model's `LoadFromCache` methods. The lookup's constructor therefore requires the listing to be cached when no scraper is given, where the source fails with `AssertionError` (maps.py:46).
- The `data[self.name]` lookup inside `write_to_cache` (streeteasy.py:114, maps.py:67) is a precondition of the model's per-name `WriteToCache` methods: every caller writes a table that holds the name, so the source's `KeyError` there never arises.
- A `geo.position` tag without a `content` attribute raises `KeyError` in the source (streeteasy.py:132). The model has only a present or a missing tag, and a missing tag gives `TypeError`.
- A response body that is not JSON makes `r.json()` raise in the source. The environment of the model always answers with a JSON value.
- Maps.StoreEntry: when a candidate lacks its name and the distance also fails, the model reports the distance error where the source reports the `KeyError` for the name.
