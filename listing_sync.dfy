/** The sync helpers of `backend/app/util/cron.py`: fetching the season's listing
    feed with a fallback over three years, assigning company logos with at most one
    scrape per new company, and replacing the stored listings with a fresh batch.
    HTTP responses and the logo scraper are oracles passed in as functions; the two
    database tables are the fields of a `Store`. */
module ListingSync {
  import opened Wrappers
  import opened Text
  import opened Values
  import opened JobClassifier

  // ------------------------------------------------------------ get_listings

  /** What `r.json()` makes of an OK response: a JSON list of listing records, or
      text that is not JSON at all. */
  datatype Body = Records(records: seq<map<string, Value>>) | Malformed

  /** The GitHub contents API's answer for one season year. */
  datatype Response = NotOk | OkResponse(body: Body)

  /** `range(start, stop, -1)` */
  function Countdown(start: int, stop: int): (r: seq<int>)
    ensures |r| == if start <= stop then 0 else start - stop
    ensures forall k :: 0 <= k < |r| ==> r[k] == start - k
    decreases start - stop
  {
    if start <= stop then [] else [start] + Countdown(start - 1, stop)
  }

  /** The season years `get_listings` tries, in the order it tries them. */
  function ProbeYears(currentYear: int): seq<int> {
    Countdown(currentYear + 1, currentYear - 2)
  }

  /** The newest season first: next year, this year, last year. */
  lemma ProbeYearsNewestFirst(currentYear: int)
    ensures ProbeYears(currentYear) == [currentYear + 1, currentYear, currentYear - 1]
  {
  }

  /** A list comprehension `[parse(x) for x in xs]` whose element computation may
      raise: the first element that fails raises, otherwise every element is mapped
      in order. */
  function MapAll<X, Y>(xs: seq<X>, parse: X -> Outcome<Y>): Outcome<seq<Y>> {
    if xs == [] then Ok([])
    else
      match MapAll(xs[..|xs| - 1], parse)
      case Err(e) => Err(e)
      case Ok(done) =>
        match parse(xs[|xs| - 1])
        case Err(e) => Err(e)
        case Ok(y) => Ok(done + [y])
  }

  /** Once a prefix has failed, the whole comprehension fails the same way. */
  lemma {:induction false} MapAllFailureSticks<X, Y>(xs: seq<X>, parse: X -> Outcome<Y>, k: nat)
    requires k <= |xs| && MapAll(xs[..k], parse).Err?
    ensures MapAll(xs, parse) == MapAll(xs[..k], parse)
    decreases |xs| - k
  {
    if k < |xs| {
      assert xs[..|xs| - 1][..k] == xs[..k];
      MapAllFailureSticks(xs[..|xs| - 1], parse, k);
    } else {
      assert xs[..k] == xs;
    }
  }

  /** The comprehension succeeds exactly when every element parses, and then yields
      each element's result at its own position. */
  lemma {:induction false} MapAllSucceeds<X, Y>(xs: seq<X>, parse: X -> Outcome<Y>)
    ensures MapAll(xs, parse).Ok? <==> forall i :: 0 <= i < |xs| ==> parse(xs[i]).Ok?
    ensures MapAll(xs, parse).Ok? ==>
      |MapAll(xs, parse).value| == |xs|
      && forall i :: 0 <= i < |xs| ==> MapAll(xs, parse).value[i] == parse(xs[i]).value
  {
    if xs != [] {
      var front := xs[..|xs| - 1];
      MapAllSucceeds(front, parse);
      assert forall i :: 0 <= i < |front| ==> front[i] == xs[i];
    }
  }

  /** When the comprehension fails, it raises the exception of the first element
      that does not parse. */
  lemma {:induction false} MapAllFailsAtFirstBad<X, Y>(xs: seq<X>, parse: X -> Outcome<Y>)
    requires MapAll(xs, parse).Err?
    ensures exists i :: (0 <= i < |xs| && parse(xs[i]) == Err(MapAll(xs, parse).error)
      && forall j :: 0 <= j < i ==> parse(xs[j]).Ok?)
  {
    var front := xs[..|xs| - 1];
    assert forall i :: 0 <= i < |front| ==> front[i] == xs[i];
    if MapAll(front, parse).Err? {
      MapAllFailsAtFirstBad(front, parse);
      var i :| 0 <= i < |front| && parse(front[i]) == Err(MapAll(front, parse).error)
        && forall j :: 0 <= j < i ==> parse(front[j]).Ok?;
      assert parse(xs[i]) == Err(MapAll(xs, parse).error);
    } else {
      MapAllSucceeds(front, parse);
      assert parse(xs[|xs| - 1]) == Err(MapAll(xs, parse).error);
    }
  }

  /** `[Listing.from_json(listing) for listing in raw_listings]` */
  function ParseAll(records: seq<map<string, Value>>): Outcome<seq<CronListing>> {
    MapAll(records, ParseListing)
  }

  /** What one OK response yields: its parsed listings, or the decoding error. */
  function ParseBody(body: Body): Outcome<seq<CronListing>> {
    match body
    case Malformed => Err(DecodeError)
    case Records(records) => ParseAll(records)
  }

  /** One step of the comprehension: the next element's result is appended. */
  lemma MapAllStep<X, Y>(xs: seq<X>, parse: X -> Outcome<Y>, i: nat, done: seq<Y>)
    requires i < |xs| && MapAll(xs[..i], parse) == Ok(done)
    ensures MapAll(xs[..i + 1], parse) == match parse(xs[i]) case Err(e) => Err(e) case Ok(y) => Ok(done + [y])
  {
    assert xs[..i + 1][..i] == xs[..i];
    assert xs[..i + 1][i] == xs[i];
  }

  /** `Listing.from_json(record)` on a fresh dictionary holding the record. */
  method ParseRecord(record: map<string, Value>) returns (r: Outcome<CronListing>)
    ensures r == ParseListing(record)
  {
    var raw := new PyDict(record);
    r := FromJson(raw);
  }

  /** Parses the records of one response, one fresh dictionary per record. */
  method ParseRecords(records: seq<map<string, Value>>) returns (r: Outcome<seq<CronListing>>)
    ensures r == ParseAll(records)
  {
    var done: seq<CronListing> := [];
    var i := 0;
    while i < |records|
      invariant 0 <= i <= |records|
      invariant MapAll(records[..i], ParseListing) == Ok(done)
    {
      var x := ParseRecord(records[i]);
      MapAllStep(records, ParseListing, i, done);
      if x.Err? {
        MapAllFailureSticks(records, ParseListing, i + 1);
        return Err(x.error);
      }
      done := done + [x.value];
      i := i + 1;
    }
    assert records[..i] == records;
    r := Ok(done);
  }

  /** The loop of `get_listings`: requests the season years newest first and stops
      at the first OK response. `probed` lists the years requested, in order: a
      prefix of `ProbeYears(currentYear)` (see `ProbeYearsNewestFirst`). */
  method ProbeFeed(currentYear: int, feed: int -> Response) returns (found: Option<Body>, probed: seq<int>)
    ensures 0 < |probed| <= 3 && probed == [currentYear + 1, currentYear, currentYear - 1][..|probed|]
    ensures forall i :: 0 <= i < |probed| - 1 ==> feed(probed[i]).NotOk?
    ensures feed(probed[|probed| - 1]).OkResponse? ==> found == Some(feed(probed[|probed| - 1]).body)
    ensures feed(probed[|probed| - 1]).NotOk? ==> probed == [currentYear + 1, currentYear, currentYear - 1] && found == None
  {
    probed := [];
    var year := currentYear + 1;
    while year > currentYear - 2
      invariant currentYear - 2 <= year <= currentYear + 1
      invariant probed == [currentYear + 1, currentYear, currentYear - 1][..currentYear + 1 - year]
      invariant forall i :: 0 <= i < |probed| ==> feed(probed[i]).NotOk?
    {
      probed := probed + [year];
      var response := feed(year);
      if response.OkResponse? {
        return Some(response.body), probed;
      }
      year := year - 1;
    }
    found := None;
  }

  /** `r.json()` followed by the comprehension over the decoded records. */
  method ParseResponse(body: Body) returns (r: Outcome<seq<CronListing>>)
    ensures r == ParseBody(body)
  {
    match body {
      case Malformed => r := Err(DecodeError);
      case Records(records) => r := ParseRecords(records);
    }
  }

  /** `get_listings()`: `feed(year)` is the GitHub API's answer for the season `year`.
      The first OK answer is parsed and no later year is requested; when all three
      fail, the function's final `assert` fails. */
  method GetListings(currentYear: int, feed: int -> Response) returns (r: Outcome<seq<CronListing>>, probed: seq<int>)
    ensures 0 < |probed| <= 3 && probed == [currentYear + 1, currentYear, currentYear - 1][..|probed|]
    ensures forall i :: 0 <= i < |probed| - 1 ==> feed(probed[i]).NotOk?
    ensures feed(probed[|probed| - 1]).OkResponse? ==> r == ParseBody(feed(probed[|probed| - 1]).body)
    ensures feed(probed[|probed| - 1]).NotOk? ==>
      probed == [currentYear + 1, currentYear, currentYear - 1] && r == Err(AssertionError("No listings found"))
  {
    var found;
    found, probed := ProbeFeed(currentYear, feed);
    if found.Some? {
      r := ParseResponse(found.value);
    } else {
      r := Err(AssertionError("No listings found"));
    }
  }

  // ------------------------------------------------------------ scrape_company_logo

  /** Only company pages on Simplify are scraped. */
  const SimplifyCompanyPrefix := "https://simplify.jobs/c/"

  /** `scrape_company_logo(listing)`: `findLogo(url, alt)` stands for fetching the
      page at `url` and taking the `src` of its first image whose `alt` is `alt`. */
  function ScrapeCompanyLogo(l: CronListing, findLogo: (string, string) -> Option<string>): (r: Option<string>)
    ensures !StartsWith(l.companyUrl, SimplifyCompanyPrefix) ==> r == None
    ensures StartsWith(l.companyUrl, SimplifyCompanyPrefix) ==> r == findLogo(l.companyUrl, l.companyName)
  {
    if !StartsWith(l.companyUrl, SimplifyCompanyPrefix) then None
    else findLogo(l.companyUrl, l.companyName)
  }

  /** Off Simplify no page is fetched: the scraper's answer cannot matter. */
  lemma NoFetchOffSimplify(l: CronListing, f: (string, string) -> Option<string>, g: (string, string) -> Option<string>)
    requires !StartsWith(l.companyUrl, SimplifyCompanyPrefix)
    ensures ScrapeCompanyLogo(l, f) == ScrapeCompanyLogo(l, g) == None
  {
  }

  // ------------------------------------------------------------ the store

  /** A row of the `logos` table: `company_name` and `url`, either possibly NULL. */
  datatype LogoRow = LogoRow(companyName: Option<string>, url: Option<string>)

  /** The (name, logo) pairs `assign_logos` hands to `executemany`. */
  datatype NewLogo = NewLogo(companyName: string, logoUrl: Option<string>)

  /** `INSERT ... ON CONFLICT (company_name) DO NOTHING` for each pair in turn. */
  function InsertIfAbsent(rows: seq<LogoRow>, pairs: seq<NewLogo>): seq<LogoRow>
    decreases |pairs|
  {
    if pairs == [] then rows
    else
      var rows' := InsertIfAbsent(rows, pairs[..|pairs| - 1]);
      var p := pairs[|pairs| - 1];
      if exists i :: 0 <= i < |rows'| && rows'[i].companyName == Some(p.companyName) then rows'
      else rows' + [LogoRow(Some(p.companyName), p.logoUrl)]
  }

  predicate HasName(rows: seq<LogoRow>, name: string) {
    exists i :: 0 <= i < |rows| && rows[i].companyName == Some(name)
  }

  /** Inserting keeps every existing row in place, and afterwards each inserted name
      has a row; a pair is added with its own logo when its name was new. */
  lemma {:induction false} InsertIfAbsentKeepsAndCovers(rows: seq<LogoRow>, pairs: seq<NewLogo>)
    ensures rows <= InsertIfAbsent(rows, pairs)
    ensures forall p :: 0 <= p < |pairs| ==> HasName(InsertIfAbsent(rows, pairs), pairs[p].companyName)
    ensures forall i :: |rows| <= i < |InsertIfAbsent(rows, pairs)| ==>
      exists p :: 0 <= p < |pairs| && InsertIfAbsent(rows, pairs)[i] == LogoRow(Some(pairs[p].companyName), pairs[p].logoUrl)
  {
    if pairs != [] {
      var front := pairs[..|pairs| - 1];
      InsertIfAbsentKeepsAndCovers(rows, front);
      var rows' := InsertIfAbsent(rows, front);
      var out := InsertIfAbsent(rows, pairs);
      assert rows' <= out;
      forall p | 0 <= p < |pairs|
        ensures HasName(out, pairs[p].companyName)
      {
        if p < |front| {
          assert front[p] == pairs[p];
          var i :| 0 <= i < |rows'| && rows'[i].companyName == Some(front[p].companyName);
          assert out[i] == rows'[i];
        } else if !HasName(rows', pairs[p].companyName) {
          assert out[|rows'|].companyName == Some(pairs[p].companyName);
        } else {
          var i :| 0 <= i < |rows'| && rows'[i].companyName == Some(pairs[p].companyName);
          assert out[i] == rows'[i];
        }
      }
      forall i | |rows| <= i < |out|
        ensures exists p :: 0 <= p < |pairs| && out[i] == LogoRow(Some(pairs[p].companyName), pairs[p].logoUrl)
      {
        if i < |rows'| {
          var p :| 0 <= p < |front| && rows'[i] == LogoRow(Some(front[p].companyName), front[p].logoUrl);
          assert front[p] == pairs[p];
        } else {
          assert out[i] == LogoRow(Some(pairs[|pairs| - 1].companyName), pairs[|pairs| - 1].logoUrl);
        }
      }
    }
  }

  /** The two tables the sync job touches. */
  class Store {
    var logos: seq<LogoRow>
    var listings: seq<CronListing>

    constructor (logos: seq<LogoRow>, listings: seq<CronListing>)
      ensures this.logos == logos && this.listings == listings
    {
      this.logos := logos;
      this.listings := listings;
    }

    /** `cur.executemany("INSERT INTO logos ... ON CONFLICT (company_name) DO NOTHING", pairs)` */
    method InsertLogos(pairs: seq<NewLogo>)
      modifies this
      ensures logos == InsertIfAbsent(old(logos), pairs)
      ensures listings == old(listings)
    {
      var i := 0;
      while i < |pairs|
        invariant 0 <= i <= |pairs|
        invariant logos == InsertIfAbsent(old(logos), pairs[..i])
        invariant listings == old(listings)
      {
        assert pairs[..i + 1][..i] == pairs[..i];
        var p := pairs[i];
        if !(exists j :: 0 <= j < |logos| && logos[j].companyName == Some(p.companyName)) {
          logos := logos + [LogoRow(Some(p.companyName), p.logoUrl)];
        }
        i := i + 1;
      }
      assert pairs[..i] == pairs;
    }

    /** `TRUNCATE TABLE listings;` */
    method TruncateListings()
      modifies this
      ensures listings == [] && logos == old(logos)
    {
      listings := [];
    }

    /** One `INSERT INTO listings ...` with the listing's `model_dump()`. */
    method InsertListing(l: CronListing)
      modifies this
      ensures listings == old(listings) + [l] && logos == old(logos)
    {
      listings := listings + [l];
    }
  }

  // ------------------------------------------------------------ assign_logos

  /** The normalised company key: `name.strip().lower()`. */
  function CompanyKey(name: string): string {
    Lower(Strip(name))
  }

  /** The company key of every listing of the batch, position by position. */
  function CompanyKeys(ls: seq<CronListing>): (keys: seq<string>)
    ensures |keys| == |ls|
  {
    if ls == [] then [] else CompanyKeys(ls[..|ls| - 1]) + [CompanyKey(ls[|ls| - 1].companyName)]
  }

  lemma {:induction false} CompanyKeysAt(ls: seq<CronListing>, i: nat)
    requires i < |ls|
    ensures CompanyKeys(ls)[i] == CompanyKey(ls[i].companyName)
  {
    if i < |ls| - 1 {
      CompanyKeysAt(ls[..|ls| - 1], i);
    }
  }

  /** `{row[0].strip().lower(): row[1] for row in rows if row[0]}`: rows with a NULL
      or empty name are skipped, and a later row wins over an earlier one with the
      same key. */
  function StoredLogos(rows: seq<LogoRow>): (m: map<string, Option<string>>)
    ensures forall k :: k in m <==>
      exists i :: 0 <= i < |rows| && rows[i].companyName.Some? && rows[i].companyName.value != []
        && CompanyKey(rows[i].companyName.value) == k
  {
    if rows == [] then map[]
    else
      var m := StoredLogos(rows[..|rows| - 1]);
      var row := rows[|rows| - 1];
      assert forall i :: 0 <= i < |rows| - 1 ==> rows[..|rows| - 1][i] == rows[i];
      if row.companyName.Some? && row.companyName.value != [] then m[CompanyKey(row.companyName.value) := row.url]
      else m
  }

  /** Position `i` holds a key that is neither known beforehand nor held by an
      earlier position: the listing there is the one that triggers the scrape. */
  predicate FirstNew(known: set<string>, keys: seq<string>, i: int)
    requires 0 <= i < |keys|
  {
    keys[i] !in known && forall j :: 0 <= j < i ==> keys[j] != keys[i]
  }

  lemma FirstNewInPrefix(known: set<string>, keys: seq<string>, n: nat, i: nat)
    requires i < n <= |keys|
    ensures FirstNew(known, keys[..n], i) == FirstNew(known, keys, i)
  {
    assert forall j :: 0 <= j <= i ==> keys[..n][j] == keys[j];
  }

  /** The positions that trigger a scrape, in scan order. */
  function FirstNewPositions(known: set<string>, keys: seq<string>): (r: seq<nat>)
    ensures forall p :: 0 <= p < |r| ==> r[p] < |keys|
  {
    if keys == [] then []
    else
      var front := FirstNewPositions(known, keys[..|keys| - 1]);
      if FirstNew(known, keys, |keys| - 1) then front + [|keys| - 1] else front
  }

  /** Every listed position triggers a scrape, and they are listed in scan order. */
  lemma {:induction false} FirstNewPositionsSound(known: set<string>, keys: seq<string>)
    ensures forall p :: 0 <= p < |FirstNewPositions(known, keys)| ==> FirstNew(known, keys, FirstNewPositions(known, keys)[p])
    ensures forall p, q :: 0 <= p < q < |FirstNewPositions(known, keys)| ==>
      FirstNewPositions(known, keys)[p] < FirstNewPositions(known, keys)[q]
  {
    if keys != [] {
      var front := keys[..|keys| - 1];
      FirstNewPositionsSound(known, front);
      var f := FirstNewPositions(known, front);
      forall p | 0 <= p < |f| ensures FirstNew(known, keys, f[p]) {
        FirstNewInPrefix(known, keys, |keys| - 1, f[p]);
      }
    }
  }

  /** Every position that triggers a scrape is among `FirstNewPositions`. */
  lemma {:induction false} FirstNewPositionsComplete(known: set<string>, keys: seq<string>, i: nat)
    requires i < |keys| && FirstNew(known, keys, i)
    ensures i in FirstNewPositions(known, keys)
  {
    var n := |keys|;
    if i < n - 1 {
      FirstNewInPrefix(known, keys, n - 1, i);
      FirstNewPositionsComplete(known, keys[..n - 1], i);
    }
  }

  /** Every key that was not known beforehand is held by some triggering position. */
  lemma FirstNewPositionsCover(known: set<string>, keys: seq<string>, i: nat)
    requires i < |keys| && keys[i] !in known
    ensures exists p :: 0 <= p < |FirstNewPositions(known, keys)| && keys[FirstNewPositions(known, keys)[p]] == keys[i]
  {
    var f: nat := i;
    while exists j :: 0 <= j < f && keys[j] == keys[i]
      invariant f <= i && keys[f] == keys[i]
      decreases f
    {
      var j :| 0 <= j < f && keys[j] == keys[i];
      f := j;
    }
    assert FirstNew(known, keys, f);
    FirstNewPositionsComplete(known, keys, f);
    var pos := FirstNewPositions(known, keys);
    var p :| 0 <= p < |pos| && pos[p] == f;
  }

  /** The pairs the positions `pos` contribute, in order: each listing's raw name
      and its scraped logo. */
  function PairsAt(ls: seq<CronListing>, pos: seq<nat>, findLogo: (string, string) -> Option<string>): (r: seq<NewLogo>)
    requires forall p :: 0 <= p < |pos| ==> pos[p] < |ls|
    ensures |r| == |pos|
  {
    if pos == [] then []
    else
      var l := ls[pos[|pos| - 1]];
      PairsAt(ls, pos[..|pos| - 1], findLogo) + [NewLogo(l.companyName, ScrapeCompanyLogo(l, findLogo))]
  }

  lemma {:induction false} PairsAtIndex(ls: seq<CronListing>, pos: seq<nat>, findLogo: (string, string) -> Option<string>, p: nat)
    requires forall p :: 0 <= p < |pos| ==> pos[p] < |ls|
    requires p < |pos|
    ensures PairsAt(ls, pos, findLogo)[p] == NewLogo(ls[pos[p]].companyName, ScrapeCompanyLogo(ls[pos[p]], findLogo))
  {
    if p < |pos| - 1 {
      PairsAtIndex(ls, pos[..|pos| - 1], findLogo, p);
    }
  }

  /** `new_logos` after scanning `ls` against the stored keys `known`. */
  function NewLogos(known: map<string, Option<string>>, ls: seq<CronListing>,
                    findLogo: (string, string) -> Option<string>): seq<NewLogo>
  {
    PairsAt(ls, FirstNewPositions(known.Keys, CompanyKeys(ls)), findLogo)
  }

  /** `listing` after the scan: its logo is set only if it triggered the scrape. */
  function AssignedListing(known: map<string, Option<string>>, ls: seq<CronListing>, i: int,
                           findLogo: (string, string) -> Option<string>): (r: CronListing)
    requires 0 <= i < |ls|
    ensures r == ls[i].(companyLogo := r.companyLogo)
  {
    if FirstNew(known.Keys, CompanyKeys(ls), i) then ls[i].(companyLogo := ScrapeCompanyLogo(ls[i], findLogo)) else ls[i]
  }

  /** A listing whose company key is stored or was seen earlier in the batch keeps
      its previous logo; the one that first brings a new key gets the scraped logo. */
  lemma AssignedListingByKey(known: map<string, Option<string>>, ls: seq<CronListing>, i: nat,
                             findLogo: (string, string) -> Option<string>)
    requires i < |ls|
    ensures (CompanyKey(ls[i].companyName) in known
             || exists j :: 0 <= j < i && CompanyKey(ls[j].companyName) == CompanyKey(ls[i].companyName))
      ==> AssignedListing(known, ls, i, findLogo) == ls[i]
    ensures (CompanyKey(ls[i].companyName) !in known
             && forall j :: 0 <= j < i ==> CompanyKey(ls[j].companyName) != CompanyKey(ls[i].companyName))
      ==> AssignedListing(known, ls, i, findLogo) == ls[i].(companyLogo := ScrapeCompanyLogo(ls[i], findLogo))
  {
    var keys := CompanyKeys(ls);
    CompanyKeysAt(ls, i);
    forall j | 0 <= j < i
      ensures keys[j] == CompanyKey(ls[j].companyName)
    {
      CompanyKeysAt(ls, j);
    }
  }

  /** The new pairs carry pairwise different keys, none of them already stored, and
      each is the raw name and scraped logo of a listing that triggered a scrape:
      no company is scraped twice in one run. */
  lemma NewLogosDistinct(known: map<string, Option<string>>, ls: seq<CronListing>,
                         findLogo: (string, string) -> Option<string>)
    ensures forall p :: 0 <= p < |NewLogos(known, ls, findLogo)| ==>
      CompanyKey(NewLogos(known, ls, findLogo)[p].companyName) !in known
    ensures forall p, q :: 0 <= p < q < |NewLogos(known, ls, findLogo)| ==>
      CompanyKey(NewLogos(known, ls, findLogo)[p].companyName) != CompanyKey(NewLogos(known, ls, findLogo)[q].companyName)
  {
    var keys := CompanyKeys(ls);
    var pos := FirstNewPositions(known.Keys, keys);
    FirstNewPositionsSound(known.Keys, keys);
    var r := NewLogos(known, ls, findLogo);
    forall p | 0 <= p < |r|
      ensures CompanyKey(r[p].companyName) == keys[pos[p]]
    {
      PairsAtIndex(ls, pos, findLogo, p);
      CompanyKeysAt(ls, pos[p]);
    }
  }

  /** Every company key of the batch that the store did not know ends up among the
      new pairs. */
  lemma NewLogosComplete(known: map<string, Option<string>>, ls: seq<CronListing>,
                         findLogo: (string, string) -> Option<string>, i: nat)
    requires i < |ls| && CompanyKey(ls[i].companyName) !in known
    ensures exists p :: (0 <= p < |NewLogos(known, ls, findLogo)|
      && CompanyKey(NewLogos(known, ls, findLogo)[p].companyName) == CompanyKey(ls[i].companyName))
  {
    var keys := CompanyKeys(ls);
    CompanyKeysAt(ls, i);
    FirstNewPositionsCover(known.Keys, keys, i);
    var pos := FirstNewPositions(known.Keys, keys);
    var p :| 0 <= p < |pos| && keys[pos[p]] == keys[i];
    PairsAtIndex(ls, pos, findLogo, p);
    CompanyKeysAt(ls, pos[p]);
    assert NewLogos(known, ls, findLogo)[p].companyName == ls[pos[p]].companyName;
  }

  /** No pair, hence no INSERT, exactly when every company of the batch is known. */
  lemma NoNewLogosWhenAllKnown(known: map<string, Option<string>>, ls: seq<CronListing>,
                               findLogo: (string, string) -> Option<string>)
    ensures NewLogos(known, ls, findLogo) == [] <==>
      forall i :: 0 <= i < |ls| ==> CompanyKey(ls[i].companyName) in known
  {
    if NewLogos(known, ls, findLogo) == [] {
      forall i | 0 <= i < |ls|
        ensures CompanyKey(ls[i].companyName) in known
      {
        if CompanyKey(ls[i].companyName) !in known {
          NewLogosComplete(known, ls, findLogo, i);
        }
      }
    } else {
      NewLogosDistinct(known, ls, findLogo);
      var pos := FirstNewPositions(known.Keys, CompanyKeys(ls));
      PairsAtIndex(ls, pos, findLogo, 0);
    }
  }

  /** Extending the scan by one position adds it exactly when it triggers a scrape. */
  lemma FirstNewPositionsStep(known: set<string>, keys: seq<string>, i: nat)
    requires i < |keys|
    ensures FirstNewPositions(known, keys[..i + 1])
      == FirstNewPositions(known, keys[..i]) + if FirstNew(known, keys, i) then [i] else []
  {
    assert keys[..i + 1][..i] == keys[..i];
    FirstNewInPrefix(known, keys, i + 1, i);
  }

  lemma PairsAtSnoc(ls: seq<CronListing>, pos: seq<nat>, i: nat, findLogo: (string, string) -> Option<string>)
    requires forall p :: 0 <= p < |pos| ==> pos[p] < |ls|
    requires i < |ls|
    ensures PairsAt(ls, pos + [i], findLogo)
      == PairsAt(ls, pos, findLogo) + [NewLogo(ls[i].companyName, ScrapeCompanyLogo(ls[i], findLogo))]
  {
    assert (pos + [i])[..|pos|] == pos;
  }

  /** The keys occurring in `keys`. */
  function Seen(keys: seq<string>): set<string> {
    if keys == [] then {} else Seen(keys[..|keys| - 1]) + {keys[|keys| - 1]}
  }

  lemma {:induction false} SeenMembers(keys: seq<string>, k: string)
    ensures k in Seen(keys) <==> exists j :: 0 <= j < |keys| && keys[j] == k
  {
    if keys != [] {
      var front := keys[..|keys| - 1];
      SeenMembers(front, k);
      if k in Seen(front) {
        var j :| 0 <= j < |front| && front[j] == k;
        assert keys[j] == k;
      }
      if exists j :: 0 <= j < |keys| && keys[j] == k {
        var j :| 0 <= j < |keys| && keys[j] == k;
        if j < |front| {
          assert front[j] == k;
        }
      }
    }
  }

  /** Position `i` triggers a scrape exactly when its key is in neither the stored
      keys nor the keys seen so far. */
  lemma FirstNewIsUnseen(known: set<string>, keys: seq<string>, i: nat)
    requires i < |keys|
    ensures FirstNew(known, keys, i) <==> keys[i] !in known && keys[i] !in Seen(keys[..i])
  {
    SeenMembers(keys[..i], keys[i]);
    assert forall j :: 0 <= j < i ==> keys[..i][j] == keys[j];
  }

  /** What holds after the first `i` listings of `ls` have been scanned: `existing`
      holds the stored keys and those seen so far, `newLogos` the pairs of the
      listings that triggered a scrape, and exactly those listings have their logo set. */
  predicate Scanned(known: map<string, Option<string>>, ls: seq<CronListing>, findLogo: (string, string) -> Option<string>,
                    i: nat, existing: map<string, Option<string>>, newLogos: seq<NewLogo>, current: seq<CronListing>)
  {
    i <= |ls| == |current|
    && ScannedKeys(known, ls, i, existing)
    && ScannedLogos(known, ls, findLogo, i, newLogos)
    && ScannedListings(known, ls, findLogo, i, current)
  }

  predicate ScannedKeys(known: map<string, Option<string>>, ls: seq<CronListing>, i: nat, existing: map<string, Option<string>>)
    requires i <= |ls|
  {
    existing.Keys == known.Keys + Seen(CompanyKeys(ls)[..i])
  }

  predicate ScannedLogos(known: map<string, Option<string>>, ls: seq<CronListing>, findLogo: (string, string) -> Option<string>,
                         i: nat, newLogos: seq<NewLogo>)
    requires i <= |ls|
  {
    newLogos == PairsAt(ls, FirstNewPositions(known.Keys, CompanyKeys(ls)[..i]), findLogo)
  }

  predicate ScannedListings(known: map<string, Option<string>>, ls: seq<CronListing>, findLogo: (string, string) -> Option<string>,
                            i: nat, current: seq<CronListing>)
    requires i <= |ls| == |current|
  {
    (forall j :: 0 <= j < i ==> current[j] == AssignedListing(known, ls, j, findLogo))
    && (forall j :: i <= j < |ls| ==> current[j] == ls[j])
  }

  /** Listing `i` triggers a scrape exactly when its key is not yet in `existing`. */
  lemma ScanTriggers(known: map<string, Option<string>>, ls: seq<CronListing>, i: nat, existing: map<string, Option<string>>)
    requires i < |ls| && ScannedKeys(known, ls, i, existing)
    ensures FirstNew(known.Keys, CompanyKeys(ls), i) <==> CompanyKey(ls[i].companyName) !in existing
  {
    CompanyKeysAt(ls, i);
    FirstNewIsUnseen(known.Keys, CompanyKeys(ls), i);
  }

  lemma ScanKeysStep(known: map<string, Option<string>>, ls: seq<CronListing>, i: nat, existing: map<string, Option<string>>,
                     logo: Option<string>)
    requires i < |ls| && ScannedKeys(known, ls, i, existing)
    ensures ScannedKeys(known, ls, i + 1, existing[CompanyKey(ls[i].companyName) := logo])
    ensures CompanyKey(ls[i].companyName) in existing ==> ScannedKeys(known, ls, i + 1, existing)
  {
    CompanyKeysAt(ls, i);
    SeenStep(CompanyKeys(ls), i);
  }

  lemma ScanLogosStep(known: map<string, Option<string>>, ls: seq<CronListing>, findLogo: (string, string) -> Option<string>,
                      i: nat, newLogos: seq<NewLogo>)
    requires i < |ls| && ScannedLogos(known, ls, findLogo, i, newLogos)
    ensures FirstNew(known.Keys, CompanyKeys(ls), i) ==>
      ScannedLogos(known, ls, findLogo, i + 1, newLogos + [NewLogo(ls[i].companyName, ScrapeCompanyLogo(ls[i], findLogo))])
    ensures !FirstNew(known.Keys, CompanyKeys(ls), i) ==> ScannedLogos(known, ls, findLogo, i + 1, newLogos)
  {
    var keys := CompanyKeys(ls);
    var front := FirstNewPositions(known.Keys, keys[..i]);
    FirstNewPositionsStep(known.Keys, keys, i);
    if FirstNew(known.Keys, keys, i) {
      PairsAtSnoc(ls, front, i, findLogo);
    } else {
      assert front + [] == front;
    }
  }

  lemma ScanListingsStep(known: map<string, Option<string>>, ls: seq<CronListing>, findLogo: (string, string) -> Option<string>,
                         i: nat, current: seq<CronListing>)
    requires i < |ls| == |current| && ScannedListings(known, ls, findLogo, i, current)
    ensures FirstNew(known.Keys, CompanyKeys(ls), i) ==>
      ScannedListings(known, ls, findLogo, i + 1, current[i := ls[i].(companyLogo := ScrapeCompanyLogo(ls[i], findLogo))])
    ensures !FirstNew(known.Keys, CompanyKeys(ls), i) ==> ScannedListings(known, ls, findLogo, i + 1, current)
  {
    var scanned := AssignedListing(known, ls, i, findLogo);
    var current' := current[i := scanned];
    ListingsStepAt(known, ls, findLogo, i, current);
    if FirstNew(known.Keys, CompanyKeys(ls), i) {
      assert scanned == ls[i].(companyLogo := ScrapeCompanyLogo(ls[i], findLogo));
    } else {
      assert scanned == ls[i] == current[i];
      assert current' == current;
    }
  }

  /** Setting position `i` to its assigned listing extends the scanned prefix. */
  lemma ListingsStepAt(known: map<string, Option<string>>, ls: seq<CronListing>, findLogo: (string, string) -> Option<string>,
                       i: nat, current: seq<CronListing>)
    requires i < |ls| == |current| && ScannedListings(known, ls, findLogo, i, current)
    ensures ScannedListings(known, ls, findLogo, i + 1, current[i := AssignedListing(known, ls, i, findLogo)])
  {
    var current' := current[i := AssignedListing(known, ls, i, findLogo)];
    forall j | 0 <= j < i + 1
      ensures current'[j] == AssignedListing(known, ls, j, findLogo)
    {
      if j < i {
        assert current'[j] == current[j];
      }
    }
    forall j | i + 1 <= j < |ls|
      ensures current'[j] == ls[j]
    {
      assert current'[j] == current[j];
    }
  }

  lemma SeenStep(keys: seq<string>, i: nat)
    requires i < |keys|
    ensures Seen(keys[..i + 1]) == Seen(keys[..i]) + {keys[i]}
  {
    assert keys[..i + 1][..i] == keys[..i];
  }

  /** One iteration of the loop of `assign_logos`, on listing `i`. */
  method ScanListing(known: map<string, Option<string>>, ghost ls: seq<CronListing>, listings: array<CronListing>,
                     findLogo: (string, string) -> Option<string>, i: nat,
                     existing: map<string, Option<string>>, newLogos: seq<NewLogo>)
    returns (existing': map<string, Option<string>>, newLogos': seq<NewLogo>)
    requires i < listings.Length
    requires Scanned(known, ls, findLogo, i, existing, newLogos, listings[..])
    modifies listings
    ensures Scanned(known, ls, findLogo, i + 1, existing', newLogos', listings[..])
  {
    var listing := listings[i];
    assert listing == ls[i];
    var key := CompanyKey(listing.companyName);
    ScanTriggers(known, ls, i, existing);
    ScanLogosStep(known, ls, findLogo, i, newLogos);
    ScanListingsStep(known, ls, findLogo, i, listings[..]);
    if key !in existing {
      var logo := ScrapeCompanyLogo(listing, findLogo);
      ScanKeysStep(known, ls, i, existing, logo);
      newLogos' := newLogos + [NewLogo(listing.companyName, logo)];
      existing' := existing[key := logo];
      ghost var before := listings[..];
      listings[i] := listing.(companyLogo := logo);
      assert listings[..] == before[i := listing.(companyLogo := logo)];
    } else {
      ScanKeysStep(known, ls, i, existing, None);
      newLogos', existing' := newLogos, existing;
    }
  }

  /** The loop of `assign_logos`: scans the batch against the stored keys `known`,
      scraping and recording each new company once and setting the logo of the
      listing that triggered the scrape. */
  method ScanBatch(known: map<string, Option<string>>, listings: array<CronListing>,
                   findLogo: (string, string) -> Option<string>) returns (newLogos: seq<NewLogo>)
    modifies listings
    ensures newLogos == NewLogos(known, old(listings[..]), findLogo)
    ensures forall i :: 0 <= i < listings.Length ==> listings[i] == AssignedListing(known, old(listings[..]), i, findLogo)
  {
    var existing := known;
    ghost var ls := listings[..];
    newLogos := [];
    var i := 0;
    while i < listings.Length
      invariant 0 <= i <= listings.Length
      invariant Scanned(known, ls, findLogo, i, existing, newLogos, listings[..])
    {
      existing, newLogos := ScanListing(known, ls, listings, findLogo, i, existing, newLogos);
      i := i + 1;
    }
    assert CompanyKeys(ls)[..i] == CompanyKeys(ls);
  }

  /** `assign_logos(listings)`: the batch is updated in place and the new pairs are
      inserted into `logos`; `newLogos` is the list handed to `executemany`. */
  method AssignLogos(store: Store, listings: array<CronListing>, findLogo: (string, string) -> Option<string>)
    returns (newLogos: seq<NewLogo>)
    modifies store, listings
    ensures newLogos == NewLogos(StoredLogos(old(store.logos)), old(listings[..]), findLogo)
    ensures forall i :: 0 <= i < listings.Length ==>
      listings[i] == AssignedListing(StoredLogos(old(store.logos)), old(listings[..]), i, findLogo)
    ensures newLogos == [] ==> store.logos == old(store.logos)
    ensures store.logos == InsertIfAbsent(old(store.logos), newLogos)
    ensures store.listings == old(store.listings)
  {
    var known := StoredLogos(store.logos);
    newLogos := ScanBatch(known, listings, findLogo);
    if newLogos != [] {
      store.InsertLogos(newLogos);
    }
  }

  // ------------------------------------------------------------ insert_listings

  /** `insert_listings(listings)`: the table is emptied, then every listing of the
      batch is inserted in order. */
  method InsertListings(store: Store, batch: array<CronListing>)
    modifies store
    ensures store.listings == batch[..]
    ensures store.logos == old(store.logos)
  {
    store.TruncateListings();
    var i := 0;
    while i < batch.Length
      invariant 0 <= i <= batch.Length
      invariant store.listings == batch[..i] && store.logos == old(store.logos)
    {
      store.InsertListing(batch[i]);
      assert batch[..i + 1] == batch[..i] + [batch[i]];
      i := i + 1;
    }
  }
}
