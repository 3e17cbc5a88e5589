# OBC internship board: a verified model of the listing pipeline and its codecs

OBC is an internship board. A backend (FastAPI, Python) pulls the SimplifyJobs
internship feed from GitHub, classifies each listing, attaches company logos
and stores the batch. A frontend (Vue, TypeScript) reads it back. This project
models, in Dafny, the deterministic core of that system:

- the job classifier (`classifyJobCategory`, `classifyFaangPlus`) and the
  feed-record parser `Listing.from_json` of `backend/app/models/cron.py`
  (modules `JobClassifier`, `ClassifierExamples`);
- the sync helpers of `backend/app/util/cron.py`: the year fallback of
  `get_listings`, the logo accretion of `assign_logos`, the prefix guard of
  `scrape_company_logo` and the truncate-then-insert of `insert_listings`
  (module `ListingSync`, with the two tables as the class `Store`);
- the row codecs of `backend/app/models/listings.py` and
  `backend/app/models/companies.py` (modules `Listings`, `Companies`);
- `PaginatedResponse.paginate` of `backend/app/models/api.py` (module `Pagination`);
- `update_profile` of `backend/app/util/profile.py`, with the database as the
  class `ProfileDb` and the statements it runs as a log (module `Profiles`);
- the JWT payload codec `Token.to_jwt_payload` / `from_jwt_payload` of
  `backend/app/models/auth.py` (module `AuthTokens`);
- the deployment selectors `get_allowed_origin` of `backend/app/util/origin.py`
  and the two copies of `getApiHost` in `frontend/src/api/util.ts` and
  `frontend/src/api/fetchData.ts` (modules `AllowedOrigin`, `ApiHostUtil`,
  `ApiHostFetchData`, over the parsed project record of module `Vercel`).

Shared modules: `Wrappers` (`Option`, `Result`), `Text` (ASCII lower-casing and
stripping, substrings, decimal numerals) and `Values` (the Python values held in
dicts, the exceptions as a `Failure` value, and the class `PyDict` for a dict
that is changed in place).

Modelling conventions:

- A raised exception is an `Err(Failure)` result. `KeyError`, `AttributeError`,
  `TypeError`, `IndexError` and `AssertionError` carry the meaning of the Python
  or JavaScript error of the same name. A pydantic validation failure is
  `ValidationError`, and a bare `Exception(message)` is `Raised(message)`.
- A dict that the source mutates (the raw feed record) is a `PyDict` object.
  The method `Listings.FromJson` changes it as the source does, and it is
  specified by the pure function `Listings.FromJsonEffect`, which gives the new
  dict and the result.
- HTTP responses, the HTML logo lookup, the clock's year, the database's
  generated ids and its refusals are parameters: `feed`, `findLogo`,
  `currentYear`, `storedId` / `createdId` and `rejects`.
- The environment variables are `Option<string>` values (`None` when unset). The
  value of `VERCEL_RELATED_PROJECTS` is passed already parsed, as a sequence of
  `Vercel.Project` records. A member of such a record is `Missing`, `Null` or
  `Present(v)`, which keeps apart the JSON cases the source treats differently.
- A datetime is an opaque `Instant` holding the epoch seconds it was made from.

## Model

| member | source | states |
|---|---|---|
| Text.LowerIdempotent | backend/app/models/cron.py:10 | lower-casing a lowered string changes nothing, so the classifiers depend only on the lowered text |
| Text.TrimStartIsLongestSuffix | backend/app/util/cron.py:42 | the left strip removes exactly the maximal run of leading whitespace |
| Text.TrimEndIsLongestPrefix | backend/app/util/cron.py:42 | the right strip removes exactly the maximal run of trailing whitespace |
| Text.LeadingSpaceStripped | backend/app/util/cron.py:48 | `strip` ignores added leading whitespace, so padded names share one key |
| Text.BeforeFirst | backend/app/models/api.py:21 | `url.split("?")[0]` holds no `?`, and it is the whole url or the part before its first `?` |
| Text.NatToString | backend/app/models/api.py:24 | a page number is printed as a non-empty decimal numeral without a leading zero |
| Text.DecimalRoundTrip | backend/app/models/api.py:24 | reading the printed numeral back gives the number |
| Text.ContainsAt | backend/app/models/cron.py:13-18 | a term found at some position counts as contained (Python `in` on strings) |
| Text.MissingCharNotContained | backend/app/models/cron.py:13-18 | a term with a character the title lacks is not contained |
| Text.NothingButEmptyInEmpty | backend/app/models/cron.py:10 | the empty title (a missing one) contains only the empty term |
| JobClassifier.LoweredField | backend/app/models/cron.py:10 | `job.get(key, "").lower()`: a missing key reads as "", a string is lowered, and a non-string raises `AttributeError` |
| JobClassifier.ClassifyJobCategory | backend/app/models/cron.py:8-66 | succeeds exactly when the title lookup does, and then gives the category of the lowered title |
| JobClassifier.ClassifiedLabelIsKnown | backend/app/models/cron.py:8-66 | with a string or missing title the classifier is total, and its label is one of the six category names |
| JobClassifier.RulesApplyInOrder | backend/app/models/cron.py:13-66 | each category is chosen iff its own rule matches and none of the earlier rules (IT, hardware, quant, data, product) does; software is the fallback |
| JobClassifier.ITKeywordWins | backend/app/models/cron.py:13-18 | a title containing any IT keyword is IT support, whatever else it contains |
| JobClassifier.HardwareBeforeLaterRules | backend/app/models/cron.py:21-26 | without an IT keyword, any hardware keyword gives hardware |
| JobClassifier.NoTermIn | backend/app/models/cron.py:13-62 | a keyword list none of whose terms occurs does not match (one missing character per term is enough) |
| JobClassifier.NoTermInEmpty | backend/app/models/cron.py:10 | no list of non-empty keywords matches the empty title |
| JobClassifier.MissingTitleIsSoftware | backend/app/models/cron.py:10-66 | a job without a title is classified as software engineering |
| JobClassifier.ClassifyIgnoresCase | backend/app/models/cron.py:10 | replacing the title by its lowered form does not change the category |
| JobClassifier.ClassifyFaangPlus | backend/app/models/cron.py:70-78 | succeeds exactly when the name lookup does, and is true iff the lowered name is exactly in the fixed set |
| ClassifierExamples.NoSpaceInFaangPlusA | backend/app/models/cron.py:71-77 | no name holding a space, and not the empty name, is in the first fifth of the set |
| ClassifierExamples.NoSpaceInFaangPlusB | backend/app/models/cron.py:71-77 | the same for the second fifth of the set |
| ClassifierExamples.NoSpaceInFaangPlusC | backend/app/models/cron.py:71-77 | the same for the third fifth of the set |
| ClassifierExamples.NoSpaceInFaangPlusD | backend/app/models/cron.py:71-77 | the same for the fourth fifth of the set |
| ClassifierExamples.NoSpaceInFaangPlusE | backend/app/models/cron.py:71-77 | the same for the last fifth of the set |
| ClassifierExamples.NameWithSpaceIsNotFaangPlus | backend/app/models/cron.py:71-77 | no name holding a space, and not the empty name, is in the set |
| ClassifierExamples.PaddedNameIsNotFaangPlus | backend/app/models/cron.py:78 | a company name with a space (a padded one, say) is never FAANG+, because the name is not trimmed |
| ClassifierExamples.MetaIsFaangPlus | backend/app/models/cron.py:71-78 | "Meta" is FAANG+ once lowered |
| ClassifierExamples.PaddedMetaIsNotFaangPlus | backend/app/models/cron.py:78 | "meta " and "Acme Corp" are not FAANG+ |
| ClassifierExamples.MissingNameIsNotFaangPlus | backend/app/models/cron.py:78 | a job without a company name is not FAANG+ |
| JobClassifier.Timestamp | backend/app/models/cron.py:102-103 | `datetime.fromtimestamp(raw.get(key, 0))`: a missing key is the epoch, an int its instant, and anything but an int or a bool raises |
| JobClassifier.Stamp | backend/app/models/cron.py:101-105 | writes the two timestamps and the two labels into the caller's dict in place, in source order, as `StampEffect` describes |
| JobClassifier.FromJson | backend/app/models/cron.py:100-106 | `Listing.from_json`: stamps the dict in place and validates it, as `FromJsonEffect` describes |
| JobClassifier.ParsedListingIsClassified | backend/app/models/cron.py:81-106 | a parsed listing carries the input's title, company, source and id, and its category and FAANG+ flag are the classifiers' results on the input |
| JobClassifier.FromJsonIgnoresSuppliedLabels | backend/app/models/cron.py:104-105 | two records that differ only in their incoming `category` / `faang_plus` parse alike (result or error); once both timestamps parse and the classifiers run, they also leave the same dict behind, even when validation then fails |
| JobClassifier.StampWritesOnlyStampedKeys | backend/app/models/cron.py:101-105 | stamping changes no key other than the two dates and the two labels |
| JobClassifier.StampLabelsFromClassifiers | backend/app/models/cron.py:104-105 | after stamping, `category` and `faang_plus` hold the classifiers' results |
| JobClassifier.FromJsonStampsParsedValues | backend/app/models/cron.py:101-106 | the caller's dict ends up holding exactly the stamped values of the parsed listing |
| JobClassifier.ClassifiersAgree | backend/app/models/cron.py:8-78 | neither classifier reads the incoming labels |
| JobClassifier.TimestampAgrees | backend/app/models/cron.py:102-103 | the timestamps do not read the incoming labels |
| ClassifierExamples.EmbeddedSoftwareIsHardware | backend/app/models/cron.py:21-62 | "embedded software engineer intern" is hardware, not software |
| ClassifierExamples.StartsEmbedded | backend/app/models/cron.py:21-26 | a title starting with "embedded" without an IT keyword is hardware |
| ClassifierExamples.ITSupportTechnicianIsIT | backend/app/models/cron.py:10-18 | "IT Support Technician Intern" is IT support |
| ClassifierExamples.LoweredStartsWithITSupport | backend/app/models/cron.py:10-18 | any title starting "IT Support" is IT support after lowering |
| ClassifierExamples.NoITTermWithout | backend/app/models/cron.py:13-18 | a title lacking the letters c, p, h, k and l contains no IT keyword |
| ClassifierExamples.EmbeddedTitleLacks | backend/app/models/cron.py:13-18 | the embedded title lacks those letters |
| ClassifierExamples.WordLacks | backend/app/models/cron.py:13-18 | each word of the embedded title lacks them |
| Companies.NewCompany | backend/app/models/companies.py:4-8 | a company built from name and url has the unsaved id -1 and no logo |
| Companies.FromTuple | backend/app/models/companies.py:11-12 | positions 0..3 become id, name, url and logo URL |
| Companies.ToTuple | backend/app/models/companies.py:14-15 | the row is (name, url, logo URL), without the id |
| Companies.ToTupleFromTuple | backend/app/models/companies.py:11-15 | `to_tuple(from_tuple(t))` is positions 1..3 of `t` |
| Companies.FromTupleToTuple | backend/app/models/companies.py:11-15 | putting the id back in front of `to_tuple(c)` rebuilds `c` |
| Values.PyDict.Put | backend/app/models/cron.py:102 | assignment to a key updates that key only |
| Values.PyDict.Delete | backend/app/models/listings.py:43 | `del` of a present key removes that key only |
| Values.Strings | backend/app/models/listings.py:61-62 | a list of string values is read as the strings, in order |
| Values.StrValues | backend/app/models/listings.py:79-80 | strings are written as string values, and read back unchanged |
| Values.StrValuesStrings | backend/app/models/listings.py:61-80 | reading then writing a list of strings gives the list back |
| Values.OptStrValue | backend/app/models/listings.py:66 | an optional string written as a value reads back unchanged |
| Listings.Validate | backend/app/models/listings.py:12-48 | `model_validate` succeeds iff every field has its declared type, and then carries the nested company, category and flag over |
| Listings.FromJson | backend/app/models/listings.py:29-48 | `Listing.from_json`: the caller's dict is stamped, loses `company_name` / `company_url`, gains `company`, and is validated, as `FromJsonEffect` describes |
| Listings.StampKeepsCompanyColumns | backend/app/models/listings.py:32-40 | stamping leaves the company columns as they were |
| Listings.FromJsonNestsCompany | backend/app/models/listings.py:42-46 | a parsed listing's company is built from the input's name and url with id -1 and no logo, and the dict left behind has `company` instead of the two columns |
| Listings.FromJsonLabelsFromClassifiers | backend/app/models/listings.py:39-40 | category and FAANG+ flag come from the two classifiers |
| Listings.FromJsonMissingCompanyColumn | backend/app/models/listings.py:42-45 | a record without `company_name`, or without `company_url`, raises `KeyError` for that key |
| Listings.ListColumn | backend/app/models/listings.py:61-62 | a non-list column reads as `[]`; a list reads as its strings when it holds only strings |
| Listings.NonListColumnReadsAsEmpty | backend/app/models/listings.py:61-62 | replacing a non-list `row[8]` or `row[9]` by `[]` does not change the result, and the field is empty |
| Listings.FromTuple | backend/app/models/listings.py:51-67 | fails with `IndexError` exactly when the row has fewer than 17 columns; succeeds exactly when it is long enough and every column has its type; the company is built from `row[13..16]` as id, name, url and logo URL |
| Listings.ToTuple | backend/app/models/listings.py:69-85 | 14 columns in table order, the lists as lists, and the company id last |
| Listings.CompanyColumns | backend/app/models/listings.py:66 | the three company columns after the id that `from_tuple` reads |
| Listings.ToTupleFromTuple | backend/app/models/listings.py:51-85 | when `row[8]` and `row[9]` are lists, `to_tuple(from_tuple(row))` is the first 14 columns of `row` |
| Listings.FromTupleToTuple | backend/app/models/listings.py:51-85 | `from_tuple` of `to_tuple(l)` followed by the company columns gives `l` back |
| Listings.ToTupleOmitsCompanyDetails | backend/app/models/listings.py:84 | `to_tuple` depends on the company only through its id |
| Pagination.Slice | backend/app/models/api.py:32 | the clamped slice `results[start:end]`: its length and items |
| Pagination.Paginate | backend/app/models/api.py:14-34 | `count` is the full length; `next` is set iff `end < count`; `previous` is set iff `page > 0` |
| Pagination.PageContents | backend/app/models/api.py:18-32 | the page holds `max(0, min(pageSize, count - start))` items, those of the list from `start` on |
| Pagination.NextMeansFullPage | backend/app/models/api.py:23-32 | a page with a `next` link is full |
| Pagination.PastTheEndLinksBack | backend/app/models/api.py:25-26 | a page past the end is empty, has no `next`, and still has `previous` |
| Pagination.LinksNameNeighbours | backend/app/models/api.py:21-26 | the links name pages `page + 1` and `page - 1` on the url cut at its first `?` |
| Pagination.BeforeFirstOfQuery | backend/app/models/api.py:21 | cutting a link at its first `?` gives back the base it was built on |
| Pagination.LinkKeepsPath | backend/app/models/api.py:21-26 | a link's own base is the request's base |
| Pagination.LinkPageReadsBack | backend/app/models/api.py:24-26 | a link is `base?page=<n>&pageSize=<size>` and its page numeral reads back as the page number |
| Pagination.PageIsSlice | backend/app/models/api.py:18-32 | a page's results are the list between `start` and `start + pageSize`, clamped |
| Pagination.PagesTileThePrefix | backend/app/models/api.py:18-32 | for `pageSize > 0` the pages `0 .. k-1` put together are the first `k * pageSize` items (clamped), in order, without overlaps |
| ListingSync.Countdown | backend/app/util/cron.py:24 | `range(start, stop, -1)`: the numbers from `start` down to `stop + 1` |
| ListingSync.ProbeYearsNewestFirst | backend/app/util/cron.py:24 | the years probed are next year, this year and last year, in that order |
| ListingSync.MapAllFailureSticks | backend/app/util/cron.py:30 | once one record of a batch fails, the batch fails with that error |
| ListingSync.MapAllSucceeds | backend/app/util/cron.py:30 | the list comprehension succeeds iff every record parses, and then gives the parses in order |
| ListingSync.MapAllFailsAtFirstBad | backend/app/util/cron.py:30 | a failing batch raises the error of its first failing record |
| ListingSync.MapAllStep | backend/app/util/cron.py:30 | parsing one more record extends the parsed prefix or fails with the record's error |
| ListingSync.ParseRecord | backend/app/util/cron.py:30 | `Listing.from_json` on a fresh dict of the record gives `ParseListing` of the record |
| ListingSync.ParseRecords | backend/app/util/cron.py:30 | the loop over the records gives the batch parse (first error or all listings) |
| ListingSync.ParseResponse | backend/app/util/cron.py:29-31 | the body of an OK response, a JSON list of records, is parsed as a batch; text that is not JSON fails with `DecodeError` |
| ListingSync.ProbeFeed | backend/app/util/cron.py:24-28 | probes a prefix of the three years in order, stops at the first OK response and returns its body, or has probed all three and found none |
| ListingSync.GetListings | backend/app/util/cron.py:21-32 | returns the parse of the first OK response and probes no later year; when all three fail it fails with "No listings found" |
| ListingSync.ScrapeCompanyLogo | backend/app/util/cron.py:67-76 | off the Simplify company prefix the result is `None`; on it, the result of the page lookup |
| ListingSync.NoFetchOffSimplify | backend/app/util/cron.py:69-70 | off the prefix the result does not depend on the page lookup at all (no request is needed) |
| ListingSync.InsertIfAbsentKeepsAndCovers | backend/app/util/cron.py:56-63 | inserting pairs keeps all rows, makes every pair's name present, and only adds rows that come from the pairs |
| ListingSync.Store.InsertLogos | backend/app/util/cron.py:56-63 | `INSERT ... ON CONFLICT DO NOTHING` into `logos`, leaving `listings` alone |
| ListingSync.Store.TruncateListings | backend/app/util/cron.py:83 | `TRUNCATE TABLE listings` empties listings and keeps logos |
| ListingSync.Store.InsertListing | backend/app/util/cron.py:85-99 | one listing row is appended |
| ListingSync.CompanyKeys | backend/app/util/cron.py:48 | one key per listing |
| ListingSync.CompanyKeysAt | backend/app/util/cron.py:48 | each listing's key is its name stripped and lowered |
| ListingSync.StoredLogos | backend/app/util/cron.py:40-43 | the map's keys are exactly the stripped, lowered names of stored rows whose name is not NULL or empty |
| ListingSync.FirstNewInPrefix | backend/app/util/cron.py:47-52 | whether a listing triggers a scrape depends only on the listings before it |
| ListingSync.FirstNewPositions | backend/app/util/cron.py:47-52 | the positions that trigger a scrape are positions of the batch |
| ListingSync.FirstNewPositionsSound | backend/app/util/cron.py:49-52 | every listed position triggers a scrape, and the positions are strictly increasing, so they come in first-occurrence order |
| ListingSync.FirstNewPositionsComplete | backend/app/util/cron.py:49-52 | every position that triggers a scrape is listed |
| ListingSync.FirstNewPositionsCover | backend/app/util/cron.py:49-52 | every key absent from the stored map has a listed position carrying it |
| ListingSync.FirstNewPositionsStep | backend/app/util/cron.py:47-52 | scanning one more listing appends its position iff it triggers a scrape |
| ListingSync.PairsAt | backend/app/util/cron.py:51 | one pair per triggering position |
| ListingSync.PairsAtIndex | backend/app/util/cron.py:50-51 | each pair is that listing's raw name with its scraped logo |
| ListingSync.PairsAtSnoc | backend/app/util/cron.py:51 | one more triggering position appends one pair |
| ListingSync.SeenMembers | backend/app/util/cron.py:52 | the keys added to the map during the scan are exactly the keys of the scanned listings |
| ListingSync.SeenStep | backend/app/util/cron.py:52 | scanning one more listing adds its key |
| ListingSync.FirstNewIsUnseen | backend/app/util/cron.py:49 | a listing triggers a scrape iff its key is neither stored nor held by an earlier listing |
| ListingSync.AssignedListing | backend/app/util/cron.py:49-53 | the scan changes a listing's logo and nothing else |
| ListingSync.AssignedListingByKey | backend/app/util/cron.py:49-53 | a listing whose key was stored or seen earlier keeps its logo; the first one with a new key gets the scraped logo |
| ListingSync.NewLogosDistinct | backend/app/util/cron.py:49-52 | the new pairs have pairwise different keys, none of them stored: no company is scraped twice in one run |
| ListingSync.NewLogosComplete | backend/app/util/cron.py:49-52 | every key of the batch that was not stored gets a new pair |
| ListingSync.NoNewLogosWhenAllKnown | backend/app/util/cron.py:54 | there are no new pairs iff every key of the batch was stored |
| ListingSync.ScanTriggers | backend/app/util/cron.py:49 | during the scan, `company_key not in existing_logos` is exactly the trigger condition |
| ListingSync.ScanKeysStep | backend/app/util/cron.py:52 | `existing_logos[company_key] = logo_url` keeps the map's keys equal to the stored and seen keys |
| ListingSync.ScanLogosStep | backend/app/util/cron.py:51 | `new_logos.append(...)` keeps the list equal to the pairs of the scanned prefix |
| ListingSync.ScanListingsStep | backend/app/util/cron.py:53 | `listing.company_logo = logo_url` keeps the scanned listings assigned and the rest untouched |
| ListingSync.ListingsStepAt | backend/app/util/cron.py:53 | assigning one listing extends the assigned prefix |
| ListingSync.ScanListing | backend/app/util/cron.py:48-53 | one loop iteration keeps the scan invariant |
| ListingSync.ScanBatch | backend/app/util/cron.py:41-53 | the loop yields the new pairs of the batch and assigns each listing as `AssignedListing` says |
| ListingSync.AssignLogos | backend/app/util/cron.py:36-63 | `assign_logos`: new pairs and assigned listings as above; no insert when there are no new pairs; otherwise the pairs are inserted if absent; listings table untouched |
| ListingSync.InsertListings | backend/app/util/cron.py:80-100 | afterwards the listings table holds exactly the batch, in order, and no earlier row |
| Profiles.OptIntValue | backend/app/models/profile.py:28 | an optional int is dumped as `None` or as the int |
| Profiles.Dump | backend/app/util/profile.py:145 | `model_dump(exclude_unset=True)` holds exactly the fields that were set, with well-typed values |
| Profiles.Excluding | backend/app/util/profile.py:146-150 | the allowed fields are the model's fields without `prev_internships` |
| Profiles.AllowedFieldsAreTheColumns | backend/app/models/profile.py:23-31 | the allowed fields are full name, major, graduation year, LinkedIn link and bio, in declaration order |
| Profiles.BuildSetClauses | backend/app/util/profile.py:152-158 | the loop yields the clauses and the values of the set fields |
| Profiles.ClausesFollowSetFields | backend/app/util/profile.py:155-158 | one `field = %s` clause and one value per set allowed field, in field order |
| Profiles.SetFieldsMembers | backend/app/util/profile.py:155-156 | a field gets a clause iff it is allowed and was set |
| Profiles.SetFieldsInOrder | backend/app/util/profile.py:155 | the clauses follow the declaration order |
| Profiles.InternshipsNeverAClause | backend/app/util/profile.py:149 | `prev_internships` never gets a clause |
| Profiles.NamesDiffer | backend/app/models/profile.py:26-31 | different fields have different column names |
| Profiles.ColumnUpdatesKeys | backend/app/util/profile.py:162 | the UPDATE touches exactly the columns of the set fields |
| Profiles.ColumnUpdatesValues | backend/app/util/profile.py:162-163 | each such column receives the field's value |
| Profiles.UpdateParamsMatchClauses | backend/app/util/profile.py:158-163 | the UPDATE joins the clauses and passes one value per clause, then the profile id last |
| Profiles.NoUpdateWithoutSetFields | backend/app/util/profile.py:160-163 | no UPDATE runs iff no allowed field was set |
| Profiles.NoUpdateWithoutColumns | backend/app/util/profile.py:160-163 | an update that sets none of the five columns runs no UPDATE |
| Profiles.InternshipRows | backend/app/util/profile.py:174-182 | one `(profile_id, company, role, time_period)` row per internship, in order |
| Profiles.RowsNotOf | backend/app/util/profile.py:168-170 | the DELETE leaves no row of the profile |
| Profiles.RowsOfAppend | backend/app/util/profile.py:184-190 | a profile's rows after a bulk insert are its old rows followed by its new ones |
| Profiles.RowsOfRowsNotOf | backend/app/util/profile.py:168-170 | the DELETE removes the profile's rows and keeps every other profile's |
| Profiles.RowsOfOwnRows | backend/app/util/profile.py:174-182 | the new rows all belong to the profile |
| Profiles.ItemsOf | backend/app/util/profile.py:174-182 | rows are read back as internships, one per row |
| Profiles.ItemsOfInternshipRows | backend/app/util/profile.py:174-182 | reading the new rows back gives the submitted internships |
| Profiles.CommittedInternshipsReplace | backend/app/util/profile.py:166-190 | with `prev_internships` set the profile's internships become exactly that list in order; otherwise they stay; other profiles' rows never change |
| Profiles.CommittedColumns | backend/app/util/profile.py:155-163 | for an existing stored profile, after a committed run the set columns hold the request's values; other columns and other profiles are unchanged |
| Profiles.CreatedColumns | backend/app/util/profile.py:130-163 | for a profile created by the run, afterwards it holds exactly the set fields' columns; other profiles are unchanged |
| Profiles.CreationComesFirst | backend/app/util/profile.py:130-143 | a missing (falsy) stored id makes creation the first statement, and no later statement creates a profile |
| Profiles.UpToAppend | backend/app/util/profile.py:124-198 | running two groups of statements runs the second only when the first raised nothing |
| Profiles.UpToNoneRejected | backend/app/util/profile.py:124-198 | when nothing raises, every statement runs |
| Profiles.NoneRejectedAppend | backend/app/util/profile.py:124-198 | two groups both run clean iff each does |
| Profiles.UpToPair | backend/app/util/profile.py:168-190 | the DELETE and the INSERT: the insert runs only after a clean delete |
| Profiles.ChainedLog | backend/app/util/profile.py:160-190 | the log of the update step followed by the internship step is the log of the two together |
| Profiles.ProfileDb.AddProfile | backend/app/util/profile.py:131-138 | the INSERT adds an empty profile under the new id |
| Profiles.ProfileDb.SetColumns | backend/app/util/profile.py:162-163 | the UPDATE sets the given columns of the profile |
| Profiles.ProfileDb.DeleteInternshipsOf | backend/app/util/profile.py:168-170 | the DELETE removes the profile's internship rows |
| Profiles.ProfileDb.InsertInternshipRows | backend/app/util/profile.py:184-190 | the bulk INSERT appends the rows |
| Profiles.ProfileDb.Rollback | backend/app/util/profile.py:196-198 | an exception before the commit restores both tables |
| Profiles.Run | backend/app/util/profile.py:124-198 | one statement is logged; if the database refuses it, both tables are rolled back |
| Profiles.SendUpdate | backend/app/util/profile.py:160-163 | the UPDATE step: logged statements, whether it raised, and the new profiles |
| Profiles.ReplaceInternships | backend/app/util/profile.py:166-190 | the internship step: logged statements, whether it raised, and the new internship rows |
| Profiles.ApplyChanges | backend/app/util/profile.py:145-192 | both steps after creation, with rollback on the first refusal |
| Profiles.UpdateProfileOver | backend/app/util/profile.py:121-198 | `update_profile` over any field list: a failed creation gives `None` after the one insert; otherwise the planned statements run up to the first refusal; the result is the profile id iff nothing was refused, with the committed tables; on `None` both tables are as before |
| Profiles.UpdateProfile | backend/app/util/profile.py:121-198 | the same with the model's declared fields |
| AuthTokens.FromJwtPayload | backend/app/models/auth.py:31-37 | succeeds iff `sub` is present and a string, giving that username; otherwise raises "JWT Payload is malformed" |
| AuthTokens.ToJwtPayload | backend/app/models/auth.py:39-40 | exactly the keys `sub` (the username) and `exp` |
| AuthTokens.DecodeEncode | backend/app/models/auth.py:31-40 | decoding an encoded token gives the token back, for every `exp` |
| AuthTokens.EncodeDecode | backend/app/models/auth.py:31-40 | re-encoding a decoded payload keeps its `sub` |
| AuthTokens.OnlySubMatters | backend/app/models/auth.py:32-37 | payloads that agree on `sub` decode alike: every other key, `exp` included, is ignored |
| AuthTokens.MissingSubRaises | backend/app/models/auth.py:33-35 | a payload without a string `sub` raises, even with `exp` set |
| Vercel.Https | backend/app/util/origin.py:22 | `f"https://{host}"` is the prefix followed by the host, and an https origin when the host is non-empty |
| AllowedOrigin.GetAllowedOrigin | backend/app/util/origin.py:10-36 | the result is the default or `https://` plus a non-empty host; it raises iff both variables are set and the project list is empty or the matching record is `null` |
| AllowedOrigin.LocalIsDefault | backend/app/util/origin.py:12-13 | with either variable unset the result is "http://localhost:5173" |
| AllowedOrigin.OnlyFirstProject | backend/app/util/origin.py:16 | projects after the first are not consulted |
| AllowedOrigin.PreviewOrigin | backend/app/util/origin.py:19-36 | a preview with a truthy branch allows `https://` plus the branch; otherwise the default |
| AllowedOrigin.ProductionOrigin | backend/app/util/origin.py:25-36 | production prefers the alias, then the url, then the default |
| AllowedOrigin.OtherEnvIsDefault | backend/app/util/origin.py:36 | any other environment name gives the default |
| AllowedOrigin.EnvNamesDiffer | backend/app/util/origin.py:19-25 | "preview" and "production" exclude each other |
| ApiHostUtil.GetApiHost | frontend/src/api/util.ts:6-32 | the result is the default or an https host; it raises `TypeError` exactly when the matching record is absent (or the list is empty) for a preview or production build |
| ApiHostUtil.LocalIsDefault | frontend/src/api/util.ts:8-10 | with either variable undefined the result is "http://localhost:8000" |
| ApiHostUtil.OnlyFirstProject | frontend/src/api/util.ts:13 | projects after the first are not consulted |
| ApiHostUtil.PreviewHost | frontend/src/api/util.ts:16-31 | a preview with a truthy branch talks to `https://` plus the branch; otherwise the default |
| ApiHostUtil.ProductionHost | frontend/src/api/util.ts:21-31 | production prefers the alias, then the url, then the default |
| ApiHostUtil.OtherEnvIsDefault | frontend/src/api/util.ts:31 | any other environment name gives the default, even with no project |
| ApiHostUtil.DefaultsAreNotHttps | frontend/src/api/util.ts:4 | neither default is an https origin |
| ApiHostUtil.AgreesWithAllowedOrigin | frontend/src/api/util.ts:6-32 | the frontend picks an https host iff the backend admits an https origin, and then it is the same one |
| ApiHostFetchData.First | frontend/src/api/fetchData.ts:13 | `relatedProjects[0]` is the first project, undefined for an empty list |
| ApiHostFetchData.GetApiHost | frontend/src/api/fetchData.ts:6-32 | the result is the default or an https host |
| ApiHostFetchData.SameAsUtil | frontend/src/api/fetchData.ts:6-32 | the local copy agrees with the one in `util.ts` on every input, errors included |

## Left out

- Database access, SQL text and connection handling. Tables are the fields of
  `Store` and `ProfileDb`. `ON CONFLICT (company_name) DO NOTHING` is modelled as
  "insert if no row has that name".
- `get_profile_id` and the closing `get_valid_profile` read-back of
  `update_profile`. The stored id is a parameter, and `UpdateProfileOver` returns
  the id of the profile whose read-back `get_valid_profile` would be asked for,
  as a stand-in for that read-back (which, as written, gives `None`; see below).
- `Companies.FromTuple`: the row is a typed `(id, name, url, logo_url)` tuple, so
  the `IndexError` of a short tuple and the `ValidationError` of ill-typed
  positions are not modelled (`Listings.FromTuple` models both for the join row).
- `get_all_profiles`, favorites, images, routers, app setup, authentication
  crypto and cookies. These are not part of this model.
- `requests.get` on GitHub and on Simplify pages, and the BeautifulSoup lookup.
  These are the `feed` and `findLogo` parameters. Neither can raise in the model:
  an exception from `requests.get` in `get_listings` (which ends the probing
  without trying the next year), or from the page fetch or `img["src"]` in
  `scrape_company_logo` (which leaves `assign_logos` part-way, with earlier
  listings already assigned), is not modelled.
- `ListingSync.ParseResponse`: the body of an OK response is either a JSON list of
  records or text that is not JSON (`Body.Malformed`). Other JSON values are not
  modelled: `{}` or `""` (which iterate as empty and give `[]`), `null` or a
  number (a `TypeError`), a non-empty object, a string, or a list holding a
  non-object (an `AttributeError` from `.get`, raised after the earlier records
  were parsed).
- `datetime.now()`: the current year is the parameter `currentYear`.
- `JobClassifier.Timestamp`: the time-zone conversion and `fromtimestamp`'s
  range and float handling are not modelled. An `Instant` holds the int, and a
  bool reads as 0 or 1.
- Pydantic validation is modelled as strict type checks. Lax coercions (a
  numeric string accepted as an int, say) and the UUID format of a listing id
  are not modelled.
- Unicode: `lower` and `strip` work on ASCII letters and ASCII whitespace only.
- Negative pagination inputs: `page` and `pageSize` are `nat`, so Python's
  negative slicing is out of scope.
- Parsing of `VERCEL_RELATED_PROJECTS`: it is given already parsed. A JSON member
  other than a string, an object or `null` (a number, say) is not modelled, and
  neither is a list element that is not an object (`[null]`, say), on which
  `get_allowed_origin` raises from `.get` and `getApiHost` raises `TypeError` for
  preview and production builds. A malformed JSON text is not modelled either.
- `Listings.FromJson`: as written, the import at
  `backend/app/models/listings.py:30` fails, so every call raises `ImportError`
  before the dict is touched. That path is not modelled; the model follows lines
  39-40 with the classifiers of `backend/app/models/cron.py`.
- The async `fetchData` in `fetchData.ts` is network I/O.
- `ListingSync.AssignLogos`: the batch is an array of listing values, so the same
  listing object appearing twice in the Python list (aliasing) is not modelled.
  Each position is updated on its own.

## Notes on the code

Where the code and its comments or descriptions differ, the model follows the code.

- `classifyFaangPlus` lowers the company name but does not trim it, so "meta "
  is not FAANG+ (`ClassifierExamples.PaddedMetaIsNotFaangPlus`).
- `backend/app/models/cron.py:20` calls the hardware rule "first priority", but
  the IT rule at line 13 runs before it. Line 64 says unmatched titles give
  `None`, but line 66 returns "Software Engineering"
  (`JobClassifier.RulesApplyInOrder`, `JobClassifier.MissingTitleIsSoftware`).
- `backend/app/models/listings.py:30` imports the classifiers from
  `util/cron.py`, which does not define them. The model uses the classifiers of
  `models/cron.py`.
- `insert_listings` truncates and re-inserts the whole batch. There is no
  de-duplication by listing id and no upsert.
- `update_profile` writes a column named after each field
  (`linkedin_link`). Whether the database accepts the statement is left to the
  `rejects` parameter.
- `update_profile` ends with `return get_valid_profile(user)`
  (`backend/app/util/profile.py:194`). That function calls `Profile.from_db`
  (line 70), which the `Profile` model (`backend/app/models/profile.py:12-20`)
  does not define. The resulting `AttributeError` is caught at lines 72-74, so as
  written `update_profile` returns `None` on every path, committed or not. The
  model returns the target profile id in its place.
- A stored profile id of 0 is falsy, so `update_profile` creates a new profile
  for it (`Profiles.Truthy`).
- `getApiHost` dereferences `project.preview` and `project.production` without
  a guard. When the matching record is missing, it raises `TypeError`, where
  `get_allowed_origin` falls back to the default; with an empty list both raise. For an
  environment name other than preview or production with an empty project list,
  `getApiHost` gives the default while `get_allowed_origin` raises `IndexError`.
