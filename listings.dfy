/** backend/app/models/listings.py: the listing record the API serves, with its
    company nested, built from a feed record or from a row of the `listings` join. */
module Listings {
  import opened Wrappers
  import opened Values
  import Companies
  import JobClassifier

  /** A listing as the API serves it; the company columns live in `company`. The
      `UUID` id is kept as its text. */
  datatype Listing = Listing(
    id: string,
    source: string,
    title: string,
    active: bool,
    dateUpdated: Instant,
    isVisible: bool,
    datePosted: Instant,
    url: string,
    locations: seq<string>,
    terms: seq<string>,
    sponsorship: string,
    category: string,
    faangPlus: bool,
    company: Companies.Company)

  // ------------------------------------------------------------ from_json

  /** What `Listing.model_validate` accepts: every declared field with its type. */
  predicate ValidListing(m: map<string, Value>) {
    JobClassifier.IsStr(m, "id") && JobClassifier.IsStr(m, "source") && JobClassifier.IsStr(m, "title")
    && JobClassifier.IsBool(m, "active") && JobClassifier.IsTime(m, "date_updated")
    && JobClassifier.IsBool(m, "is_visible") && JobClassifier.IsTime(m, "date_posted")
    && JobClassifier.IsStr(m, "url") && JobClassifier.IsStrList(m, "locations")
    && JobClassifier.IsStrList(m, "terms") && JobClassifier.IsStr(m, "sponsorship")
    && JobClassifier.IsStr(m, "category") && JobClassifier.IsBool(m, "faang_plus")
    && "company" in m && m["company"].VCompany?
  }

  /** `Listing.model_validate(m)`; keys the model does not declare are ignored. */
  function Validate(m: map<string, Value>): (r: Outcome<Listing>)
    ensures r.Ok? <==> ValidListing(m)
    ensures r.Ok? ==> VCompany(r.value.company) == m["company"] && VStr(r.value.category) == m["category"]
    ensures r.Ok? ==> VBool(r.value.faangPlus) == m["faang_plus"]
  {
    if !ValidListing(m) then Err(ValidationError)
    else Ok(Listing(
      m["id"].s, m["source"].s, m["title"].s, m["active"].b, m["date_updated"].t,
      m["is_visible"].b, m["date_posted"].t, m["url"].s, Strings(m["locations"].items),
      Strings(m["terms"].items), m["sponsorship"].s, m["category"].s, m["faang_plus"].b,
      m["company"].c))
  }

  /** The keys `from_json` removes, and the key it adds, on top of the four stamped ones. */
  const CompanyKeys: set<string> := {"company_name", "company_url"}

  /** `Listing.from_json(raw)`: the dictionary `raw` is left holding, and what the
      call returns or raises. The dictionary is the caller's own (`parsed_json` is
      an alias), so every assignment and deletion before a failure stays visible. */
  function FromJsonEffect(m: map<string, Value>): (map<string, Value>, Outcome<Listing>) {
    var (m4, stamped) := JobClassifier.StampEffect(m);
    if stamped.Err? then (m4, Err(stamped.error))
    else if "company_name" !in m4 then (m4, Err(KeyError("company_name")))
    else
      var name := m4["company_name"];
      var m5 := m4 - {"company_name"};
      if "company_url" !in m5 then (m5, Err(KeyError("company_url")))
      else
        var url := m5["company_url"];
        var m6 := m5 - {"company_url"};
        if !(name.VStr? && url.VStr?) then (m6, Err(ValidationError))
        else
          var m7 := m6["company" := VCompany(Companies.NewCompany(name.s, url.s))];
          (m7, Validate(m7))
  }

  /** `Listing.from_json(raw)`, updating the caller's dictionary in place. */
  method FromJson(raw: PyDict) returns (r: Outcome<Listing>)
    modifies raw
    ensures (raw.entries, r) == FromJsonEffect(old(raw.entries))
  {
    var stamped := JobClassifier.Stamp(raw);
    if stamped.Err? {
      return Err(stamped.error);
    }
    if "company_name" !in raw.entries {
      return Err(KeyError("company_name"));
    }
    var name := raw.entries["company_name"];
    raw.Delete("company_name");
    if "company_url" !in raw.entries {
      return Err(KeyError("company_url"));
    }
    var url := raw.entries["company_url"];
    raw.Delete("company_url");
    if !(name.VStr? && url.VStr?) {
      return Err(ValidationError);
    }
    raw.Put("company", VCompany(Companies.NewCompany(name.s, url.s)));
    r := Validate(raw.entries);
  }

  // ------------------------------------------------------------ properties of from_json

  /** The stamping step leaves the company columns alone. */
  lemma StampKeepsCompanyColumns(m: map<string, Value>, k: string)
    requires k in CompanyKeys
    ensures k in JobClassifier.StampEffect(m).0 <==> k in m
    ensures k in m ==> JobClassifier.StampEffect(m).0[k] == m[k]
  {
    var after := JobClassifier.StampEffect(m).0;
    JobClassifier.StampWritesOnlyStampedKeys(m);
    assert k !in JobClassifier.StampedKeys;
    assert k in after <==> k in after - JobClassifier.StampedKeys;
    assert k in m <==> k in m - JobClassifier.StampedKeys;
    if k in m {
      assert (after - JobClassifier.StampedKeys)[k] == after[k];
      assert (m - JobClassifier.StampedKeys)[k] == m[k];
    }
  }

  /** A parsed listing has its company built from the record's `company_name` and
      `company_url`, with the unsaved id and no logo; the caller's dictionary has
      lost both columns and holds the nested company instead. */
  lemma FromJsonNestsCompany(m: map<string, Value>)
    requires FromJsonEffect(m).1.Ok?
    ensures "company_name" in m && m["company_name"].VStr? && "company_url" in m && m["company_url"].VStr?
    ensures var (after, r) := FromJsonEffect(m);
      r.value.company == Companies.NewCompany(m["company_name"].s, m["company_url"].s)
      && r.value.company.id == Companies.UnsavedId && r.value.company.logoUrl == None
      && "company_name" !in after && "company_url" !in after
      && "company" in after && after["company"] == VCompany(r.value.company)
  {
    StampKeepsCompanyColumns(m, "company_name");
    StampKeepsCompanyColumns(m, "company_url");
  }

  /** `category` and `faang_plus` of a parsed listing are the two classifiers'
      verdicts on the record as passed in, whatever the record itself supplied. */
  lemma FromJsonLabelsFromClassifiers(m: map<string, Value>)
    requires FromJsonEffect(m).1.Ok?
    ensures JobClassifier.ClassifyJobCategory(m).Ok? && JobClassifier.ClassifyFaangPlus(m).Ok?
    ensures FromJsonEffect(m).1.value.category == JobClassifier.ClassifyJobCategory(m).value.Label()
    ensures FromJsonEffect(m).1.value.faangPlus == JobClassifier.ClassifyFaangPlus(m).value
  {
    var (m4, stamped) := JobClassifier.StampEffect(m);
    JobClassifier.StampLabelsFromClassifiers(m);
    var m6 := m4 - {"company_name"} - {"company_url"};
    assert m6["category"] == m4["category"] && m6["faang_plus"] == m4["faang_plus"];
  }

  /** Once stamping succeeds, a record without `company_name` raises `KeyError` for
      it, and one with a name but no `company_url` raises `KeyError` for the url. */
  lemma FromJsonMissingCompanyColumn(m: map<string, Value>)
    requires JobClassifier.StampEffect(m).1.Ok?
    ensures "company_name" !in m ==> FromJsonEffect(m).1 == Err(KeyError("company_name"))
    ensures "company_name" in m && "company_url" !in m ==> FromJsonEffect(m).1 == Err(KeyError("company_url"))
  {
    StampKeepsCompanyColumns(m, "company_name");
    StampKeepsCompanyColumns(m, "company_url");
  }

  // ------------------------------------------------------------ from_tuple / to_tuple

  /** `row[i] if isinstance(row[i], list) else []`, then `list[str]` validation. */
  function ListColumn(v: Value): (r: Outcome<seq<string>>)
    ensures !v.VList? ==> r == Ok([])
    ensures v.VList? ==> (r.Ok? <==> AllStrings(v.items))
    ensures v.VList? && r.Ok? ==> VList(StrValues(r.value)) == v
  {
    if !v.VList? then Ok([])
    else if AllStrings(v.items) then
      StrValuesStrings(v.items);
      Ok(Strings(v.items))
    else Err(ValidationError)
  }

  /** The types the constructor's validation demands of a row that is long enough,
      with the list columns already defaulted. */
  predicate ValidRow(row: seq<Value>)
    requires |row| >= 17
  {
    row[0].VStr? && row[1].VStr? && row[2].VStr? && row[3].VBool? && row[4].VTime?
    && row[5].VBool? && row[6].VTime? && row[7].VStr? && ListColumn(row[8]).Ok?
    && ListColumn(row[9]).Ok? && row[10].VStr? && row[11].VStr? && row[12].VBool?
    && row[13].VInt? && row[14].VStr? && row[15].VStr? && (row[16].VNone? || row[16].VStr?)
  }

  /** `Listing.from_tuple(row)` for a row of the listings/companies join: positions
      0..12 are the listing columns, 13..16 the company's id, name, url and logo. */
  function FromTuple(row: seq<Value>): (r: Outcome<Listing>)
    ensures r == Err(IndexError) <==> |row| < 17
    ensures r.Ok? <==> |row| >= 17 && ValidRow(row)
    ensures r.Ok? ==> r.value.company == Companies.Company(row[13].i, row[14].s, row[15].s, OptStr(row[16]))
  {
    if |row| < 17 then Err(IndexError)
    else if !ValidRow(row) then Err(ValidationError)
    else Ok(Listing(
      row[0].s, row[1].s, row[2].s, row[3].b, row[4].t, row[5].b, row[6].t, row[7].s,
      ListColumn(row[8]).value, ListColumn(row[9]).value, row[10].s, row[11].s, row[12].b,
      Companies.FromTuple((row[13].i, row[14].s, row[15].s, OptStr(row[16])))))
  }

  /** `listing.to_tuple()`: the listing columns in table order, then the company id. */
  function ToTuple(l: Listing): (t: seq<Value>)
    ensures |t| == 14 && t[13] == VInt(l.company.id)
    ensures t[8] == VList(StrValues(l.locations)) && t[9] == VList(StrValues(l.terms))
  {
    [VStr(l.id), VStr(l.source), VStr(l.title), VBool(l.active), VTime(l.dateUpdated),
     VBool(l.isVisible), VTime(l.datePosted), VStr(l.url), VList(StrValues(l.locations)),
     VList(StrValues(l.terms)), VStr(l.sponsorship), VStr(l.category), VBool(l.faangPlus),
     VInt(l.company.id)]
  }

  /** The company columns a join row carries after the listing's own. */
  function CompanyColumns(c: Companies.Company): (t: seq<Value>)
    ensures |t| == 3
  {
    [VStr(c.name), VStr(c.url), OptStrValue(c.logoUrl)]
  }

  /** Decoding a row whose list columns are lists and encoding it again gives back
      its first fourteen columns. */
  lemma ToTupleFromTuple(row: seq<Value>)
    requires FromTuple(row).Ok? && row[8].VList? && row[9].VList?
    ensures ToTuple(FromTuple(row).value) == row[..14]
  {
    var t := ToTuple(FromTuple(row).value);
    forall i | 0 <= i < 14
      ensures t[i] == row[i]
    {
    }
  }

  /** A listing is recovered from its encoding followed by its company's columns. */
  lemma FromTupleToTuple(l: Listing)
    ensures FromTuple(ToTuple(l) + CompanyColumns(l.company)) == Ok(l)
  {
    var row := ToTuple(l) + CompanyColumns(l.company);
    assert ListColumn(row[8]) == Ok(l.locations) && ListColumn(row[9]) == Ok(l.terms);
    assert OptStr(row[16]) == l.company.logoUrl;
  }

  /** A column 8 or 9 that is not a list (NULL, say) reads exactly like an empty list. */
  lemma NonListColumnReadsAsEmpty(row: seq<Value>, i: nat)
    requires |row| >= 17 && (i == 8 || i == 9) && !row[i].VList?
    ensures FromTuple(row) == FromTuple(row[i := VList([])])
    ensures FromTuple(row).Ok? ==> (if i == 8 then FromTuple(row).value.locations else FromTuple(row).value.terms) == []
  {
    var row' := row[i := VList([])];
    assert ListColumn(row'[i]) == Ok([]);
    assert forall j :: 0 <= j < 17 && j != i ==> row'[j] == row[j];
  }

  /** `to_tuple` never yields the company's name, url or logo. */
  lemma ToTupleOmitsCompanyDetails(l: Listing, c: Companies.Company)
    requires c.id == l.company.id
    ensures ToTuple(l.(company := c)) == ToTuple(l)
  {
  }
}
