/** backend/app/models/cron.py: the title classifier, the FAANG+ test, and the flat
    `Listing.from_json` that stamps a raw feed record with both results. */
module JobClassifier {
  import opened Wrappers
  import opened Text
  import opened Values

  // ------------------------------------------------------------ categories

  datatype Category = ITSupport | Hardware | Quant | DataScience | Product | Software {
    /** The string the source stores in the `category` field. */
    function Label(): string {
      match this
      case ITSupport => "IT Technical Support"
      case Hardware => "Hardware Engineering"
      case Quant => "Quantitative Finance"
      case DataScience => "Data Science, AI & Machine Learning"
      case Product => "Product Management"
      case Software => "Software Engineering"
    }
  }

  const CategoryLabels: set<string> := {
    "IT Technical Support", "Hardware Engineering", "Quantitative Finance",
    "Data Science, AI & Machine Learning", "Product Management", "Software Engineering"
  }

  // ------------------------------------------------------------ keyword tables

  const ITTerms: seq<string> := [
    "it technical intern", "it technician", "it support", "technical support intern",
    "help desk", "desktop support", "it help desk", "computer support", "security operations", "field operations",
    "information technology"
  ]

  const HardwareTerms: seq<string> := [
    "hardware", "embedded", "fpga", "circuit", "chip", "silicon", "asic", "robotics", "firmware",
    "manufactur", "electrical", "mechanical", "systems engineer", "test engineer", "validation",
    "verification", "pcb", "analog", "digital", "signal", "power", "rf", "antenna"
  ]

  const QuantTerms: seq<string> := [
    "quant", "quantitative", "trading", "finance", "investment", "financial", "risk", "portfolio",
    "derivatives", "algorithmic trading", "market", "capital", "equity", "fixed income", "credit"
  ]

  const DataScienceTerms: seq<string> := [
    "data science", "artificial intelligence", "data scientist", "ai", "machine learning", "ml",
    "data analytics", "data analyst", "research eng", "nlp", "computer vision", "research sci",
    "data eng", "analytics", "statistician", "modeling", "algorithms", "deep learning", "pytorch",
    "tensorflow", "pandas", "numpy", "sql", "etl", "pipeline", "big data", "spark", "hadoop"
  ]

  const ProductTerms: seq<string> := [
    "product manag", "product analyst", "apm", "associate product", "product owner", "product design",
    "product marketing", "product strategy", "business analyst", "program manag", "project manag"
  ]

  /** The words that, next to "product", also make a title a product role. */
  const ProductRoleWords: seq<string> := ["analyst", "manager", "associate", "coordinator"]

  const SoftwareTerms: seq<string> := [
    "software", "engineer", "developer", "dev", "programming", "coding", "fullstack", "full-stack",
    "full stack", "frontend", "front end", "front-end", "backend", "back end", "back-end",
    "mobile", "web", "app", "application", "platform", "infrastructure", "cloud", "devops",
    "sre", "site reliability", "systems", "network", "security", "cybersecurity", "qa",
    "quality assurance", "test", "automation", "ci/cd", "deployment", "kubernetes", "docker",
    "aws", "azure", "gcp", "api", "microservices", "database", "java", "python", "javascript",
    "react", "node", "golang", "rust", "c++", "c#", ".net", "ios", "android", "flutter",
    "technical", "technology", "tech", "coding", "programming", "sde", "swe"
  ]

  /** The FAANG+ employer set, kept in the five groups in which the source lays it out. */
  const FaangPlusA: set<string> := {
    "airbnb", "adobe", "amazon", "amd", "anthropic", "apple", "asana", "atlassian", "bytedance", "cloudflare", "coinbase", "crowdstrike", "databricks", "datadog"
  }
  const FaangPlusB: set<string> := {
    "doordash", "dropbox", "duolingo", "figma", "google", "ibm", "instacart", "intel", "linkedin", "lyft", "meta", "microsoft"
  }
  const FaangPlusC: set<string> := {
    "netflix", "notion", "nvidia", "openai", "oracle", "palantir", "paypal", "perplexity", "pinterest", "ramp", "reddit", "rippling", "robinhood", "roblox"
  }
  const FaangPlusD: set<string> := {
    "salesforce", "samsara", "servicenow", "shopify", "slack", "snap", "snapchat", "spacex", "splunk", "snowflake", "stripe", "square", "tesla", "tinder", "tiktok", "uber"
  }
  const FaangPlusE: set<string> := {"visa", "waymo", "x"}
  const FaangPlus: set<string> := FaangPlusA + FaangPlusB + FaangPlusC + FaangPlusD + FaangPlusE

  /** `any(term in title for term in terms)` */
  predicate AnyIn(terms: seq<string>, title: string) {
    exists j :: 0 <= j < |terms| && Contains(title, terms[j])
  }

  /** The product rule: a listed phrase, or "product" beside a role word. */
  predicate ProductRule(title: string) {
    AnyIn(ProductTerms, title) || (Contains(title, "product") && AnyIn(ProductRoleWords, title))
  }

  /** The rule chain of `classifyJobCategory`, applied to a title that is already
      lower-cased. The first rule that matches decides. */
  function ClassifyTitle(title: string): Category {
    if AnyIn(ITTerms, title) then ITSupport
    else if AnyIn(HardwareTerms, title) then Hardware
    else if AnyIn(QuantTerms, title) then Quant
    else if AnyIn(DataScienceTerms, title) then DataScience
    else if ProductRule(title) then Product
    else if AnyIn(SoftwareTerms, title) then Software
    else Software
  }

  /** `job.get(key, "").lower()`: a missing key reads as "", a value that is not a
      string has no `lower` method. */
  function LoweredField(job: map<string, Value>, key: string): (r: Outcome<string>)
    ensures key !in job ==> r == Ok("")
    ensures key in job && job[key].VStr? ==> r == Ok(Lower(job[key].s))
    ensures key in job && !job[key].VStr? ==> r == Err(AttributeError)
  {
    if key !in job then Ok("")
    else match job[key]
      case VStr(s) => Ok(Lower(s))
      case _ => Err(AttributeError)
  }

  /** `classifyJobCategory(job)` */
  function ClassifyJobCategory(job: map<string, Value>): (r: Outcome<Category>)
    ensures r.Ok? <==> LoweredField(job, "title").Ok?
    ensures r.Ok? ==> r.value == ClassifyTitle(LoweredField(job, "title").value)
  {
    match LoweredField(job, "title")
    case Ok(title) => Ok(ClassifyTitle(title))
    case Err(e) => Err(e)
  }

  /** `classifyFaangPlus(job)`: exact membership of the lower-cased name, untrimmed. */
  function ClassifyFaangPlus(job: map<string, Value>): (r: Outcome<bool>)
    ensures r.Ok? <==> LoweredField(job, "company_name").Ok?
    ensures r.Ok? ==> (r.value <==> LoweredField(job, "company_name").value in FaangPlus)
  {
    match LoweredField(job, "company_name")
    case Ok(name) => Ok(name in FaangPlus)
    case Err(e) => Err(e)
  }

  // ------------------------------------------------------------ properties of the classifier

  /** Whatever the title, the stored label is one of the six category names. */
  lemma ClassifiedLabelIsKnown(job: map<string, Value>)
    requires "title" !in job || job["title"].VStr?
    ensures ClassifyJobCategory(job).Ok?
    ensures ClassifyJobCategory(job).value.Label() in CategoryLabels
  {
  }

  /** An IT keyword decides, whatever else the title contains. */
  lemma ITKeywordWins(title: string, j: nat)
    requires j < |ITTerms| && Contains(title, ITTerms[j])
    ensures ClassifyTitle(title) == ITSupport
  {
  }

  /** Each category is chosen exactly when its own rule matches and no earlier rule does. */
  lemma RulesApplyInOrder(t: string)
    ensures ClassifyTitle(t) == ITSupport <==> AnyIn(ITTerms, t)
    ensures ClassifyTitle(t) == Hardware <==> !AnyIn(ITTerms, t) && AnyIn(HardwareTerms, t)
    ensures ClassifyTitle(t) == Quant <==>
      !AnyIn(ITTerms, t) && !AnyIn(HardwareTerms, t) && AnyIn(QuantTerms, t)
    ensures ClassifyTitle(t) == DataScience <==>
      !AnyIn(ITTerms, t) && !AnyIn(HardwareTerms, t) && !AnyIn(QuantTerms, t)
      && AnyIn(DataScienceTerms, t)
    ensures ClassifyTitle(t) == Product <==>
      !AnyIn(ITTerms, t) && !AnyIn(HardwareTerms, t) && !AnyIn(QuantTerms, t)
      && !AnyIn(DataScienceTerms, t) && ProductRule(t)
    ensures ClassifyTitle(t) == Software <==>
      !AnyIn(ITTerms, t) && !AnyIn(HardwareTerms, t) && !AnyIn(QuantTerms, t)
      && !AnyIn(DataScienceTerms, t) && !ProductRule(t)
  {
  }

  /** No keyword of a table occurs in `s` when each keyword has a character,
      given in `witnesses`, that `s` lacks. */
  lemma {:induction false} NoTermIn(terms: seq<string>, s: string, witnesses: string)
    requires |witnesses| == |terms|
    requires forall j :: 0 <= j < |terms| ==> witnesses[j] in terms[j] && witnesses[j] !in s
    ensures !AnyIn(terms, s)
  {
    forall j | 0 <= j < |terms|
      ensures !Contains(s, terms[j])
    {
      MissingCharNotContained(s, terms[j], witnesses[j]);
    }
  }

  /** A hardware keyword decides a title without IT keywords, whatever later rules it also matches. */
  lemma HardwareBeforeLaterRules(t: string, j: nat)
    requires !AnyIn(ITTerms, t)
    requires j < |HardwareTerms| && Contains(t, HardwareTerms[j])
    ensures ClassifyTitle(t) == Hardware
  {
  }

  /** No keyword is empty, so nothing matches the empty title. */
  lemma NoTermInEmpty(terms: seq<string>)
    requires forall j :: 0 <= j < |terms| ==> terms[j] != []
    ensures !AnyIn(terms, [])
  {
    forall j | 0 <= j < |terms|
      ensures !Contains([], terms[j])
    {
      NothingButEmptyInEmpty(terms[j]);
    }
  }

  /** A record without a title is classified as "" and lands in the default category. */
  lemma MissingTitleIsSoftware(job: map<string, Value>)
    requires "title" !in job
    ensures ClassifyJobCategory(job) == Ok(Software)
  {
    NoTermInEmpty(ITTerms);
    NoTermInEmpty(HardwareTerms);
    NoTermInEmpty(QuantTerms);
    NoTermInEmpty(DataScienceTerms);
    NoTermInEmpty(ProductTerms);
    NothingButEmptyInEmpty("product");
  }

  /** The category depends on the title only through its lower-cased form:
      lower-casing the title first changes nothing. */
  lemma ClassifyIgnoresCase(job: map<string, Value>, title: string)
    requires "title" in job && job["title"] == VStr(title)
    ensures ClassifyJobCategory(job["title" := VStr(Lower(title))]) == ClassifyJobCategory(job)
  {
    LowerIdempotent(title);
  }

  // ------------------------------------------------------------ Listing.from_json

  /** The flat `Listing` record of this file. */
  datatype CronListing = CronListing(
    source: string,
    companyName: string,
    id: string,
    title: string,
    active: bool,
    dateUpdated: Instant,
    isVisible: bool,
    datePosted: Instant,
    url: string,
    locations: seq<string>,
    companyUrl: string,
    terms: seq<string>,
    sponsorship: string,
    category: string,
    faangPlus: bool,
    companyLogo: Option<string>)

  /** `datetime.fromtimestamp(raw.get(key, 0), tz=pst)`: a missing key reads as 0;
      `bool` is an `int` subclass in Python; any other value raises. */
  function Timestamp(m: map<string, Value>, key: string): (r: Outcome<Instant>)
    ensures key !in m ==> r == Ok(Instant(0))
    ensures key in m && m[key].VInt? ==> r == Ok(Instant(m[key].i))
    ensures r.Err? <==> key in m && !m[key].VInt? && !m[key].VBool?
  {
    var v := if key in m then m[key] else VInt(0);
    match v
    case VInt(n) => Ok(Instant(n))
    case VBool(b) => Ok(Instant(if b then 1 else 0))
    case _ => Err(TypeError)
  }

  predicate IsStr(m: map<string, Value>, k: string) { k in m && m[k].VStr? }
  predicate IsBool(m: map<string, Value>, k: string) { k in m && m[k].VBool? }
  predicate IsTime(m: map<string, Value>, k: string) { k in m && m[k].VTime? }
  predicate IsStrList(m: map<string, Value>, k: string) {
    k in m && m[k].VList? && AllStrings(m[k].items)
  }
  /** A `str | None = None` field: absent, None, or a string. */
  predicate IsOptStr(m: map<string, Value>, k: string) {
    k !in m || m[k].VNone? || m[k].VStr?
  }

  /** What `Listing.model_validate` accepts: every declared field with its type.
      Keys the model does not declare are ignored. */
  predicate ValidListing(m: map<string, Value>) {
    IsStr(m, "source") && IsStr(m, "company_name") && IsStr(m, "id") && IsStr(m, "title")
    && IsBool(m, "active") && IsTime(m, "date_updated") && IsBool(m, "is_visible")
    && IsTime(m, "date_posted") && IsStr(m, "url") && IsStrList(m, "locations")
    && IsStr(m, "company_url") && IsStrList(m, "terms") && IsStr(m, "sponsorship")
    && IsStr(m, "category") && IsBool(m, "faang_plus") && IsOptStr(m, "company_logo")
  }

  /** `Listing.model_validate(m)` */
  function Validate(m: map<string, Value>): Outcome<CronListing> {
    if !ValidListing(m) then Err(ValidationError)
    else Ok(CronListing(
      m["source"].s, m["company_name"].s, m["id"].s, m["title"].s, m["active"].b,
      m["date_updated"].t, m["is_visible"].b, m["date_posted"].t, m["url"].s,
      Strings(m["locations"].items), m["company_url"].s, Strings(m["terms"].items),
      m["sponsorship"].s, m["category"].s, m["faang_plus"].b,
      if "company_logo" in m then OptStr(m["company_logo"]) else None))
  }

  /** The keys `from_json` writes into the caller's dictionary. */
  const StampedKeys: set<string> := {"date_posted", "date_updated", "category", "faang_plus"}

  /** The four assignments `from_json` makes before validating (models/cron.py
      lines 101-105, models/listings.py lines 33-40): the dictionary they leave
      behind, and whether they all succeeded. Each assignment happens before the
      next value is computed, so a failure leaves the earlier assignments in place. */
  function StampEffect(m: map<string, Value>): (map<string, Value>, Outcome<()>) {
    match Timestamp(m, "date_posted")
    case Err(e) => (m, Err(e))
    case Ok(posted) =>
      var m1 := m["date_posted" := VTime(posted)];
      match Timestamp(m1, "date_updated")
      case Err(e) => (m1, Err(e))
      case Ok(updated) =>
        var m2 := m1["date_updated" := VTime(updated)];
        match ClassifyJobCategory(m2)
        case Err(e) => (m2, Err(e))
        case Ok(cat) =>
          var m3 := m2["category" := VStr(cat.Label())];
          match ClassifyFaangPlus(m3)
          case Err(e) => (m3, Err(e))
          case Ok(faang) => (m3["faang_plus" := VBool(faang)], Ok(()))
  }

  /** `Listing.from_json(raw)`: the dictionary `raw` is left holding, and what the
      call returns or raises. */
  function FromJsonEffect(m: map<string, Value>): (map<string, Value>, Outcome<CronListing>) {
    var (after, stamped) := StampEffect(m);
    if stamped.Err? then (after, Err(stamped.error)) else (after, Validate(after))
  }

  /** What `Listing.from_json(raw)` returns or raises. */
  function ParseListing(m: map<string, Value>): Outcome<CronListing> {
    FromJsonEffect(m).1
  }

  /** The four assignments of `from_json`, made on the caller's dictionary. */
  method Stamp(raw: PyDict) returns (r: Outcome<()>)
    modifies raw
    ensures (raw.entries, r) == StampEffect(old(raw.entries))
  {
    var posted := Timestamp(raw.entries, "date_posted");
    if posted.Err? {
      return Err(posted.error);
    }
    raw.Put("date_posted", VTime(posted.value));
    var updated := Timestamp(raw.entries, "date_updated");
    if updated.Err? {
      return Err(updated.error);
    }
    raw.Put("date_updated", VTime(updated.value));
    var category := ClassifyJobCategory(raw.entries);
    if category.Err? {
      return Err(category.error);
    }
    raw.Put("category", VStr(category.value.Label()));
    var faang := ClassifyFaangPlus(raw.entries);
    if faang.Err? {
      return Err(faang.error);
    }
    raw.Put("faang_plus", VBool(faang.value));
    r := Ok(());
  }

  /** `Listing.from_json(raw)`, updating the caller's dictionary in place. */
  method FromJson(raw: PyDict) returns (r: Outcome<CronListing>)
    modifies raw
    ensures (raw.entries, r) == FromJsonEffect(old(raw.entries))
  {
    var stamped := Stamp(raw);
    if stamped.Err? {
      return Err(stamped.error);
    }
    r := Validate(raw.entries);
  }

  // ------------------------------------------------------------ properties of from_json

  /** A parsed listing carries the classifiers' verdicts on the record's own title
      and company name, and the record's other fields unchanged. */
  lemma ParsedListingIsClassified(m: map<string, Value>)
    requires ParseListing(m).Ok?
    ensures "title" in m && m["title"].VStr? && "company_name" in m && m["company_name"].VStr?
    ensures "source" in m && m["source"].VStr? && "id" in m && m["id"].VStr?
    ensures ParseListing(m).value.category == ClassifyTitle(Lower(m["title"].s)).Label()
    ensures ParseListing(m).value.faangPlus == (Lower(m["company_name"].s) in FaangPlus)
    ensures ParseListing(m).value.title == m["title"].s
    ensures ParseListing(m).value.companyName == m["company_name"].s
    ensures ParseListing(m).value.source == m["source"].s && ParseListing(m).value.id == m["id"].s
  {
    var (after, r) := FromJsonEffect(m);
    assert Validate(after).Ok?;
  }

  /** The two keys whose incoming values `from_json` overwrites with the classifiers' verdicts. */
  const Labels: set<string> := {"category", "faang_plus"}

  lemma AgreeOutside(m: map<string, Value>, n: map<string, Value>, ks: set<string>, k: string)
    requires m - ks == n - ks && k !in ks
    ensures (k in m <==> k in n) && (k in m ==> m[k] == n[k])
  {
    assert k in m <==> k in m - ks;
    assert k in n <==> k in n - ks;
    if k in m {
      assert (m - ks)[k] == m[k];
    }
  }

  lemma UpdateAgreesOutside(m: map<string, Value>, n: map<string, Value>, ks: set<string>, k: string, v: Value)
    requires m - ks == n - ks
    ensures m[k := v] - ks == n[k := v] - ks
  {
    if k !in ks {
      assert m[k := v] - ks == (m - ks)[k := v];
      assert n[k := v] - ks == (n - ks)[k := v];
    } else {
      assert m[k := v] - ks == m - ks;
      assert n[k := v] - ks == n - ks;
    }
  }

  lemma TimestampAgrees(m: map<string, Value>, n: map<string, Value>, key: string)
    requires m - Labels == n - Labels && key !in Labels
    ensures Timestamp(m, key) == Timestamp(n, key)
  {
    AgreeOutside(m, n, Labels, key);
  }

  lemma ClassifiersAgree(m: map<string, Value>, n: map<string, Value>)
    requires m - Labels == n - Labels
    ensures ClassifyJobCategory(m) == ClassifyJobCategory(n)
    ensures ClassifyFaangPlus(m) == ClassifyFaangPlus(n)
  {
    AgreeOutside(m, n, Labels, "title");
    AgreeOutside(m, n, Labels, "company_name");
    assert LoweredField(m, "title") == LoweredField(n, "title");
    assert LoweredField(m, "company_name") == LoweredField(n, "company_name");
  }

  lemma EqualOnceLabelled(m: map<string, Value>, n: map<string, Value>, c: string, f: bool)
    requires m - Labels == n - Labels
    ensures m["category" := VStr(c)]["faang_plus" := VBool(f)] == n["category" := VStr(c)]["faang_plus" := VBool(f)]
  {
    var m', n' := m["category" := VStr(c)]["faang_plus" := VBool(f)], n["category" := VStr(c)]["faang_plus" := VBool(f)];
    forall k
      ensures k in m' <==> k in n'
      ensures k in m' ==> m'[k] == n'[k]
    {
      if k !in Labels {
        AgreeOutside(m, n, Labels, k);
      }
    }
  }

  /** Whatever `category` and `faang_plus` the feed supplied are discarded: two
      records that differ only there parse alike, and once both timestamps parse
      (and the classifiers run) they leave the very same dictionary behind, whether
      validation then succeeds or not. */
  lemma FromJsonIgnoresSuppliedLabels(m: map<string, Value>, n: map<string, Value>)
    requires m - Labels == n - Labels
    ensures FromJsonEffect(m).1 == FromJsonEffect(n).1
    ensures StampEffect(m).1.Ok? ==> FromJsonEffect(m).0 == FromJsonEffect(n).0
  {
    TimestampAgrees(m, n, "date_posted");
    var p := Timestamp(m, "date_posted");
    if p.Ok? {
      var m1, n1 := m["date_posted" := VTime(p.value)], n["date_posted" := VTime(p.value)];
      UpdateAgreesOutside(m, n, Labels, "date_posted", VTime(p.value));
      TimestampAgrees(m1, n1, "date_updated");
      var u := Timestamp(m1, "date_updated");
      if u.Ok? {
        var m2, n2 := m1["date_updated" := VTime(u.value)], n1["date_updated" := VTime(u.value)];
        UpdateAgreesOutside(m1, n1, Labels, "date_updated", VTime(u.value));
        ClassifiersAgree(m2, n2);
        var c := ClassifyJobCategory(m2);
        if c.Ok? {
          var m3, n3 := m2["category" := VStr(c.value.Label())], n2["category" := VStr(c.value.Label())];
          UpdateAgreesOutside(m2, n2, Labels, "category", VStr(c.value.Label()));
          ClassifiersAgree(m3, n3);
          var f := ClassifyFaangPlus(m3);
          if f.Ok? {
            EqualOnceLabelled(m2, n2, c.value.Label(), f.value);
          }
        }
      }
    }
  }

  lemma UpdateInside(m: map<string, Value>, ks: set<string>, k: string, v: Value)
    requires k in ks
    ensures m[k := v] - ks == m - ks
  {
  }

  /** The assignments change the caller's dictionary only at the four keys they write. */
  lemma StampWritesOnlyStampedKeys(m: map<string, Value>)
    ensures StampEffect(m).0 - StampedKeys == m - StampedKeys
  {
    var p := Timestamp(m, "date_posted");
    if p.Ok? {
      var m1 := m["date_posted" := VTime(p.value)];
      UpdateInside(m, StampedKeys, "date_posted", VTime(p.value));
      var u := Timestamp(m1, "date_updated");
      if u.Ok? {
        var m2 := m1["date_updated" := VTime(u.value)];
        UpdateInside(m1, StampedKeys, "date_updated", VTime(u.value));
        var c := ClassifyJobCategory(m2);
        if c.Ok? {
          var m3 := m2["category" := VStr(c.value.Label())];
          UpdateInside(m2, StampedKeys, "category", VStr(c.value.Label()));
          var f := ClassifyFaangPlus(m3);
          if f.Ok? {
            UpdateInside(m3, StampedKeys, "faang_plus", VBool(f.value));
          }
        }
      }
    }
  }

  /** When all four assignments succeed, `category` and `faang_plus` hold the two
      classifiers' verdicts on the dictionary as the caller passed it in. */
  lemma StampLabelsFromClassifiers(m: map<string, Value>)
    requires StampEffect(m).1.Ok?
    ensures ClassifyJobCategory(m).Ok? && ClassifyFaangPlus(m).Ok?
    ensures "category" in StampEffect(m).0 && "faang_plus" in StampEffect(m).0
    ensures StampEffect(m).0["category"] == VStr(ClassifyJobCategory(m).value.Label())
    ensures StampEffect(m).0["faang_plus"] == VBool(ClassifyFaangPlus(m).value)
  {
    var p := Timestamp(m, "date_posted").value;
    var m1 := m["date_posted" := VTime(p)];
    var m2 := m1["date_updated" := VTime(Timestamp(m1, "date_updated").value)];
    var m3 := m2["category" := VStr(ClassifyJobCategory(m2).value.Label())];
    assert LoweredField(m2, "title") == LoweredField(m, "title");
    assert LoweredField(m3, "company_name") == LoweredField(m, "company_name");
  }

  /** On success the four assigned keys hold exactly the parsed listing's values. */
  lemma FromJsonStampsParsedValues(m: map<string, Value>)
    requires FromJsonEffect(m).1.Ok?
    ensures var (after, r) := FromJsonEffect(m);
      after == m["date_posted" := VTime(r.value.datePosted)]["date_updated" := VTime(r.value.dateUpdated)]
        ["category" := VStr(r.value.category)]["faang_plus" := VBool(r.value.faangPlus)]
  {
  }
}

/** Worked examples of the classifier on concrete titles and company names. */
module ClassifierExamples {
  import opened Wrappers
  import opened Text
  import opened Values
  import opened JobClassifier

  const EmbeddedTitle: string := "embedded software engineer intern"

  /** The title has none of the letters c, p, h, k and l. */
  lemma EmbeddedTitleLacks()
    ensures 'c' !in EmbeddedTitle && 'p' !in EmbeddedTitle && 'h' !in EmbeddedTitle
    ensures 'k' !in EmbeddedTitle && 'l' !in EmbeddedTitle
  {
    assert EmbeddedTitle == "embedded" + " software" + " engineer" + " intern";
    WordLacks("embedded");
    WordLacks(" software");
    WordLacks(" engineer");
    WordLacks(" intern");
  }

  lemma WordLacks(w: string)
    requires w in ["embedded", " software", " engineer", " intern"]
    ensures 'c' !in w && 'p' !in w && 'h' !in w && 'k' !in w && 'l' !in w
  {
  }

  /** Every IT keyword has one of the letters c, p, h, k or l. */
  lemma NoITTermWithout(t: string)
    requires 'c' !in t && 'p' !in t && 'h' !in t && 'k' !in t && 'l' !in t
    ensures !AnyIn(ITTerms, t)
  {
    NoTermIn(ITTerms, t, "ccpchkhccll");
  }

  /** The title has the hardware keyword "embedded" (and the software keyword
      "software") but no IT keyword; the hardware rule, which comes before the
      software rule, wins. */
  lemma EmbeddedSoftwareIsHardware()
    ensures ClassifyTitle(EmbeddedTitle) == Hardware
  {
    EmbeddedTitleLacks();
    NoITTermWithout(EmbeddedTitle);
    StartsEmbedded(EmbeddedTitle);
  }

  lemma StartsEmbedded(t: string)
    requires |t| >= 8 && t[..8] == "embedded" && !AnyIn(ITTerms, t)
    ensures ClassifyTitle(t) == Hardware
  {
    ContainsAt(t, "embedded", 0);
    HardwareBeforeLaterRules(t, 1);
  }

  /** The title, once lower-cased, starts with the IT keyword "it support". */
  lemma ITSupportTechnicianIsIT()
    ensures ClassifyJobCategory(map["title" := VStr("IT Support Technician Intern")]) == Ok(ITSupport)
  {
    LoweredStartsWithITSupport("IT Support Technician Intern");
  }

  lemma LoweredStartsWithITSupport(title: string)
    requires |title| >= 10 && title[..10] == "IT Support"
    ensures ClassifyTitle(Lower(title)) == ITSupport
  {
    var t := Lower(title);
    assert t[0] == 'i' && t[1] == 't' && t[2] == ' ' && t[3] == 's' && t[4] == 'u'
      && t[5] == 'p' && t[6] == 'p' && t[7] == 'o' && t[8] == 'r' && t[9] == 't';
    assert t[0..10] == "it support";
    ContainsAt(t, "it support", 0);
    ITKeywordWins(t, 2);
  }

  lemma NoSpaceInFaangPlusA(name: string)
    requires ' ' in name || name == []
    ensures name !in FaangPlusA
  {
  }

  lemma NoSpaceInFaangPlusB(name: string)
    requires ' ' in name || name == []
    ensures name !in FaangPlusB
  {
  }

  lemma NoSpaceInFaangPlusC(name: string)
    requires ' ' in name || name == []
    ensures name !in FaangPlusC
  {
  }

  lemma NoSpaceInFaangPlusD(name: string)
    requires ' ' in name || name == []
    ensures name !in FaangPlusD
  {
  }

  /** No FAANG+ name is empty or contains a space. */
  lemma NameWithSpaceIsNotFaangPlus(name: string)
    requires ' ' in name || name == []
    ensures name !in FaangPlus
  {
    NoSpaceInFaangPlusA(name);
    NoSpaceInFaangPlusB(name);
    NoSpaceInFaangPlusC(name);
    NoSpaceInFaangPlusD(name);
    NoSpaceInFaangPlusE(name);
    assert name !in FaangPlusA + FaangPlusB + FaangPlusC + FaangPlusD + FaangPlusE;
  }

  lemma NoSpaceInFaangPlusE(name: string)
    requires ' ' in name || name == []
    ensures name !in FaangPlusE
  {
  }

  /** The name is not trimmed: a company name with a space anywhere, padding
      included, is never FAANG+. */
  lemma PaddedNameIsNotFaangPlus(name: string)
    requires ' ' in name
    ensures ClassifyFaangPlus(map["company_name" := VStr(name)]) == Ok(false)
  {
    var i :| 0 <= i < |name| && name[i] == ' ';
    assert Lower(name)[i] == ' ';
    NameWithSpaceIsNotFaangPlus(Lower(name));
  }

  lemma MetaIsFaangPlus()
    ensures ClassifyFaangPlus(map["company_name" := VStr("Meta")]) == Ok(true)
  {
    assert Lower("Meta") == "meta";
    assert "meta" in FaangPlusB;
  }

  lemma PaddedMetaIsNotFaangPlus()
    ensures ClassifyFaangPlus(map["company_name" := VStr("meta ")]) == Ok(false)
    ensures ClassifyFaangPlus(map["company_name" := VStr("Acme Corp")]) == Ok(false)
  {
    PaddedNameIsNotFaangPlus("meta ");
    PaddedNameIsNotFaangPlus("Acme Corp");
  }

  /** A record without a company name reads as "", which is not in the set. */
  lemma MissingNameIsNotFaangPlus()
    ensures ClassifyFaangPlus(map[]) == Ok(false)
  {
    NameWithSpaceIsNotFaangPlus([]);
  }
}
