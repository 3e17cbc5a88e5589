/** backend/app/models/companies.py: the company record, its defaults, and its
    positional codecs for rows of the `companies` table. */
module Companies {
  import opened Wrappers

  /** The id the record carries before the store has assigned one. */
  const UnsavedId: int := -1

  datatype Company = Company(id: int, name: string, url: string, logoUrl: Option<string>)

  /** A row `(id, name, url, logo_url)` as the database returns it. */
  type CompanyRow = (int, string, string, Option<string>)

  /** `Company(name=..., url=...)`: the pydantic defaults fill in the other two fields. */
  function NewCompany(name: string, url: string): (c: Company)
    ensures c.id == UnsavedId && c.logoUrl == None
    ensures c.name == name && c.url == url
  {
    Company(UnsavedId, name, url, None)
  }

  /** `Company.from_tuple`: positions 0..3 become id, name, url, logo_url. */
  function FromTuple(t: CompanyRow): (c: Company)
    ensures c.id == t.0 && c.name == t.1 && c.url == t.2 && c.logoUrl == t.3
  {
    Company(t.0, t.1, t.2, t.3)
  }

  /** `Company.to_tuple`: the insertable columns; the store-assigned id is left out. */
  function ToTuple(c: Company): (t: (string, string, Option<string>))
    ensures t.0 == c.name && t.1 == c.url && t.2 == c.logoUrl
  {
    (c.name, c.url, c.logoUrl)
  }

  /** Decoding a row and encoding it again drops exactly the id column. */
  lemma ToTupleFromTuple(t: CompanyRow)
    ensures ToTuple(FromTuple(t)) == (t.1, t.2, t.3)
  {
  }

  /** A record is recovered from its id and its insertable columns. */
  lemma FromTupleToTuple(c: Company)
    ensures FromTuple((c.id, ToTuple(c).0, ToTuple(c).1, ToTuple(c).2)) == c
  {
  }
}
