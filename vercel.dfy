/** The parsed `VERCEL_RELATED_PROJECTS` environment value both ends of the
    application read: a JSON list of projects, each with optional `preview` and
    `production` records of host names. */
module Vercel {
  /** A member of a JSON object: absent, `null`, or present with a value. */
  datatype Member<T> = Missing | Null | Present(v: T)

  /** `preview`: the branch deployment's host. */
  datatype Preview = Preview(branch: Member<string>)

  /** `production`: the production alias and deployment url. */
  datatype Production = Production(alias: Member<string>, url: Member<string>)

  /** One related project. */
  datatype Project = Project(preview: Member<Preview>, production: Member<Production>)

  /** The truthiness of a host member, the same in Python and JavaScript: a
      non-empty string. */
  predicate Truthy(m: Member<string>) {
    m.Present? && m.v != ""
  }

  /** Whether `s` is `https://` followed by a non-empty host. */
  predicate IsHttpsHost(s: string) {
    |s| > 8 && s[..8] == "https://"
  }

  /** The template `https://${host}`. */
  function Https(host: string): (s: string)
    ensures |s| == 8 + |host| && s[8..] == host
    ensures host != "" ==> IsHttpsHost(s)
  {
    assert ("https://" + host)[..8] == "https://";
    "https://" + host
  }
}
