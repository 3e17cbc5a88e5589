/** backend/app/util/origin.py: `get_allowed_origin`, the frontend origin the backend
    admits for cross-origin requests. The two environment values are parameters;
    `VERCEL_RELATED_PROJECTS` is given already parsed. */
module AllowedOrigin {
  import opened Wrappers
  import opened Values
  import opened Vercel

  const DefaultUrl := "http://localhost:5173"

  /** `project.get("preview", {}).get("branch")`, when truthy, as a host. A `null`
      preview has no `.get` and raises. */
  function PreviewHost(project: Project): Outcome<Option<string>> {
    match project.preview
    case Missing => Ok(None)
    case Null => Err(AttributeError)
    case Present(p) => if Truthy(p.branch) then Ok(Some(p.branch.v)) else Ok(None)
  }

  /** The production alias if truthy, else the production url if truthy. */
  function ProductionHost(project: Project): Outcome<Option<string>> {
    match project.production
    case Missing => Ok(None)
    case Null => Err(AttributeError)
    case Present(p) =>
      if Truthy(p.alias) then Ok(Some(p.alias.v))
      else if Truthy(p.url) then Ok(Some(p.url.v))
      else Ok(None)
  }

  /** `get_allowed_origin()`; `None` stands for an unset environment variable. */
  function GetAllowedOrigin(vercelEnv: Option<string>, relatedProjects: Option<seq<Project>>): (r: Outcome<string>)
    ensures r.Ok? ==> r.value == DefaultUrl || IsHttpsHost(r.value)
    ensures r.Err? <==> (vercelEnv.Some? && relatedProjects.Some?
      && (relatedProjects.value == []
          || (vercelEnv.value == "preview" && relatedProjects.value[0].preview.Null?)
          || (vercelEnv.value == "production" && relatedProjects.value[0].production.Null?)))
  {
    if vercelEnv.None? || relatedProjects.None? then Ok(DefaultUrl)
    else if relatedProjects.value == [] then Err(IndexError)
    else
      var project := relatedProjects.value[0];
      var env := vercelEnv.value;
      var preview := if env == "preview" then PreviewHost(project) else Ok(None);
      if preview.Err? then Err(preview.error)
      else if preview.value.Some? then Ok(Https(preview.value.value))
      else
        var production := if env == "production" then ProductionHost(project) else Ok(None);
        if production.Err? then Err(production.error)
        else if production.value.Some? then Ok(Https(production.value.value))
        else Ok(DefaultUrl)
  }

  // ------------------------------------------------------------ properties

  /** Run locally (either variable unset) the origin is the development server. */
  lemma LocalIsDefault(vercelEnv: Option<string>, relatedProjects: Option<seq<Project>>)
    requires vercelEnv.None? || relatedProjects.None?
    ensures GetAllowedOrigin(vercelEnv, relatedProjects) == Ok(DefaultUrl)
  {
  }

  /** Only the first related project is consulted. */
  lemma OnlyFirstProject(vercelEnv: Option<string>, project: Project, rest: seq<Project>, rest': seq<Project>)
    ensures GetAllowedOrigin(vercelEnv, Some([project] + rest)) == GetAllowedOrigin(vercelEnv, Some([project] + rest'))
  {
    assert ([project] + rest)[0] == ([project] + rest')[0];
  }

  /** A preview deployment admits its branch host; without a truthy branch (or
      without a preview record) it falls through to the default. */
  lemma PreviewOrigin(projects: seq<Project>)
    requires projects != [] && !projects[0].preview.Null?
    ensures var r := GetAllowedOrigin(Some("preview"), Some(projects));
      var pv := projects[0].preview;
      (pv.Present? && Truthy(pv.v.branch) ==> r == Ok(Https(pv.v.branch.v)))
      && (!(pv.Present? && Truthy(pv.v.branch)) ==> r == Ok(DefaultUrl))
  {
    EnvNamesDiffer("preview");
  }

  /** A production deployment admits its alias, or failing that its url, or failing
      both (or without a production record) the default. */
  lemma ProductionOrigin(projects: seq<Project>)
    requires projects != [] && !projects[0].production.Null?
    ensures var r := GetAllowedOrigin(Some("production"), Some(projects));
      var pr := projects[0].production;
      (pr.Present? && Truthy(pr.v.alias) ==> r == Ok(Https(pr.v.alias.v)))
      && (pr.Present? && !Truthy(pr.v.alias) && Truthy(pr.v.url) ==> r == Ok(Https(pr.v.url.v)))
      && (pr.Missing? || (!Truthy(pr.v.alias) && !Truthy(pr.v.url)) ==> r == Ok(DefaultUrl))
  {
    EnvNamesDiffer("production");
  }

  /** Any other environment name gives the default, once there is a first project. */
  lemma OtherEnvIsDefault(env: string, projects: seq<Project>)
    requires env != "preview" && env != "production" && projects != []
    ensures GetAllowedOrigin(Some(env), Some(projects)) == Ok(DefaultUrl)
  {
  }

  lemma EnvNamesDiffer(env: string)
    requires env == "preview" || env == "production"
    ensures (env == "preview") != (env == "production")
  {
    assert |"preview"| != |"production"|;
  }
}
