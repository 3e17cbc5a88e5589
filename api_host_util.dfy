/** frontend/src/api/util.ts: `getApiHost`, the backend host the frontend sends its
    requests to. The two build-time environment values are parameters;
    `VERCEL_RELATED_PROJECTS` is given already parsed. A property read on
    `undefined` or `null` is JavaScript's `TypeError`. */
module ApiHostUtil {
  import opened Wrappers
  import opened Values
  import opened Vercel
  import AllowedOrigin

  const DefaultHost := "http://localhost:8000"

  /** `getApiHost()`; `None` stands for an `undefined` environment value. */
  function GetApiHost(vercelEnv: Option<string>, relatedProjects: Option<seq<Project>>): (r: Outcome<string>)
    ensures r.Ok? ==> r.value == DefaultHost || IsHttpsHost(r.value)
    ensures r.Err? ==> r.error == TypeError
    ensures r.Err? <==> (vercelEnv.Some? && relatedProjects.Some?
      && ((vercelEnv.value == "preview" && (relatedProjects.value == [] || !relatedProjects.value[0].preview.Present?))
          || (vercelEnv.value == "production"
              && (relatedProjects.value == [] || !relatedProjects.value[0].production.Present?))))
  {
    if vercelEnv.None? || relatedProjects.None? then Ok(DefaultHost)
    else
      var env := vercelEnv.value;
      // `relatedProjects[0]` is `undefined` for an empty list
      var project := if relatedProjects.value == [] then None else Some(relatedProjects.value[0]);
      if env == "preview" && (project.None? || !project.value.preview.Present?) then Err(TypeError)
      else if env == "preview" && Truthy(project.value.preview.v.branch) then Ok(Https(project.value.preview.v.branch.v))
      else if env == "production" then
        if project.None? || !project.value.production.Present? then Err(TypeError)
        else if Truthy(project.value.production.v.alias) then Ok(Https(project.value.production.v.alias.v))
        else if Truthy(project.value.production.v.url) then Ok(Https(project.value.production.v.url.v))
        else Ok(DefaultHost)
      else Ok(DefaultHost)
  }

  // ------------------------------------------------------------ properties

  /** Run locally (either value undefined) the host is the development backend. */
  lemma LocalIsDefault(vercelEnv: Option<string>, relatedProjects: Option<seq<Project>>)
    requires vercelEnv.None? || relatedProjects.None?
    ensures GetApiHost(vercelEnv, relatedProjects) == Ok(DefaultHost)
  {
  }

  /** Only the first related project is consulted. */
  lemma OnlyFirstProject(vercelEnv: Option<string>, project: Project, rest: seq<Project>, rest': seq<Project>)
    ensures GetApiHost(vercelEnv, Some([project] + rest)) == GetApiHost(vercelEnv, Some([project] + rest'))
  {
    assert ([project] + rest)[0] == ([project] + rest')[0];
  }

  /** A preview build talks to its branch host, falling back to the default when the
      branch is not truthy. */
  lemma PreviewHost(projects: seq<Project>)
    requires projects != [] && projects[0].preview.Present?
    ensures var r := GetApiHost(Some("preview"), Some(projects));
      var b := projects[0].preview.v.branch;
      (Truthy(b) ==> r == Ok(Https(b.v))) && (!Truthy(b) ==> r == Ok(DefaultHost))
  {
    AllowedOrigin.EnvNamesDiffer("preview");
  }

  /** A production build talks to the alias, or failing that the url, or failing
      both the default. */
  lemma ProductionHost(projects: seq<Project>)
    requires projects != [] && projects[0].production.Present?
    ensures var r := GetApiHost(Some("production"), Some(projects));
      var pr := projects[0].production.v;
      (Truthy(pr.alias) ==> r == Ok(Https(pr.alias.v)))
      && (!Truthy(pr.alias) && Truthy(pr.url) ==> r == Ok(Https(pr.url.v)))
      && (!Truthy(pr.alias) && !Truthy(pr.url) ==> r == Ok(DefaultHost))
  {
    AllowedOrigin.EnvNamesDiffer("production");
  }

  /** Any other environment name gives the default, even with no related project
      (unlike `get_allowed_origin`, which indexes the list first). */
  lemma OtherEnvIsDefault(env: string, projects: seq<Project>)
    requires env != "preview" && env != "production"
    ensures GetApiHost(Some(env), Some(projects)) == Ok(DefaultHost)
  {
  }

  /** Neither default is an `https://` host. */
  lemma DefaultsAreNotHttps()
    ensures !IsHttpsHost(DefaultHost) && !IsHttpsHost(AllowedOrigin.DefaultUrl)
  {
    assert DefaultHost[4] != "https://"[4];
    assert AllowedOrigin.DefaultUrl[4] != "https://"[4];
  }

  /** The frontend and the backend pick the same deployed host: whenever one of them
      names an `https://` host the other names the same one. */
  lemma AgreesWithAllowedOrigin(vercelEnv: Option<string>, relatedProjects: Option<seq<Project>>)
    ensures var host := GetApiHost(vercelEnv, relatedProjects);
      var origin := AllowedOrigin.GetAllowedOrigin(vercelEnv, relatedProjects);
      ((host.Ok? && IsHttpsHost(host.value)) <==> (origin.Ok? && IsHttpsHost(origin.value)))
      && (host.Ok? && IsHttpsHost(host.value) ==> host == origin)
  {
    DefaultsAreNotHttps();
    if vercelEnv.Some? && relatedProjects.Some? && relatedProjects.value != [] {
      var env := vercelEnv.value;
      if env == "preview" {
        AllowedOrigin.EnvNamesDiffer(env);
      } else if env == "production" {
        AllowedOrigin.EnvNamesDiffer(env);
      }
    }
  }
}
