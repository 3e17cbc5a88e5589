/** frontend/src/api/fetchData.ts: the file's own copy of `getApiHost`, used by
    `fetchData`. It is written here case by case on the environment name, as an
    independent reading of the same code, and proved equal to the copy in
    frontend/src/api/util.ts. */
module ApiHostFetchData {
  import opened Wrappers
  import opened Values
  import opened Vercel
  import ApiHostUtil
  import AllowedOrigin

  const DefaultHost := "http://localhost:8000"

  /** `relatedProjects[0]`, `undefined` (`None`) for an empty list. */
  function First(projects: seq<Project>): (p: Option<Project>)
    ensures p.Some? <==> projects != []
    ensures p.Some? ==> p.value == projects[0]
  {
    if projects == [] then None else Some(projects[0])
  }

  /** The preview branch of lines 16-18: `project.preview.branch`. */
  function PreviewBranch(project: Option<Project>): Outcome<Member<string>> {
    match project
    case None => Err(TypeError)
    case Some(p) =>
      match p.preview
      case Present(pv) => Ok(pv.branch)
      case _ => Err(TypeError)
  }

  /** The production branch of lines 21-29: `project.production`. */
  function ProductionRecord(project: Option<Project>): Outcome<Production> {
    match project
    case None => Err(TypeError)
    case Some(p) =>
      match p.production
      case Present(pr) => Ok(pr)
      case _ => Err(TypeError)
  }

  /** `getApiHost()` of fetchData.ts. */
  function GetApiHost(vercelEnv: Option<string>, relatedProjects: Option<seq<Project>>): (r: Outcome<string>)
    ensures r.Ok? ==> r.value == DefaultHost || IsHttpsHost(r.value)
  {
    match (vercelEnv, relatedProjects)
    case (Some(env), Some(projects)) =>
      if env == "preview" then
        match PreviewBranch(First(projects))
        case Err(e) => Err(e)
        case Ok(branch) => if Truthy(branch) then Ok(Https(branch.v)) else Ok(DefaultHost)
      else if env == "production" then
        match ProductionRecord(First(projects))
        case Err(e) => Err(e)
        case Ok(pr) =>
          if Truthy(pr.alias) then Ok(Https(pr.alias.v))
          else if Truthy(pr.url) then Ok(Https(pr.url.v))
          else Ok(DefaultHost)
      else Ok(DefaultHost)
    case _ => Ok(DefaultHost)
  }

  /** The two copies of `getApiHost` agree on every input. */
  lemma SameAsUtil(vercelEnv: Option<string>, relatedProjects: Option<seq<Project>>)
    ensures GetApiHost(vercelEnv, relatedProjects) == ApiHostUtil.GetApiHost(vercelEnv, relatedProjects)
  {
    if vercelEnv.Some? && relatedProjects.Some? {
      var env := vercelEnv.value;
      if env == "preview" || env == "production" {
        AllowedOrigin.EnvNamesDiffer(env);
      }
    }
  }
}
