/** The Dokploy orchestration: the requests sent to the platform's HTTP API to create a project,
 *  its applications, their source links, domains, environments and deployments. The platform
 *  is an oracle that answers each request, and may take every earlier request into account.
 *  Functions state the traffic of each operation as a value; the `DokployManager` class sends
 *  the requests one by one and is proved to produce exactly that traffic. */
module Dokploy {
  import opened Common
  import opened FileSystem
  import opened GitUtils
  import opened Monorepo

  // ---------------------------------------------------------------------------
  // Requests and answers

  /** An element of a listing: its own identifier (`serverId` or `githubId`) and its `id`; the
   *  empty string stands for a missing or falsy field. */
  datatype Item = Item(ownId: string, id: string)

  /** The body of a successful answer: none at all, an object, or a list. For an object, `id`
   *  is the identifier the caller reads from it (`projectId` or `applicationId`). */
  datatype Data = Empty | Record(id: string) | List(items: seq<Item>)

  /** An answer: a failure (a thrown request error) or a body. */
  datatype Response = Failed(message: string) | Answered(data: Data)

  datatype AppPayload = AppPayload(name: string, projectId: string, appName: string, description: string,
                                   serverId: Option<string>)

  datatype GithubPayload = GithubPayload(applicationId: string, repository: string, owner: string,
                                         branch: string, buildPath: string, githubId: string)

  datatype DomainPayload = DomainPayload(host: string, path: string, port: nat, https: bool,
                                         applicationId: string, certificateType: string, domainType: string)

  datatype EnvPayload = EnvPayload(applicationId: string, env: string, buildArgs: string)

  /** One call of the HTTP API, with its payload. */
  datatype Request =
    | ListServers
    | ListGithubProviders
    | CreateProject(name: string, description: string)
    | CreateApplication(app: AppPayload)
    | SaveGithubProvider(github: GithubPayload)
    | CreateDomain(domain: DomainPayload)
    | SaveEnvironment(env: EnvPayload)
    | Deploy(applicationId: string)

  /** The path of the API endpoint a request goes to, below the instance URL. */
  function Endpoint(r: Request): string
  {
    match r
    case ListServers => "/api/server.withSSHKey"
    case ListGithubProviders => "/api/github.githubProviders"
    case CreateProject(_, _) => "/api/project.create"
    case CreateApplication(_) => "/api/application.create"
    case SaveGithubProvider(_) => "/api/application.saveGithubProvider"
    case CreateDomain(_) => "/api/domain.create"
    case SaveEnvironment(_) => "/api/application.saveEnvironment"
    case Deploy(_) => "/api/application.deploy"
  }

  /** The platform: the answer to a request, given the requests sent before it. */
  type Platform = (seq<Request>, Request) -> Response

  /** Why project or application creation fails: the request failed, or the answer had no body. */
  datatype ApiError = RequestFailed(message: string) | MissingData

  /** The traffic of an operation: every request sent, in order, and the outcome. */
  datatype Traffic<T> = Traffic(log: seq<Request>, result: Result<T, ApiError>)

  /** An application created for a monorepo folder. */
  datatype CreatedApp = CreatedApp(name: string, path: string, applicationId: string, host: string)

  /** What the orchestration depends on besides the platform: the file system, the working
   *  directory, the wildcard domain and the identifiers resolved with the project. */
  datatype Context = Context(tree: Tree, cwd: string, domain: string, serverId: Option<string>,
                             githubId: Option<string>)

  // ---------------------------------------------------------------------------
  // Reading answers

  /** The lookup of a server or a GitHub integration: the first element's own identifier, else
   *  its `id`; nothing for a failed request, a body that is not a non-empty list, or an element
   *  with neither. */
  function FirstListedId(resp: Response): (r: Option<string>)
    ensures r.Some? ==> r.value != ""
    ensures r.Some? <==> resp.Answered? && resp.data.List? && |resp.data.items| > 0
                         && (resp.data.items[0].ownId != "" || resp.data.items[0].id != "")
    ensures r.Some? && resp.data.items[0].ownId != "" ==> r.value == resp.data.items[0].ownId
    ensures r.Some? && resp.data.items[0].ownId == "" ==> r.value == resp.data.items[0].id
  {
    match resp
    case Failed(_) => None
    case Answered(data) =>
      if data.List? && |data.items| > 0 then
        var first := data.items[0];
        if first.ownId != "" then Some(first.ownId)
        else if first.id != "" then Some(first.id)
        else None
      else None
  }

  /** The identifier of a created project or application. Reading it from a missing body throws;
   *  a body without the field gives the empty string. */
  function CreatedId(resp: Response): (r: Result<string, ApiError>)
    ensures r.Err? <==> resp.Failed? || resp.data.Empty?
    ensures resp.Answered? && resp.data.Record? ==> r == Ok(resp.data.id)
    ensures resp.Answered? && resp.data.List? ==> r == Ok("")
  {
    match resp
    case Failed(message) => Err(RequestFailed(message))
    case Answered(Empty) => Err(MissingData)
    case Answered(Record(id)) => Ok(id)
    case Answered(List(_)) => Ok("")
  }

  /** What the swallowing steps return: the body of an answer, or nothing for a failure. */
  function AnswerData(resp: Response): Option<Data>
  {
    match resp
    case Failed(_) => None
    case Answered(data) => Some(data)
  }

  // ---------------------------------------------------------------------------
  // Payloads and the traffic of each step

  function ProjectRequest(folderName: string): Request
  {
    CreateProject(folderName, "Auto-generated project for " + folderName)
  }

  /** The outcome of `createProject`: the traffic, and the server and integration identifiers
   *  the manager holds afterwards. */
  datatype ProjectOutcome = ProjectOutcome(log: seq<Request>, result: Result<string, ApiError>,
                                           serverId: Option<string>, githubId: Option<string>)

  /** `createProject`: the project, then the two lookups; a failed creation sends nothing more
   *  and leaves the identifiers as they were. */
  function ProjectSetup(p: Platform, h: seq<Request>, folderName: string,
                        serverId: Option<string>, githubId: Option<string>): ProjectOutcome
  {
    var h1 := h + [ProjectRequest(folderName)];
    match CreatedId(p(h, ProjectRequest(folderName)))
    case Err(e) => ProjectOutcome(h1, Err(e), serverId, githubId)
    case Ok(projectId) =>
      var server := FirstListedId(p(h1, ListServers));
      var h2 := h1 + [ListServers];
      var github := FirstListedId(p(h2, ListGithubProviders));
      ProjectOutcome(h2 + [ListGithubProviders], Ok(projectId), server, github)
  }

  /** `configureGitHubRepository`: nothing without an integration, otherwise the parsed owner and
   *  repository on branch `main` with the given build path. */
  function LinkRequests(githubId: Option<string>, applicationId: string, buildPath: string,
                        remoteUrl: string): seq<Request>
  {
    match githubId
    case None => []
    case Some(id) =>
      var repo := ParseGitHubUrl(remoteUrl);
      [SaveGithubProvider(GithubPayload(applicationId, repo.repository, repo.owner, "main", buildPath, id))]
  }

  /** `createDomain`: the host on path `/`, port 3000, HTTPS with a Let's Encrypt certificate. */
  function DomainRequest(applicationId: string, host: string): Request
  {
    CreateDomain(DomainPayload(host, "/", 3000, true, applicationId, "letsencrypt", "application"))
  }

  /** `saveEnvironment`, sent only for content that was read and is not empty. */
  function EnvRequests(applicationId: string, content: Option<string>): seq<Request>
  {
    if content.Some? && content.value != "" then [SaveEnvironment(EnvPayload(applicationId, content.value, ""))]
    else []
  }

  /** The steps after an application is created: link (when there is a remote and an id),
   *  domain, environment, deployment. Their answers are not consulted, so the platform does not
   *  appear. */
  function AfterCreate(githubId: Option<string>, applicationId: string, buildPath: string, remoteUrl: string,
                       host: string, content: Option<string>): seq<Request>
  {
    (if remoteUrl != "" && applicationId != "" then LinkRequests(githubId, applicationId, buildPath, remoteUrl) else [])
    + [DomainRequest(applicationId, host)] + EnvRequests(applicationId, content) + [Deploy(applicationId)]
  }

  /** The environment files, in order of priority. */
  const EnvFileNames: seq<string> := [".env", ".env.local", ".env.example"]

  datatype EnvFile = EnvFile(file: string, path: string)

  /** The first of `names` that exists in `base`. */
  function FirstEnvFile(t: Tree, base: string, names: seq<string>): Option<EnvFile>
    decreases |names|
  {
    if names == [] then None
    else if Exists(t, Join(base, names[0])) then Some(EnvFile(names[0], Join(base, names[0])))
    else FirstEnvFile(t, base, names[1..])
  }

  /** The env file found is the first name, in priority order, that exists under `base`; there
   *  is none exactly when no name exists. */
  lemma {:induction false} FirstEnvFileFinds(t: Tree, base: string, names: seq<string>)
    ensures var r := FirstEnvFile(t, base, names);
            r.None? <==> forall i :: 0 <= i < |names| ==> !Exists(t, Join(base, names[i]))
    ensures var r := FirstEnvFile(t, base, names);
            r.Some? ==>
              exists i :: (0 <= i < |names| && r.value == EnvFile(names[i], Join(base, names[i]))
                           && Exists(t, Join(base, names[i]))
                           && forall j :: 0 <= j < i ==> !Exists(t, Join(base, names[j])))
    decreases |names|
  {
    if names != [] && !Exists(t, Join(base, names[0])) {
      FirstEnvFileFinds(t, base, names[1..]);
      assert forall i :: 0 < i < |names| ==> names[i] == names[1..][i - 1];
      var r := FirstEnvFile(t, base, names);
      if r.Some? {
        var i :| 0 <= i < |names| - 1 && r.value == EnvFile(names[1..][i], Join(base, names[1..][i]))
                 && Exists(t, Join(base, names[1..][i]))
                 && forall j :: 0 <= j < i ==> !Exists(t, Join(base, names[1..][j]));
        assert names[i + 1] == names[1..][i];
        assert forall j :: 0 < j < i + 1 ==> names[j] == names[1..][j - 1];
      }
    }
  }

  /** The content a single application's environment comes from: the root's first env file. */
  function RootEnv(t: Tree, cwd: string): Option<string>
  {
    match FirstEnvFile(t, cwd, EnvFileNames)
    case None => None
    case Some(f) => ReadFile(t, f.path)
  }

  /** A monorepo application's environment: its own directory's first env file; only when it
   *  has none, the root's. */
  function MonorepoEnv(t: Tree, cwd: string, path: string): Option<string>
  {
    match FirstEnvFile(t, Join(cwd, path), EnvFileNames)
    case None => RootEnv(t, cwd)
    case Some(f) => ReadFile(t, f.path)
  }

  function SingleAppRequest(ctx: Context, projectId: string, folderName: string): Request
  {
    CreateApplication(AppPayload("app", projectId, folderName, "Main application", ctx.serverId))
  }

  function MonorepoAppRequest(ctx: Context, projectId: string, folder: Folder): Request
  {
    CreateApplication(AppPayload(folder.name, projectId, folder.name, "Application for " + folder.name, ctx.serverId))
  }

  function SingleHost(ctx: Context, folderName: string): string
  {
    folderName + "." + ctx.domain
  }

  function MonorepoHost(ctx: Context, folderName: string, folder: Folder): string
  {
    folderName + "-" + folder.name + "." + ctx.domain
  }

  /** `createSingleApplication`: application `app` built from the root. */
  function SingleTraffic(p: Platform, h: seq<Request>, ctx: Context, projectId: string, folderName: string,
                         remoteUrl: string): Traffic<string>
  {
    var req := SingleAppRequest(ctx, projectId, folderName);
    match CreatedId(p(h, req))
    case Err(e) => Traffic(h + [req], Err(e))
    case Ok(applicationId) =>
      Traffic(h + [req] + AfterCreate(ctx.githubId, applicationId, ".", remoteUrl, SingleHost(ctx, folderName),
                                      RootEnv(ctx.tree, ctx.cwd)),
              Ok(applicationId))
  }

  /** One iteration of `createMonorepoApplications`. */
  function AppTraffic(p: Platform, h: seq<Request>, ctx: Context, projectId: string, folder: Folder,
                      remoteUrl: string, folderName: string): Traffic<CreatedApp>
  {
    var req := MonorepoAppRequest(ctx, projectId, folder);
    match CreatedId(p(h, req))
    case Err(e) => Traffic(h + [req], Err(e))
    case Ok(applicationId) =>
      var host := MonorepoHost(ctx, folderName, folder);
      Traffic(h + [req] + AfterCreate(ctx.githubId, applicationId, folder.path, remoteUrl, host,
                                      MonorepoEnv(ctx.tree, ctx.cwd, folder.path)),
              Ok(CreatedApp(folder.name, folder.path, applicationId, host)))
  }

  /** `createMonorepoApplications`: the folders one after the other; the first failed creation
   *  ends the loop. */
  function MonorepoTraffic(p: Platform, h: seq<Request>, ctx: Context, projectId: string, folders: seq<Folder>,
                           remoteUrl: string, folderName: string): (r: Traffic<seq<CreatedApp>>)
    ensures |h| <= |r.log| && r.log[..|h|] == h
    decreases |folders|
  {
    if folders == [] then Traffic(h, Ok([]))
    else
      var before := MonorepoTraffic(p, h, ctx, projectId, folders[..|folders| - 1], remoteUrl, folderName);
      match before.result
      case Err(_) => before
      case Ok(apps) =>
        var step := AppTraffic(p, before.log, ctx, projectId, folders[|folders| - 1], remoteUrl, folderName);
        assert (before.log + step.log[|before.log|..])[..|h|] == h;
        match step.result
        case Err(e) => Traffic(step.log, Err(e))
        case Ok(app) => Traffic(step.log, Ok(apps + [app]))
  }

  // ---------------------------------------------------------------------------
  // Properties

  /** The lookups never make project creation fail: its outcome depends only on the answer to
   *  the creation request. */
  lemma ProjectIgnoresLookups(p1: Platform, p2: Platform, h: seq<Request>, folderName: string,
                              serverId: Option<string>, githubId: Option<string>)
    requires p1(h, ProjectRequest(folderName)) == p2(h, ProjectRequest(folderName))
    ensures ProjectSetup(p1, h, folderName, serverId, githubId).result
            == ProjectSetup(p2, h, folderName, serverId, githubId).result
    ensures ProjectSetup(p1, h, folderName, serverId, githubId).log
            == ProjectSetup(p2, h, folderName, serverId, githubId).log
  {
  }

  /** A created project is followed by the server lookup and the integration lookup, whose
   *  results become the manager's identifiers. */
  lemma ProjectLookups(p: Platform, h: seq<Request>, folderName: string,
                       serverId: Option<string>, githubId: Option<string>)
    ensures var o := ProjectSetup(p, h, folderName, serverId, githubId);
            o.result.Ok? <==> CreatedId(p(h, ProjectRequest(folderName))).Ok?
    ensures var o := ProjectSetup(p, h, folderName, serverId, githubId);
            o.result.Ok? ==>
              o.log == h + [ProjectRequest(folderName), ListServers, ListGithubProviders]
              && o.serverId == FirstListedId(p(h + [ProjectRequest(folderName)], ListServers))
              && o.githubId == FirstListedId(p(h + [ProjectRequest(folderName), ListServers], ListGithubProviders))
    ensures var o := ProjectSetup(p, h, folderName, serverId, githubId);
            o.result.Err? ==> o.log == h + [ProjectRequest(folderName)] && o.serverId == serverId && o.githubId == githubId
  {
    assert h + [ProjectRequest(folderName)] + [ListServers] == h + [ProjectRequest(folderName), ListServers];
    assert h + [ProjectRequest(folderName), ListServers] + [ListGithubProviders]
           == h + [ProjectRequest(folderName), ListServers, ListGithubProviders];
  }

  /** The kinds of request the steps after creation send, and the two that are always sent. */
  lemma AfterCreateKinds(githubId: Option<string>, applicationId: string, buildPath: string, remoteUrl: string,
                         host: string, content: Option<string>)
    ensures var rs := AfterCreate(githubId, applicationId, buildPath, remoteUrl, host, content);
            DomainRequest(applicationId, host) in rs && rs != [] && rs[|rs| - 1] == Deploy(applicationId)
    ensures var rs := AfterCreate(githubId, applicationId, buildPath, remoteUrl, host, content);
            forall r :: r in rs ==> r.SaveGithubProvider? || r.CreateDomain? || r.SaveEnvironment? || r.Deploy?
  {
    var rs := AfterCreate(githubId, applicationId, buildPath, remoteUrl, host, content);
    var link := if remoteUrl != "" && applicationId != "" then LinkRequests(githubId, applicationId, buildPath, remoteUrl)
                else [];
    var env := EnvRequests(applicationId, content);
    assert forall r :: r in link ==> r.SaveGithubProvider?;
    assert forall r :: r in env ==> r.SaveEnvironment?;
    assert rs == link + [DomainRequest(applicationId, host)] + env + [Deploy(applicationId)];
  }

  /** The steps after creation send a link exactly when there is a remote, an application id
   *  and an integration, and then with the parsed owner and repository on branch `main`. */
  lemma AfterCreateLink(githubId: Option<string>, applicationId: string, buildPath: string, remoteUrl: string,
                        host: string, content: Option<string>)
    ensures var rs := AfterCreate(githubId, applicationId, buildPath, remoteUrl, host, content);
            (exists r :: r in rs && r.SaveGithubProvider?) <==> remoteUrl != "" && applicationId != "" && githubId.Some?
    ensures var rs := AfterCreate(githubId, applicationId, buildPath, remoteUrl, host, content);
            forall r :: r in rs && r.SaveGithubProvider? ==>
              r.github == GithubPayload(applicationId, ParseGitHubUrl(remoteUrl).repository,
                                        ParseGitHubUrl(remoteUrl).owner, "main", buildPath, githubId.value)
  {
    var rs := AfterCreate(githubId, applicationId, buildPath, remoteUrl, host, content);
    var domain := DomainRequest(applicationId, host);
    var deploy := Deploy(applicationId);
    var env := EnvRequests(applicationId, content);
    assert forall r :: r in env ==> r.SaveEnvironment?;
    if remoteUrl != "" && applicationId != "" && githubId.Some? {
      var repo := ParseGitHubUrl(remoteUrl);
      var link := SaveGithubProvider(GithubPayload(applicationId, repo.repository, repo.owner, "main", buildPath,
                                                   githubId.value));
      assert LinkRequests(githubId, applicationId, buildPath, remoteUrl) == [link];
      assert rs == [link] + ([domain] + env + [deploy]);
      assert rs[0] == link;
      TailUnlinked(domain, env, deploy);
      forall r | r in rs && r.SaveGithubProvider? ensures r == link {
        InParts([link], [domain] + env + [deploy], r);
      }
    } else {
      assert rs == [domain] + env + [deploy];
      TailUnlinked(domain, env, deploy);
    }
  }

  /** The domain, environment and deployment requests hold no link. Stated apart, over plain
   *  values, only to keep the proofs that use it within the solver's limits. */
  lemma TailUnlinked(domain: Request, env: seq<Request>, deploy: Request)
    requires domain.CreateDomain? && deploy.Deploy? && forall r :: r in env ==> r.SaveEnvironment?
    ensures forall r :: r in [domain] + env + [deploy] ==> !r.SaveGithubProvider?
  {
    forall r | r in [domain] + env + [deploy] ensures !r.SaveGithubProvider? {
      InParts([domain] + env, [deploy], r);
      if r in [domain] + env {
        InParts([domain], env, r);
      }
    }
  }

  /** An element of a concatenation is in one of its parts. Stated apart, as a small lemma
   *  over plain sequences, only to keep the proofs that use it within the solver's limits. */
  lemma InParts(a: seq<Request>, b: seq<Request>, r: Request)
    requires r in a + b
    ensures r in a || r in b
  {
  }

  /** The steps after creation send an environment exactly when content was read and is not
   *  empty, and then that content verbatim with empty build arguments. */
  lemma AfterCreateEnv(githubId: Option<string>, applicationId: string, buildPath: string, remoteUrl: string,
                       host: string, content: Option<string>)
    ensures var rs := AfterCreate(githubId, applicationId, buildPath, remoteUrl, host, content);
            (exists r :: r in rs && r.SaveEnvironment?) <==> content.Some? && content.value != ""
    ensures var rs := AfterCreate(githubId, applicationId, buildPath, remoteUrl, host, content);
            forall r :: r in rs && r.SaveEnvironment? ==> r.env == EnvPayload(applicationId, content.value, "")
  {
    var rs := AfterCreate(githubId, applicationId, buildPath, remoteUrl, host, content);
    var link := if remoteUrl != "" && applicationId != "" then LinkRequests(githubId, applicationId, buildPath, remoteUrl)
                else [];
    var domain := DomainRequest(applicationId, host);
    var deploy := Deploy(applicationId);
    assert forall r :: r in link ==> r.SaveGithubProvider?;
    if content.Some? && content.value != "" {
      var save := SaveEnvironment(EnvPayload(applicationId, content.value, ""));
      assert rs == link + [domain, save, deploy];
      assert rs[|link| + 1] == save;
      forall r | r in rs && r.SaveEnvironment? ensures r == save {
        InParts(link, [domain, save, deploy], r);
      }
    } else {
      assert rs == link + [domain, deploy];
      forall r | r in rs ensures !r.SaveEnvironment? {
        InParts(link, [domain, deploy], r);
      }
    }
  }

  /** A monorepo application's environment comes from the root only when its own directory has
   *  no env file; an unreadable or empty file of its own uploads nothing. */
  lemma MonorepoEnvFallback(t: Tree, cwd: string, path: string, applicationId: string)
    ensures FirstEnvFile(t, Join(cwd, path), EnvFileNames).None? ==> MonorepoEnv(t, cwd, path) == RootEnv(t, cwd)
    ensures var own := FirstEnvFile(t, Join(cwd, path), EnvFileNames);
            own.Some? ==> MonorepoEnv(t, cwd, path) == ReadFile(t, own.value.path)
    ensures var own := FirstEnvFile(t, Join(cwd, path), EnvFileNames);
            own.Some? && (ReadFile(t, own.value.path).None? || ReadFile(t, own.value.path) == Some("")) ==>
              EnvRequests(applicationId, MonorepoEnv(t, cwd, path)) == []
  {
  }

  /** The files tried for an environment, and their order. */
  lemma EnvFilePriority(t: Tree, base: string)
    ensures var r := FirstEnvFile(t, base, EnvFileNames);
            (Exists(t, Join(base, ".env")) ==> r == Some(EnvFile(".env", Join(base, ".env"))))
            && ((!Exists(t, Join(base, ".env")) && Exists(t, Join(base, ".env.local"))) ==>
                  r == Some(EnvFile(".env.local", Join(base, ".env.local"))))
            && ((!Exists(t, Join(base, ".env")) && !Exists(t, Join(base, ".env.local"))
                 && Exists(t, Join(base, ".env.example"))) ==>
                  r == Some(EnvFile(".env.example", Join(base, ".env.example"))))
            && ((!Exists(t, Join(base, ".env")) && !Exists(t, Join(base, ".env.local"))
                 && !Exists(t, Join(base, ".env.example"))) ==> r.None?)
  {
    var r := FirstEnvFile(t, base, EnvFileNames);
    FirstEnvFileFinds(t, base, EnvFileNames);
    if r.Some? {
      var i :| 0 <= i < 3 && r.value == EnvFile(EnvFileNames[i], Join(base, EnvFileNames[i]))
               && Exists(t, Join(base, EnvFileNames[i]))
               && forall j :: 0 <= j < i ==> !Exists(t, Join(base, EnvFileNames[j]));
      assert EnvFileNames[0] == ".env" && EnvFileNames[1] == ".env.local" && EnvFileNames[2] == ".env.example";
    }
  }

  /** Once a creation has failed, later folders change nothing: the traffic of all folders is
   *  that of the prefix ending with the failure. */
  lemma {:induction false} MonorepoErrorPersists(p: Platform, h: seq<Request>, ctx: Context, projectId: string,
                                                 folders: seq<Folder>, n: nat, remoteUrl: string, folderName: string)
    requires n <= |folders|
    requires MonorepoTraffic(p, h, ctx, projectId, folders[..n], remoteUrl, folderName).result.Err?
    ensures MonorepoTraffic(p, h, ctx, projectId, folders, remoteUrl, folderName)
            == MonorepoTraffic(p, h, ctx, projectId, folders[..n], remoteUrl, folderName)
    decreases |folders| - n
  {
    if n < |folders| {
      var next := folders[..n + 1];
      assert next[..|next| - 1] == folders[..n];
      assert MonorepoTraffic(p, h, ctx, projectId, next, remoteUrl, folderName)
             == MonorepoTraffic(p, h, ctx, projectId, folders[..n], remoteUrl, folderName);
      MonorepoErrorPersists(p, h, ctx, projectId, folders, n + 1, remoteUrl, folderName);
    } else {
      assert folders[..n] == folders;
    }
  }

  /** What folder `i` of the loop records and sends: `app` carries the folder's name and path,
   *  the host `<project>-<name>.<domain>` and the identifier the platform answered to the
   *  folder's creation request; that request is sent right after the traffic of the folders
   *  before it, and the domain request for `app` follows it within the folder's own traffic. */
  ghost predicate RecordedAt(p: Platform, h: seq<Request>, ctx: Context, projectId: string, folders: seq<Folder>,
                             remoteUrl: string, folderName: string, i: nat, app: CreatedApp)
  {
    i < |folders|
    && var req := MonorepoAppRequest(ctx, projectId, folders[i]);
       var before := MonorepoTraffic(p, h, ctx, projectId, folders[..i], remoteUrl, folderName).log;
       var after := MonorepoTraffic(p, h, ctx, projectId, folders[..i + 1], remoteUrl, folderName).log;
       app.name == folders[i].name && app.path == folders[i].path
       && app.host == folderName + "-" + folders[i].name + "." + ctx.domain
       && CreatedId(p(before, req)) == Ok(app.applicationId)
       && |before| < |after| && after[..|before|] == before && after[|before|] == req
       && CreateDomain(DomainPayload(app.host, "/", 3000, true, app.applicationId, "letsencrypt", "application"))
          in after[|before| + 1..]
  }

  /** One folder whose creation succeeds: its record and its requests. */
  lemma AppRecorded(p: Platform, h: seq<Request>, ctx: Context, projectId: string, folder: Folder,
                    remoteUrl: string, folderName: string)
    requires AppTraffic(p, h, ctx, projectId, folder, remoteUrl, folderName).result.Ok?
    ensures var step := AppTraffic(p, h, ctx, projectId, folder, remoteUrl, folderName);
            var app := step.result.value;
            var req := MonorepoAppRequest(ctx, projectId, folder);
            app.name == folder.name && app.path == folder.path
            && app.host == folderName + "-" + folder.name + "." + ctx.domain
            && CreatedId(p(h, req)) == Ok(app.applicationId)
            && |h| < |step.log| && step.log[..|h|] == h && step.log[|h|] == req
            && CreateDomain(DomainPayload(app.host, "/", 3000, true, app.applicationId, "letsencrypt", "application"))
               in step.log[|h| + 1..]
  {
    var req := MonorepoAppRequest(ctx, projectId, folder);
    var applicationId := CreatedId(p(h, req)).value;
    var host := MonorepoHost(ctx, folderName, folder);
    var content := MonorepoEnv(ctx.tree, ctx.cwd, folder.path);
    var tail := AfterCreate(ctx.githubId, applicationId, folder.path, remoteUrl, host, content);
    AfterCreateKinds(ctx.githubId, applicationId, folder.path, remoteUrl, host, content);
    var log := h + [req] + tail;
    assert log[..|h|] == h && log[|h|] == req && log[|h| + 1..] == tail;
  }

  /** Every folder, in input order, yields one created application: `RecordedAt` holds for each
   *  folder and its record. */
  lemma MonorepoCreatesInOrder(p: Platform, h: seq<Request>, ctx: Context, projectId: string,
                               folders: seq<Folder>, remoteUrl: string, folderName: string)
    requires MonorepoTraffic(p, h, ctx, projectId, folders, remoteUrl, folderName).result.Ok?
    ensures var apps := MonorepoTraffic(p, h, ctx, projectId, folders, remoteUrl, folderName).result.value;
            |apps| == |folders|
            && forall i: nat :: i < |folders| ==>
                 RecordedAt(p, h, ctx, projectId, folders, remoteUrl, folderName, i, apps[i])
  {
    RecordsCount(p, h, ctx, projectId, folders, remoteUrl, folderName);
    var apps := MonorepoTraffic(p, h, ctx, projectId, folders, remoteUrl, folderName).result.value;
    forall i: nat | i < |folders|
      ensures RecordedAt(p, h, ctx, projectId, folders, remoteUrl, folderName, i, apps[i])
    {
      RecordedAtIndex(p, h, ctx, projectId, folders, remoteUrl, folderName, i);
    }
  }

  /** A completed loop makes one record per folder. */
  lemma {:induction false} RecordsCount(p: Platform, h: seq<Request>, ctx: Context, projectId: string,
                                        folders: seq<Folder>, remoteUrl: string, folderName: string)
    requires MonorepoTraffic(p, h, ctx, projectId, folders, remoteUrl, folderName).result.Ok?
    ensures |MonorepoTraffic(p, h, ctx, projectId, folders, remoteUrl, folderName).result.value| == |folders|
    decreases |folders|
  {
    if folders != [] {
      ResultsExtend(p, h, ctx, projectId, folders, remoteUrl, folderName);
      RecordsCount(p, h, ctx, projectId, folders[..|folders| - 1], remoteUrl, folderName);
    }
  }

  /** Folder `i` of a completed loop is recorded as `RecordedAt` says: by induction on the
   *  folders after it. */
  lemma {:induction false} RecordedAtIndex(p: Platform, h: seq<Request>, ctx: Context, projectId: string,
                                           folders: seq<Folder>, remoteUrl: string, folderName: string, i: nat)
    requires i < |folders|
    requires MonorepoTraffic(p, h, ctx, projectId, folders, remoteUrl, folderName).result.Ok?
    ensures var apps := MonorepoTraffic(p, h, ctx, projectId, folders, remoteUrl, folderName).result.value;
            i < |apps| && RecordedAt(p, h, ctx, projectId, folders, remoteUrl, folderName, i, apps[i])
    decreases |folders|
  {
    var n := |folders| - 1;
    RecordsCount(p, h, ctx, projectId, folders, remoteUrl, folderName);
    if i == n {
      RecordedLast(p, h, ctx, projectId, folders, remoteUrl, folderName);
    } else {
      ResultsExtend(p, h, ctx, projectId, folders, remoteUrl, folderName);
      RecordedAtIndex(p, h, ctx, projectId, folders[..n], remoteUrl, folderName, i);
      var earlier := MonorepoTraffic(p, h, ctx, projectId, folders[..n], remoteUrl, folderName).result.value;
      RecordedInPrefix(p, h, ctx, projectId, folders, n, remoteUrl, folderName, i, earlier[i]);
    }
  }

  /** A completed loop over `folders` completed over all but the last one, and its records
   *  begin with the records of that shorter loop. */
  lemma ResultsExtend(p: Platform, h: seq<Request>, ctx: Context, projectId: string, folders: seq<Folder>,
                      remoteUrl: string, folderName: string)
    requires folders != []
    requires MonorepoTraffic(p, h, ctx, projectId, folders, remoteUrl, folderName).result.Ok?
    ensures var earlier := MonorepoTraffic(p, h, ctx, projectId, folders[..|folders| - 1], remoteUrl, folderName).result;
            var apps := MonorepoTraffic(p, h, ctx, projectId, folders, remoteUrl, folderName).result.value;
            earlier.Ok? && |apps| == |earlier.value| + 1
            && forall i :: 0 <= i < |earlier.value| ==> apps[i] == earlier.value[i]
  {
  }

  /** The last folder of a completed loop is recorded as its own step says. */
  lemma RecordedLast(p: Platform, h: seq<Request>, ctx: Context, projectId: string, folders: seq<Folder>,
                     remoteUrl: string, folderName: string)
    requires folders != []
    requires MonorepoTraffic(p, h, ctx, projectId, folders, remoteUrl, folderName).result.Ok?
    ensures var apps := MonorepoTraffic(p, h, ctx, projectId, folders, remoteUrl, folderName).result.value;
            |apps| == |folders|
            ==> RecordedAt(p, h, ctx, projectId, folders, remoteUrl, folderName, |folders| - 1, apps[|folders| - 1])
  {
    var i := |folders| - 1;
    var before := MonorepoTraffic(p, h, ctx, projectId, folders[..i], remoteUrl, folderName);
    assert folders[..i + 1] == folders;
    AppRecorded(p, before.log, ctx, projectId, folders[i], remoteUrl, folderName);
  }

  /** What a folder records does not depend on the folders after it. */
  lemma RecordedInPrefix(p: Platform, h: seq<Request>, ctx: Context, projectId: string, folders: seq<Folder>,
                         n: nat, remoteUrl: string, folderName: string, i: nat, app: CreatedApp)
    requires i < n <= |folders|
    requires RecordedAt(p, h, ctx, projectId, folders[..n], remoteUrl, folderName, i, app)
    ensures RecordedAt(p, h, ctx, projectId, folders, remoteUrl, folderName, i, app)
  {
    assert folders[..n][i] == folders[i];
    assert folders[..n][..i] == folders[..i] && folders[..n][..i + 1] == folders[..i + 1];
  }

  /** The traffic of a prefix of the folders is a prefix of the traffic of all of them. */
  lemma {:induction false} MonorepoStepsExtend(p: Platform, h: seq<Request>, ctx: Context, projectId: string,
                                               folders: seq<Folder>, n: nat, remoteUrl: string, folderName: string)
    requires n <= |folders|
    ensures var prefix := MonorepoTraffic(p, h, ctx, projectId, folders[..n], remoteUrl, folderName).log;
            var all := MonorepoTraffic(p, h, ctx, projectId, folders, remoteUrl, folderName).log;
            |prefix| <= |all| && all[..|prefix|] == prefix
    decreases |folders| - n
  {
    if n == |folders| {
      assert folders[..n] == folders;
    } else {
      MonorepoStepsExtend(p, h, ctx, projectId, folders, n + 1, remoteUrl, folderName);
      var next := folders[..n + 1];
      assert next[..|next| - 1] == folders[..n];
      var prefix := MonorepoTraffic(p, h, ctx, projectId, folders[..n], remoteUrl, folderName).log;
      var longer := MonorepoTraffic(p, h, ctx, projectId, next, remoteUrl, folderName).log;
      if MonorepoTraffic(p, h, ctx, projectId, folders[..n], remoteUrl, folderName).result.Ok? {
        var step := AppTraffic(p, prefix, ctx, projectId, folders[n], remoteUrl, folderName);
        assert longer == step.log;
        AppRequestsShape(p, prefix, ctx, projectId, folders[n], remoteUrl, folderName);
      } else {
        assert longer == prefix;
      }
    }
  }

  /** The traffic of `folders` ends with the creation request of folder `k`, sent right after
   *  the complete traffic of the folders before it. */
  predicate AbortsAt(p: Platform, h: seq<Request>, ctx: Context, projectId: string, folders: seq<Folder>,
                     remoteUrl: string, folderName: string, k: nat)
  {
    k < |folders|
    && var before := MonorepoTraffic(p, h, ctx, projectId, folders[..k], remoteUrl, folderName);
       before.result.Ok?
       && MonorepoTraffic(p, h, ctx, projectId, folders, remoteUrl, folderName).log
          == before.log + [MonorepoAppRequest(ctx, projectId, folders[k])]
  }

  /** A failed creation aborts the loop at the folder whose creation failed. */
  lemma {:induction false} MonorepoAborts(p: Platform, h: seq<Request>, ctx: Context, projectId: string,
                                          folders: seq<Folder>, remoteUrl: string, folderName: string)
    requires MonorepoTraffic(p, h, ctx, projectId, folders, remoteUrl, folderName).result.Err?
    ensures exists k: nat :: AbortsAt(p, h, ctx, projectId, folders, remoteUrl, folderName, k)
    decreases |folders|
  {
    var n := |folders|;
    assert n > 0;
    var init := folders[..n - 1];
    var before := MonorepoTraffic(p, h, ctx, projectId, init, remoteUrl, folderName);
    if before.result.Err? {
      assert MonorepoTraffic(p, h, ctx, projectId, folders, remoteUrl, folderName) == before;
      MonorepoAborts(p, h, ctx, projectId, init, remoteUrl, folderName);
      var k: nat :| AbortsAt(p, h, ctx, projectId, init, remoteUrl, folderName, k);
      assert init[..k] == folders[..k] && init[k] == folders[k];
      assert AbortsAt(p, h, ctx, projectId, folders, remoteUrl, folderName, k);
    } else {
      var req := MonorepoAppRequest(ctx, projectId, folders[n - 1]);
      var step := AppTraffic(p, before.log, ctx, projectId, folders[n - 1], remoteUrl, folderName);
      assert MonorepoTraffic(p, h, ctx, projectId, folders, remoteUrl, folderName).log == step.log;
      assert step.result.Err?;
      assert step.log == before.log + [req];
      assert AbortsAt(p, h, ctx, projectId, folders, remoteUrl, folderName, n - 1);
    }
  }

  /** Only the answers to creation requests matter: two platforms that agree on them give the
   *  same traffic. Failures of links, domains, environments and deployments are swallowed. */
  lemma {:induction false} OnlyCreationAnswersMatter(p1: Platform, p2: Platform, h: seq<Request>, ctx: Context,
                                                     projectId: string, folders: seq<Folder>, remoteUrl: string,
                                                     folderName: string)
    requires forall l: seq<Request>, f: Folder :: p1(l, MonorepoAppRequest(ctx, projectId, f))
                                                  == p2(l, MonorepoAppRequest(ctx, projectId, f))
    ensures MonorepoTraffic(p1, h, ctx, projectId, folders, remoteUrl, folderName)
            == MonorepoTraffic(p2, h, ctx, projectId, folders, remoteUrl, folderName)
    decreases |folders|
  {
    if folders != [] {
      OnlyCreationAnswersMatter(p1, p2, h, ctx, projectId, folders[..|folders| - 1], remoteUrl, folderName);
    }
  }

  /** For a single application too, only the answer to its creation matters: whatever the
   *  link, domain, environment and deployment calls answer, the same requests follow and the
   *  same application id is returned. */
  lemma SingleOnlyCreationAnswerMatters(p1: Platform, p2: Platform, h: seq<Request>, ctx: Context,
                                        projectId: string, folderName: string, remoteUrl: string)
    requires p1(h, SingleAppRequest(ctx, projectId, folderName)) == p2(h, SingleAppRequest(ctx, projectId, folderName))
    ensures SingleTraffic(p1, h, ctx, projectId, folderName, remoteUrl)
            == SingleTraffic(p2, h, ctx, projectId, folderName, remoteUrl)
  {
  }

  /** Every creation request in `rs` carries `serverId`. */
  predicate CarriesServer(rs: seq<Request>, serverId: Option<string>)
  {
    forall i :: 0 <= i < |rs| && rs[i].CreateApplication? ==> rs[i].app.serverId == serverId
  }

  /** No request in `rs` links a repository. */
  predicate Unlinked(rs: seq<Request>)
  {
    forall i :: 0 <= i < |rs| ==> !rs[i].SaveGithubProvider?
  }

  /** Both predicates hold of a concatenation when they hold of its parts. */
  lemma ShapeConcat(a: seq<Request>, b: seq<Request>, serverId: Option<string>)
    ensures CarriesServer(a, serverId) && CarriesServer(b, serverId) ==> CarriesServer(a + b, serverId)
    ensures Unlinked(a) && Unlinked(b) ==> Unlinked(a + b)
  {
    assert forall i :: |a| <= i < |a + b| ==> (a + b)[i] == b[i - |a|];
  }

  /** The requests after a prefix `h` keep both predicates when a request that carries the
   *  server is followed by requests that keep them. */
  lemma PrefixCarries(h: seq<Request>, req: Request, tail: seq<Request>, serverId: Option<string>, linked: bool)
    requires req.CreateApplication? && req.app.serverId == serverId
    requires CarriesServer(tail, serverId) && (!linked ==> Unlinked(tail))
    ensures var log := h + [req] + tail;
            |h| < |log| && CarriesServer(log[|h|..], serverId) && (!linked ==> Unlinked(log[|h|..]))
  {
    assert (h + [req] + tail)[|h|..] == [req] + tail;
    ShapeConcat([req], tail, serverId);
  }

  /** Both predicates hold after `h` in a log that extends `mid` when they hold of what `mid`
   *  adds to `h` and of what the log adds to `mid`. */
  lemma ExtendCarries(h: seq<Request>, mid: seq<Request>, log: seq<Request>, serverId: Option<string>, linked: bool)
    requires |h| <= |mid| <= |log| && log[..|mid|] == mid
    requires CarriesServer(mid[|h|..], serverId) && (!linked ==> Unlinked(mid[|h|..]))
    requires CarriesServer(log[|mid|..], serverId) && (!linked ==> Unlinked(log[|mid|..]))
    ensures CarriesServer(log[|h|..], serverId) && (!linked ==> Unlinked(log[|h|..]))
  {
    assert log[|h|..] == mid[|h|..] + log[|mid|..];
    ShapeConcat(mid[|h|..], log[|mid|..], serverId);
  }

  /** The requests one folder adds come after the earlier ones, starting with its creation
   *  request. */
  lemma AppRequestsShape(p: Platform, h: seq<Request>, ctx: Context, projectId: string, folder: Folder,
                         remoteUrl: string, folderName: string)
    ensures var log := AppTraffic(p, h, ctx, projectId, folder, remoteUrl, folderName).log;
            |h| < |log| && log[..|h|] == h && log[|h|] == MonorepoAppRequest(ctx, projectId, folder)
  {
    var req := MonorepoAppRequest(ctx, projectId, folder);
    var log := AppTraffic(p, h, ctx, projectId, folder, remoteUrl, folderName).log;
    match CreatedId(p(h, req))
    case Err(_) =>
      assert log == h + [req];
    case Ok(applicationId) =>
      var host := MonorepoHost(ctx, folderName, folder);
      var tail := AfterCreate(ctx.githubId, applicationId, folder.path, remoteUrl, host,
                              MonorepoEnv(ctx.tree, ctx.cwd, folder.path));
      assert log == h + [req] + tail;
      assert (h + [req] + tail)[..|h|] == h;
  }

  /** The steps after creation create nothing, and without an integration link nothing. */
  lemma AfterCreateCarries(githubId: Option<string>, applicationId: string, buildPath: string, remoteUrl: string,
                           host: string, content: Option<string>, serverId: Option<string>)
    ensures CarriesServer(AfterCreate(githubId, applicationId, buildPath, remoteUrl, host, content), serverId)
    ensures githubId.None? ==> Unlinked(AfterCreate(githubId, applicationId, buildPath, remoteUrl, host, content))
  {
    var tail := AfterCreate(githubId, applicationId, buildPath, remoteUrl, host, content);
    AfterCreateKinds(githubId, applicationId, buildPath, remoteUrl, host, content);
    AfterCreateLink(githubId, applicationId, buildPath, remoteUrl, host, content);
    forall i | 0 <= i < |tail| ensures !tail[i].CreateApplication? && (githubId.None? ==> !tail[i].SaveGithubProvider?) {
      assert tail[i] in tail;
    }
  }

  /** The requests one folder adds: its creation request carries the server, and without an
   *  integration no link is among them. */
  lemma AppRequestsCarry(p: Platform, h: seq<Request>, ctx: Context, projectId: string, folder: Folder,
                         remoteUrl: string, folderName: string)
    ensures var log := AppTraffic(p, h, ctx, projectId, folder, remoteUrl, folderName).log;
            |h| < |log| && CarriesServer(log[|h|..], ctx.serverId)
            && (ctx.githubId.None? ==> Unlinked(log[|h|..]))
  {
    var req := MonorepoAppRequest(ctx, projectId, folder);
    var log := AppTraffic(p, h, ctx, projectId, folder, remoteUrl, folderName).log;
    match CreatedId(p(h, req))
    case Err(_) =>
      PrefixCarries(h, req, [], ctx.serverId, ctx.githubId.Some?);
    case Ok(applicationId) =>
      var host := MonorepoHost(ctx, folderName, folder);
      var content := MonorepoEnv(ctx.tree, ctx.cwd, folder.path);
      var tail := AfterCreate(ctx.githubId, applicationId, folder.path, remoteUrl, host, content);
      AfterCreateCarries(ctx.githubId, applicationId, folder.path, remoteUrl, host, content, ctx.serverId);
      PrefixCarries(h, req, tail, ctx.serverId, ctx.githubId.Some?);
  }

  /** Every creation request of a monorepo carries the server resolved with the project, and
   *  without an integration no link is sent. */
  lemma {:induction false} MonorepoRequestsShape(p: Platform, h: seq<Request>, ctx: Context, projectId: string,
                                                 folders: seq<Folder>, remoteUrl: string, folderName: string)
    ensures var log := MonorepoTraffic(p, h, ctx, projectId, folders, remoteUrl, folderName).log;
            CarriesServer(log[|h|..], ctx.serverId) && (ctx.githubId.None? ==> Unlinked(log[|h|..]))
    decreases |folders|
  {
    if folders == [] {
      assert MonorepoTraffic(p, h, ctx, projectId, folders, remoteUrl, folderName).log[|h|..] == [];
    } else {
      MonorepoRequestsShape(p, h, ctx, projectId, folders[..|folders| - 1], remoteUrl, folderName);
      MonorepoRequestsStep(p, h, ctx, projectId, folders, remoteUrl, folderName);
    }
  }

  /** The inductive step of `MonorepoRequestsShape`: one more folder keeps both properties. */
  lemma MonorepoRequestsStep(p: Platform, h: seq<Request>, ctx: Context, projectId: string,
                             folders: seq<Folder>, remoteUrl: string, folderName: string)
    requires folders != []
    requires var log := MonorepoTraffic(p, h, ctx, projectId, folders[..|folders| - 1], remoteUrl, folderName).log;
             CarriesServer(log[|h|..], ctx.serverId) && (ctx.githubId.None? ==> Unlinked(log[|h|..]))
    ensures var log := MonorepoTraffic(p, h, ctx, projectId, folders, remoteUrl, folderName).log;
            CarriesServer(log[|h|..], ctx.serverId) && (ctx.githubId.None? ==> Unlinked(log[|h|..]))
  {
    var last := folders[|folders| - 1];
    var before := MonorepoTraffic(p, h, ctx, projectId, folders[..|folders| - 1], remoteUrl, folderName);
    var log := MonorepoTraffic(p, h, ctx, projectId, folders, remoteUrl, folderName).log;
    if before.result.Ok? {
      var step := AppTraffic(p, before.log, ctx, projectId, last, remoteUrl, folderName);
      assert log == step.log;
      AppRequestsShape(p, before.log, ctx, projectId, last, remoteUrl, folderName);
      AppRequestsCarry(p, before.log, ctx, projectId, last, remoteUrl, folderName);
      ExtendCarries(h, before.log, log, ctx.serverId, ctx.githubId.Some?);
    } else {
      assert log == before.log;
    }
  }

  /** A single application: the first request is the creation of `app` with the folder name as
   *  its app name and the resolved server, and the domain is `<project>.<domain>`. */
  lemma SingleRequestsShape(p: Platform, h: seq<Request>, ctx: Context, projectId: string, folderName: string,
                            remoteUrl: string)
    ensures var log := SingleTraffic(p, h, ctx, projectId, folderName, remoteUrl).log;
            |log| > |h| && log[..|h|] == h
            && log[|h|] == CreateApplication(AppPayload("app", projectId, folderName, "Main application", ctx.serverId))
    ensures var tr := SingleTraffic(p, h, ctx, projectId, folderName, remoteUrl);
            tr.result.Ok? ==> CreateDomain(DomainPayload(folderName + "." + ctx.domain, "/", 3000, true, tr.result.value,
                                                         "letsencrypt", "application")) in tr.log
    ensures SingleTraffic(p, h, ctx, projectId, folderName, remoteUrl).result.Err? <==>
              CreatedId(p(h, SingleAppRequest(ctx, projectId, folderName))).Err?
  {
    var req := SingleAppRequest(ctx, projectId, folderName);
    match CreatedId(p(h, req))
    case Err(_) =>
    case Ok(applicationId) =>
      var tail := AfterCreate(ctx.githubId, applicationId, ".", remoteUrl, SingleHost(ctx, folderName), RootEnv(ctx.tree, ctx.cwd));
      AfterCreateKinds(ctx.githubId, applicationId, ".", remoteUrl, SingleHost(ctx, folderName), RootEnv(ctx.tree, ctx.cwd));
      assert (h + [req] + tail)[..|h|] == h;
  }

  /** A log grown by a link, a domain, an environment and a deployment, one after the other.
   *  Stated apart, as a small lemma over plain sequences, only to keep the proofs that use it
   *  within the solver's limits. */
  lemma StepsInOrder(h: seq<Request>, h1: seq<Request>, h2: seq<Request>, h3: seq<Request>, h4: seq<Request>,
                     link: seq<Request>, domain: Request, env: seq<Request>, deploy: Request)
    requires h1 == h + link && h2 == h1 + [domain] && h3 == h2 + env && h4 == h3 + [deploy]
    ensures h4 == h + (link + [domain] + env + [deploy])
  {
  }

  // ---------------------------------------------------------------------------
  // The manager

  /** `DokployManager`: the instance, its credentials and domain, the platform it talks to, the
   *  identifiers resolved with the project, and every request sent so far. */
  class DokployManager {
    const dokployUrl: string
    const apiToken: string
    const domain: string
    const platform: Platform
    var serverId: Option<string>
    var githubId: Option<string>
    var sent: seq<Request>

    constructor(dokployUrl: string, apiToken: string, domain: string, platform: Platform)
      ensures this.dokployUrl == dokployUrl && this.apiToken == apiToken && this.domain == domain
      ensures this.platform == platform
      ensures serverId.None? && githubId.None? && sent == []
    {
      this.dokployUrl := dokployUrl;
      this.apiToken := apiToken;
      this.domain := domain;
      this.platform := platform;
      serverId := None;
      githubId := None;
      sent := [];
    }

    /** The context the spec functions see. */
    function Ctx(t: Tree, cwd: string): Context
      reads this
    {
      Context(t, cwd, domain, serverId, githubId)
    }

    /** One HTTP call to the endpoint of `req`, with the API key. */
    method Send(req: Request) returns (resp: Response)
      modifies this
      ensures resp == platform(old(sent), req) && sent == old(sent) + [req]
      ensures serverId == old(serverId) && githubId == old(githubId)
    {
      resp := platform(sent, req);
      sent := sent + [req];
    }

    /** `getDefaultServer`. */
    method GetDefaultServer() returns (id: Option<string>)
      modifies this
      ensures id == FirstListedId(platform(old(sent), ListServers)) && sent == old(sent) + [ListServers]
      ensures serverId == old(serverId) && githubId == old(githubId)
    {
      var resp := Send(ListServers);
      id := FirstListedId(resp);
    }

    /** `getGitHubIntegration`. */
    method GetGitHubIntegration() returns (id: Option<string>)
      modifies this
      ensures id == FirstListedId(platform(old(sent), ListGithubProviders)) && sent == old(sent) + [ListGithubProviders]
      ensures serverId == old(serverId) && githubId == old(githubId)
    {
      var resp := Send(ListGithubProviders);
      id := FirstListedId(resp);
    }

    /** `createProject`: the project, then the server and integration lookups. */
    method CreateProject(folderName: string) returns (r: Result<string, ApiError>)
      modifies this
      ensures ProjectOutcome(sent, r, serverId, githubId)
              == ProjectSetup(platform, old(sent), folderName, old(serverId), old(githubId))
    {
      var projectResponse := Send(ProjectRequest(folderName));
      var created := CreatedId(projectResponse);
      if created.Err? {
        return Err(created.error);
      }
      var projectId := created.value;
      serverId := GetDefaultServer();
      githubId := GetGitHubIntegration();
      return Ok(projectId);
    }

    /** `configureGitHubRepository`: skipped without an integration; a failure is swallowed. */
    method ConfigureGitHubRepository(applicationId: string, buildPath: string, remoteUrl: string)
      modifies this
      ensures sent == old(sent) + LinkRequests(githubId, applicationId, buildPath, remoteUrl)
      ensures serverId == old(serverId) && githubId == old(githubId)
    {
      if githubId.None? {
        return;
      }
      var repo := ParseGitHubUrl(remoteUrl);
      var githubConfig := GithubPayload(applicationId, repo.repository, repo.owner, "main", buildPath, githubId.value);
      var response := Send(SaveGithubProvider(githubConfig));
    }

    /** `createDomain`: the answer's body, or nothing when the request failed. */
    method CreateDomainFor(applicationId: string, host: string) returns (data: Option<Data>)
      modifies this
      ensures data == AnswerData(platform(old(sent), DomainRequest(applicationId, host)))
      ensures sent == old(sent) + [DomainRequest(applicationId, host)]
      ensures serverId == old(serverId) && githubId == old(githubId)
    {
      var response := Send(DomainRequest(applicationId, host));
      data := AnswerData(response);
    }

    /** `deployApplication`: the answer's body, or nothing when the request failed. */
    method DeployApplication(applicationId: string) returns (data: Option<Data>)
      modifies this
      ensures data == AnswerData(platform(old(sent), Deploy(applicationId)))
      ensures sent == old(sent) + [Deploy(applicationId)]
      ensures serverId == old(serverId) && githubId == old(githubId)
    {
      var response := Send(Deploy(applicationId));
      data := AnswerData(response);
    }

    /** `saveEnvironment`: the content verbatim with empty build arguments. */
    method SaveEnvironmentFor(applicationId: string, envContent: string) returns (data: Option<Data>)
      modifies this
      ensures data == AnswerData(platform(old(sent), SaveEnvironment(EnvPayload(applicationId, envContent, ""))))
      ensures sent == old(sent) + [SaveEnvironment(EnvPayload(applicationId, envContent, ""))]
      ensures serverId == old(serverId) && githubId == old(githubId)
    {
      var response := Send(SaveEnvironment(EnvPayload(applicationId, envContent, "")));
      data := AnswerData(response);
    }

    /** `detectEnvironmentFile`: the first env file of `basePath` in priority order. */
    method DetectEnvironmentFile(t: Tree, basePath: string) returns (r: Option<EnvFile>)
      ensures r == FirstEnvFile(t, basePath, EnvFileNames)
    {
      var envFiles := EnvFileNames;
      for i := 0 to |envFiles|
        invariant FirstEnvFile(t, basePath, envFiles) == FirstEnvFile(t, basePath, envFiles[i..])
      {
        var envPath := Join(basePath, envFiles[i]);
        if Exists(t, envPath) {
          return Some(EnvFile(envFiles[i], envPath));
        }
        assert envFiles[i..][1..] == envFiles[i + 1..];
      }
      return None;
    }

    /** `readEnvironmentFile`: the content as read, or nothing when reading throws. */
    method ReadEnvironmentFile(t: Tree, envFilePath: string) returns (content: Option<string>)
      ensures content == ReadFile(t, envFilePath)
    {
      content := ReadFile(t, envFilePath);
    }

    /** The environment upload of an application from the content found for it. */
    method UploadEnvironment(applicationId: string, content: Option<string>)
      modifies this
      ensures sent == old(sent) + EnvRequests(applicationId, content)
      ensures serverId == old(serverId) && githubId == old(githubId)
    {
      if content.Some? && content.value != "" {
        var data := SaveEnvironmentFor(applicationId, content.value);
      }
    }

    /** Link, domain, environment and deployment of a created application. */
    method ConfigureCreated(applicationId: string, buildPath: string, remoteUrl: string, host: string,
                            content: Option<string>)
      modifies this
      ensures sent == old(sent) + AfterCreate(githubId, applicationId, buildPath, remoteUrl, host, content)
      ensures serverId == old(serverId) && githubId == old(githubId)
    {
      ghost var h := sent;
      if remoteUrl != "" && applicationId != "" {
        ConfigureGitHubRepository(applicationId, buildPath, remoteUrl);
      }
      ghost var h1 := sent;
      var domainData := CreateDomainFor(applicationId, host);
      ghost var h2 := sent;
      UploadEnvironment(applicationId, content);
      ghost var h3 := sent;
      var deployData := DeployApplication(applicationId);
      ghost var link := if remoteUrl != "" && applicationId != "" then LinkRequests(githubId, applicationId, buildPath, remoteUrl)
                        else [];
      assert h1 == h + link;
      StepsInOrder(h, h1, h2, h3, sent, link, DomainRequest(applicationId, host), EnvRequests(applicationId, content),
                   Deploy(applicationId));
    }

    /** `createSingleApplication`: application `app` built from the root, with the root's env. */
    method CreateSingleApplication(t: Tree, cwd: string, projectId: string, folderName: string, remoteUrl: string)
      returns (r: Result<string, ApiError>)
      modifies this
      ensures Traffic(sent, r) == SingleTraffic(platform, old(sent), old(Ctx(t, cwd)), projectId, folderName, remoteUrl)
      ensures serverId == old(serverId) && githubId == old(githubId)
    {
      var applicationData := AppPayload("app", projectId, folderName, "Main application", None);
      if serverId.Some? {
        applicationData := applicationData.(serverId := serverId);
      }
      var appResponse := Send(CreateApplication(applicationData));
      var created := CreatedId(appResponse);
      if created.Err? {
        return Err(created.error);
      }
      var applicationId := created.value;
      var host := folderName + "." + domain;
      var envFile := DetectEnvironmentFile(t, cwd);
      var content: Option<string> := None;
      if envFile.Some? {
        content := ReadEnvironmentFile(t, envFile.value.path);
      }
      ConfigureCreated(applicationId, ".", remoteUrl, host, content);
      return Ok(applicationId);
    }

    /** The environment a monorepo application gets: its own directory first, the root only
     *  when that has no env file. */
    method MonorepoEnvironment(t: Tree, cwd: string, path: string) returns (content: Option<string>)
      ensures content == MonorepoEnv(t, cwd, path)
    {
      var appPath := Join(cwd, path);
      var envFile := DetectEnvironmentFile(t, appPath);
      content := None;
      if envFile.Some? {
        content := ReadEnvironmentFile(t, envFile.value.path);
      } else {
        var rootEnvFile := DetectEnvironmentFile(t, cwd);
        if rootEnvFile.Some? {
          content := ReadEnvironmentFile(t, rootEnvFile.value.path);
        }
      }
    }

    /** `createMonorepoApplications`: the folders in order; a failed creation ends the loop and
     *  is returned. */
    method CreateMonorepoApplications(t: Tree, cwd: string, projectId: string, monorepoFolders: seq<Folder>,
                                      remoteUrl: string, folderName: string)
      returns (r: Result<seq<CreatedApp>, ApiError>)
      modifies this
      ensures Traffic(sent, r)
              == MonorepoTraffic(platform, old(sent), old(Ctx(t, cwd)), projectId, monorepoFolders, remoteUrl, folderName)
      ensures serverId == old(serverId) && githubId == old(githubId)
    {
      ghost var h := sent;
      ghost var ctx := Ctx(t, cwd);
      var createdApps: seq<CreatedApp> := [];
      for i := 0 to |monorepoFolders|
        invariant serverId == old(serverId) && githubId == old(githubId) && ctx == Ctx(t, cwd)
        invariant Traffic(sent, Ok(createdApps))
                  == MonorepoTraffic(platform, h, ctx, projectId, monorepoFolders[..i], remoteUrl, folderName)
      {
        var folder := monorepoFolders[i];
        assert monorepoFolders[..i + 1][..i] == monorepoFolders[..i];
        assert monorepoFolders[..i + 1][i] == folder;
        ghost var before := sent;
        var applicationData := AppPayload(folder.name, projectId, folder.name, "Application for " + folder.name, None);
        if serverId.Some? {
          applicationData := applicationData.(serverId := serverId);
        }
        var appResponse := Send(CreateApplication(applicationData));
        var created := CreatedId(appResponse);
        if created.Err? {
          MonorepoErrorPersists(platform, h, ctx, projectId, monorepoFolders, i + 1, remoteUrl, folderName);
          return Err(created.error);
        }
        var applicationId := created.value;
        var host := folderName + "-" + folder.name + "." + domain;
        var content := MonorepoEnvironment(t, cwd, folder.path);
        ConfigureCreated(applicationId, folder.path, remoteUrl, host, content);
        createdApps := createdApps + [CreatedApp(folder.name, folder.path, applicationId, host)];
      }
      assert monorepoFolders[..|monorepoFolders|] == monorepoFolders;
      return Ok(createdApps);
    }
  }
}
