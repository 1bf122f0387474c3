/** The driver of the CLI: configuration, repository, structure detection, deployment, in that
 *  order. Every way the process ends with status 1 is an `Exited` outcome naming the stage that
 *  ended it. The repository stage is not modelled; its result, the remote URL or an exit, is
 *  given by the caller. */
module Deployer {
  import opened Common
  import opened FileSystem
  import opened ConfigManager
  import opened Monorepo
  import opened Dokploy

  datatype Stage = LoadingConfiguration | SettingUpRepository | DetectingStructure | Deploying

  /** How a run ends: all stages completed, or the process exited with status 1 in a stage. */
  datatype Outcome = Completed | Exited(stage: Stage)

  /** The exit status of the process. */
  function ExitCode(o: Outcome): (code: nat)
    ensures code == 0 <==> o.Completed?
    ensures code <= 1
  {
    if o.Completed? then 0 else 1
  }

  /** The traffic of the deployment stage and whether it completed without a thrown error. */
  datatype Deployment = Deployment(log: seq<Request>, succeeded: bool)

  /** `deployToDocploy`: the project, then the monorepo path or the single-application path. */
  function DeployTraffic(p: Platform, h: seq<Request>, t: Tree, cwd: string, domain: string, folderName: string,
                         remoteUrl: string, isMonorepo: bool, folders: seq<Folder>,
                         serverId: Option<string>, githubId: Option<string>): Deployment
  {
    var project := ProjectSetup(p, h, folderName, serverId, githubId);
    match project.result
    case Err(_) => Deployment(project.log, false)
    case Ok(projectId) =>
      var ctx := Context(t, cwd, domain, project.serverId, project.githubId);
      if isMonorepo then
        var m := MonorepoTraffic(p, project.log, ctx, projectId, folders, remoteUrl, folderName);
        Deployment(m.log, m.result.Ok?)
      else
        var s := SingleTraffic(p, project.log, ctx, projectId, folderName, remoteUrl);
        Deployment(s.log, s.result.Ok?)
  }

  datatype Run = Run(outcome: Outcome, log: seq<Request>)

  /** The run once each stage's result is known: the configuration, the repository stage's
   *  remote URL (`None` when it exits) and the detection. */
  function Finish(config: Result<Config, ConfigError>, repository: Option<string>,
                  detection: Result<Monorepo.Detection, DetectionError>, t: Tree, cwd: string, p: Platform): Run
  {
    match config
    case Err(_) => Run(Exited(LoadingConfiguration), [])
    case Ok(c) =>
      match repository
      case None => Run(Exited(SettingUpRepository), [])
      case Some(remoteUrl) =>
        match detection
        case Err(_) => Run(Exited(DetectingStructure), [])
        case Ok(d) =>
          var dep := DeployTraffic(p, [], t, cwd, c.domain, Basename(cwd), remoteUrl, d.isMonorepo, d.monorepoFolders,
                                   None, None);
          Run(if dep.succeeded then Completed else Exited(Deploying), dep.log)
  }

  /** A whole run from a fresh process: the environment, the repository stage's result, the
   *  file system, the working directory and the platform. */
  function RunAll(env: ConfigManager.Env, isValidUrl: string -> bool, repository: Option<string>, t: Tree,
                  cwd: string, p: Platform): Run
  {
    Finish(LoadConfiguration(env, isValidUrl), repository, Classify(t, cwd), t, cwd, p)
  }

  // ---------------------------------------------------------------------------
  // Properties

  /** Once every stage before it passed, the run is the deployment stage. */
  lemma FinishDeploys(c: Config, remoteUrl: string, d: Monorepo.Detection, t: Tree, cwd: string, p: Platform)
    ensures var dep := DeployTraffic(p, [], t, cwd, c.domain, Basename(cwd), remoteUrl, d.isMonorepo,
                                     d.monorepoFolders, None, None);
            Finish(Ok(c), Some(remoteUrl), Ok(d), t, cwd, p)
            == Run(if dep.succeeded then Completed else Exited(Deploying), dep.log)
  {
  }

  /** The deployment stage always sends something: at least the project creation. */
  lemma DeploySends(p: Platform, t: Tree, cwd: string, domain: string, folderName: string, remoteUrl: string,
                    isMonorepo: bool, folders: seq<Folder>)
    ensures var d := DeployTraffic(p, [], t, cwd, domain, folderName, remoteUrl, isMonorepo, folders, None, None);
            d.log != [] && d.log[0] == ProjectRequest(folderName)
            && (CreatedId(p([], ProjectRequest(folderName))).Err? ==> d.log == [ProjectRequest(folderName)] && !d.succeeded)
  {
    ProjectLookups(p, [], folderName, None, None);
    var project := ProjectSetup(p, [], folderName, None, None);
    if project.result.Ok? {
      var ctx := Context(t, cwd, domain, project.serverId, project.githubId);
      var log := DeployTraffic(p, [], t, cwd, domain, folderName, remoteUrl, isMonorepo, folders, None, None).log;
      if isMonorepo {
        assert log == MonorepoTraffic(p, project.log, ctx, project.result.value, folders, remoteUrl, folderName).log;
      } else {
        SingleRequestsShape(p, project.log, ctx, project.result.value, folderName, remoteUrl);
      }
      assert log[..|project.log|] == project.log;
      assert log[0] == project.log[0];
    }
  }

  /** The stages run strictly in order: each ends the run only when all earlier ones passed,
   *  and requests are sent exactly when the deployment stage is reached. */
  lemma StagesInOrder(config: Result<Config, ConfigError>, repository: Option<string>,
                      detection: Result<Monorepo.Detection, DetectionError>, t: Tree, cwd: string, p: Platform)
    ensures var r := Finish(config, repository, detection, t, cwd, p);
            r.outcome == Exited(LoadingConfiguration) <==> config.Err?
    ensures var r := Finish(config, repository, detection, t, cwd, p);
            r.outcome == Exited(SettingUpRepository) <==> config.Ok? && repository.None?
    ensures var r := Finish(config, repository, detection, t, cwd, p);
            r.outcome == Exited(DetectingStructure) <==> config.Ok? && repository.Some? && detection.Err?
    ensures var r := Finish(config, repository, detection, t, cwd, p);
            r.outcome.Completed? || r.outcome == Exited(Deploying) <==> config.Ok? && repository.Some? && detection.Ok?
    ensures var r := Finish(config, repository, detection, t, cwd, p);
            r.log != [] <==> r.outcome.Completed? || r.outcome == Exited(Deploying)
  {
    if config.Ok? && repository.Some? && detection.Ok? {
      DeploySends(p, t, cwd, config.value.domain, Basename(cwd), repository.value,
                  detection.value.isMonorepo, detection.value.monorepoFolders);
    }
  }

  /** The project is created first, named after the last segment of the working directory;
   *  a failed creation ends the run with nothing else sent. */
  lemma ProjectFirst(config: Result<Config, ConfigError>, repository: Option<string>,
                     detection: Result<Monorepo.Detection, DetectionError>, t: Tree, cwd: string, p: Platform)
    ensures var r := Finish(config, repository, detection, t, cwd, p);
            r.log != [] ==> r.log[0] == CreateProject(Basename(cwd), "Auto-generated project for " + Basename(cwd))
    ensures var r := Finish(config, repository, detection, t, cwd, p);
            r.log != [] && CreatedId(p([], ProjectRequest(Basename(cwd)))).Err? ==>
              r.log == [ProjectRequest(Basename(cwd))] && r.outcome == Exited(Deploying)
  {
    if config.Ok? && repository.Some? && detection.Ok? {
      DeploySends(p, t, cwd, config.value.domain, Basename(cwd), repository.value,
                  detection.value.isMonorepo, detection.value.monorepoFolders);
    }
  }

  /** After the project and the two lookups, dispatch follows the detection: the single
   *  application `app` named after the directory, or the first monorepo folder; both carry
   *  the server the lookup resolved. */
  lemma Dispatch(config: Result<Config, ConfigError>, repository: Option<string>,
                 detection: Result<Monorepo.Detection, DetectionError>, t: Tree, cwd: string, p: Platform)
    requires config.Ok? && repository.Some? && detection.Ok?
    requires detection.value.isMonorepo ==> |detection.value.monorepoFolders| > 0
    requires CreatedId(p([], ProjectRequest(Basename(cwd)))).Ok?
    ensures var r := Finish(config, repository, detection, t, cwd, p);
            var projectId := CreatedId(p([], ProjectRequest(Basename(cwd)))).value;
            var serverId := FirstListedId(p([ProjectRequest(Basename(cwd))], ListServers));
            |r.log| > 3
            && (!detection.value.isMonorepo ==>
                  r.log[3] == CreateApplication(AppPayload("app", projectId, Basename(cwd), "Main application", serverId)))
            && (detection.value.isMonorepo ==>
                  var f := detection.value.monorepoFolders[0];
                  r.log[3] == CreateApplication(AppPayload(f.name, projectId, f.name, "Application for " + f.name, serverId)))
  {
    var folderName := Basename(cwd);
    var det := detection.value;
    ProjectLookups(p, [], folderName, None, None);
    var project := ProjectSetup(p, [], folderName, None, None);
    var projectId := project.result.value;
    var ctx := Context(t, cwd, config.value.domain, project.serverId, project.githubId);
    var r := Finish(config, repository, detection, t, cwd, p);
    assert [] + [ProjectRequest(folderName)] == [ProjectRequest(folderName)];
    assert project.serverId == FirstListedId(p([ProjectRequest(folderName)], ListServers));
    assert projectId == CreatedId(p([], ProjectRequest(folderName))).value;
    assert |project.log| == 3;
    if det.isMonorepo {
      var folders := det.monorepoFolders;
      var first := folders[..1];
      assert first[..|first| - 1] == [] && first[|first| - 1] == folders[0];
      assert MonorepoTraffic(p, project.log, ctx, projectId, [], repository.value, folderName)
             == Traffic(project.log, Ok([]));
      var m1 := MonorepoTraffic(p, project.log, ctx, projectId, first, repository.value, folderName);
      AppRequestsShape(p, project.log, ctx, projectId, folders[0], repository.value, folderName);
      assert m1.log == AppTraffic(p, project.log, ctx, projectId, folders[0], repository.value, folderName).log;
      assert |m1.log| > 3 && m1.log[3] == MonorepoAppRequest(ctx, projectId, folders[0]);
      MonorepoStepsExtend(p, project.log, ctx, projectId, folders, 1, repository.value, folderName);
      assert r.log == MonorepoTraffic(p, project.log, ctx, projectId, folders, repository.value, folderName).log;
    } else {
      SingleRequestsShape(p, project.log, ctx, projectId, folderName, repository.value);
    }
  }

  /** The dispatch of a run: a detected monorepo always has a first folder. */
  lemma RunDispatch(env: ConfigManager.Env, isValidUrl: string -> bool, repository: Option<string>, t: Tree,
                    cwd: string, p: Platform)
    requires LoadConfiguration(env, isValidUrl).Ok? && repository.Some? && ReadDir(t, cwd).Some?
    requires CreatedId(p([], ProjectRequest(Basename(cwd)))).Ok?
    ensures var r := RunAll(env, isValidUrl, repository, t, cwd, p);
            var detection := Classify(t, cwd).value;
            var projectId := CreatedId(p([], ProjectRequest(Basename(cwd)))).value;
            var serverId := FirstListedId(p([ProjectRequest(Basename(cwd))], ListServers));
            |r.log| > 3 && (detection.isMonorepo ==> |detection.monorepoFolders| > 0)
            && (!detection.isMonorepo ==>
                  r.log[3] == CreateApplication(AppPayload("app", projectId, Basename(cwd), "Main application", serverId)))
            && (detection.isMonorepo ==>
                  var f := detection.monorepoFolders[0];
                  r.log[3] == CreateApplication(AppPayload(f.name, projectId, f.name, "Application for " + f.name, serverId)))
  {
    var detection := Classify(t, cwd);
    if detection.value.isMonorepo {
      MonorepoHasFolders(t, cwd);
    }
    Dispatch(LoadConfiguration(env, isValidUrl), repository, detection, t, cwd, p);
  }

  /** Only creation failures end the deployment stage with exit status 1: the last request of
   *  a failed deployment is the project or application creation that failed. */
  lemma FailsOnlyOnCreation(config: Result<Config, ConfigError>, repository: Option<string>,
                            detection: Result<Monorepo.Detection, DetectionError>, t: Tree, cwd: string, p: Platform)
    ensures var r := Finish(config, repository, detection, t, cwd, p);
            r.outcome == Exited(Deploying) ==>
              r.log != [] && (r.log[|r.log| - 1].CreateProject? || r.log[|r.log| - 1].CreateApplication?)
  {
    var r := Finish(config, repository, detection, t, cwd, p);
    if r.outcome == Exited(Deploying) {
      var folderName := Basename(cwd);
      ProjectLookups(p, [], folderName, None, None);
      var project := ProjectSetup(p, [], folderName, None, None);
      if project.result.Ok? {
        var det := detection.value;
        var ctx := Context(t, cwd, config.value.domain, project.serverId, project.githubId);
        if det.isMonorepo {
          var folders := det.monorepoFolders;
          MonorepoAborts(p, project.log, ctx, project.result.value, folders, repository.value, folderName);
          var k: nat :| AbortsAt(p, project.log, ctx, project.result.value, folders, repository.value, folderName, k);
        } else {
          var req := SingleAppRequest(ctx, project.result.value, folderName);
          assert r.log == project.log + [req];
        }
      }
    }
  }

  // ---------------------------------------------------------------------------
  // The deployer

  /** `DokployDeployer`: the working directory, the project name taken from it, and the state
   *  each stage fills in. */
  class DokployDeployer {
    const currentDir: string
    const folderName: string := Basename(currentDir)
    var dokployUrl: string
    var apiToken: string
    var domain: string
    var dokployManager: DokployManager?
    var monorepoDetector: MonorepoDetector?
    var remoteUrl: string
    var isMonorepo: bool
    var monorepoFolders: seq<Folder>

    constructor(currentDir: string)
      ensures this.currentDir == currentDir && folderName == Basename(currentDir)
      ensures dokployUrl == "" && apiToken == "" && domain == ""
      ensures dokployManager == null && monorepoDetector == null
      ensures remoteUrl == "" && !isMonorepo && monorepoFolders == []
    {
      this.currentDir := currentDir;
      dokployUrl := "";
      apiToken := "";
      domain := "";
      dokployManager := null;
      monorepoDetector := null;
      remoteUrl := "";
      isMonorepo := false;
      monorepoFolders := [];
    }

    /** `loadConfiguration`: on success the configuration is stored and a fresh manager is made
     *  with it; on failure the process exits and nothing changes. */
    method LoadConfiguration(env: ConfigManager.Env, isValidUrl: string -> bool, platform: Platform)
      returns (r: Result<Config, ConfigError>)
      modifies this`dokployUrl, this`apiToken, this`domain, this`dokployManager
      ensures r == ConfigManager.LoadConfiguration(env, isValidUrl)
      ensures r.Err? ==> unchanged(this)
      ensures r.Ok? ==>
                dokployUrl == r.value.dokployUrl && apiToken == r.value.apiToken && domain == r.value.domain
                && dokployManager != null && fresh(dokployManager)
                && dokployManager.dokployUrl == dokployUrl && dokployManager.apiToken == apiToken
                && dokployManager.domain == domain && dokployManager.platform == platform
                && dokployManager.serverId.None? && dokployManager.githubId.None? && dokployManager.sent == []
    {
      r := ConfigManager.LoadConfiguration(env, isValidUrl);
      if r.Err? {
        return;
      }
      dokployUrl := r.value.dokployUrl;
      apiToken := r.value.apiToken;
      domain := r.value.domain;
      dokployManager := new DokployManager(dokployUrl, apiToken, domain, platform);
    }

    /** `setupRepository`: the remote URL the repository stage settles on, or its exit. */
    method SetupRepository(repository: Option<string>) returns (ok: bool)
      modifies this`remoteUrl
      ensures ok == repository.Some?
      ensures ok ==> remoteUrl == repository.value
      ensures !ok ==> remoteUrl == old(remoteUrl)
    {
      if repository.None? {
        return false;
      }
      remoteUrl := repository.value;
      return true;
    }

    /** `detectProjectStructure`: a fresh detector over the working directory, whose result is
     *  copied verbatim; an unreadable root is thrown on. */
    method DetectProjectStructure(t: Tree) returns (r: Result<Detection, DetectionError>)
      modifies this`monorepoDetector, this`isMonorepo, this`monorepoFolders
      ensures r == Classify(t, currentDir)
      ensures r.Ok? ==> isMonorepo == r.value.isMonorepo && monorepoFolders == r.value.monorepoFolders
      ensures r.Err? ==> isMonorepo == old(isMonorepo) && monorepoFolders == old(monorepoFolders)
      ensures monorepoDetector != null && fresh(monorepoDetector)
    {
      var detector := new MonorepoDetector(currentDir);
      monorepoDetector := detector;
      r := detector.CheckMonorepo(t);
      if r.Err? {
        return;
      }
      isMonorepo := r.value.isMonorepo;
      monorepoFolders := r.value.monorepoFolders;
    }

    /** `deployToDocploy`: the project, then the path the detection chose; a thrown error ends
     *  the process. */
    method DeployToDokploy(t: Tree) returns (ok: bool)
      requires dokployManager != null
      modifies dokployManager
      ensures Deployment(dokployManager.sent, ok)
              == DeployTraffic(dokployManager.platform, old(dokployManager.sent), t, currentDir, dokployManager.domain,
                               folderName, remoteUrl, isMonorepo, monorepoFolders,
                               old(dokployManager.serverId), old(dokployManager.githubId))
    {
      var manager := dokployManager;
      var project := manager.CreateProject(folderName);
      if project.Err? {
        return false;
      }
      var projectId := project.value;
      if isMonorepo {
        var apps := manager.CreateMonorepoApplications(t, currentDir, projectId, monorepoFolders, remoteUrl, folderName);
        ok := apps.Ok?;
      } else {
        var app := manager.CreateSingleApplication(t, currentDir, projectId, folderName, remoteUrl);
        ok := app.Ok?;
      }
    }

    /** `init`: the four stages in order; the first that ends the process decides the outcome,
     *  and the requests sent are those of the whole run. */
    method Init(env: ConfigManager.Env, isValidUrl: string -> bool, repository: Option<string>, t: Tree,
                platform: Platform)
      returns (outcome: Outcome)
      requires dokployManager == null
      modifies this
      ensures outcome == RunAll(env, isValidUrl, repository, t, currentDir, platform).outcome
      ensures dokployManager != null ==> dokployManager.sent == RunAll(env, isValidUrl, repository, t, currentDir, platform).log
      ensures dokployManager == null ==> RunAll(env, isValidUrl, repository, t, currentDir, platform).log == []
    {
      ghost var run := RunAll(env, isValidUrl, repository, t, currentDir, platform);
      var config := LoadConfiguration(env, isValidUrl, platform);
      if config.Err? {
        assert run == Run(Exited(LoadingConfiguration), []);
        return Exited(LoadingConfiguration);
      }
      var manager := dokployManager;
      var ok := SetupRepository(repository);
      if !ok {
        assert run == Run(Exited(SettingUpRepository), []);
        return Exited(SettingUpRepository);
      }
      var detection := DetectProjectStructure(t);
      assert run == Finish(config, repository, detection, t, currentDir, platform);
      if detection.Err? {
        assert run == Run(Exited(DetectingStructure), []);
        return Exited(DetectingStructure);
      }
      assert dokployManager == manager && manager.domain == config.value.domain && manager.platform == platform;
      assert manager.sent == [] && manager.serverId.None? && manager.githubId.None?;
      assert remoteUrl == repository.value && isMonorepo == detection.value.isMonorepo
             && monorepoFolders == detection.value.monorepoFolders;
      FinishDeploys(config.value, repository.value, detection.value, t, currentDir, platform);
      ok := DeployToDokploy(t);
      outcome := if ok then Completed else Exited(Deploying);
    }
  }
}
