# dokploy-deploy, modelled in Dafny

A model of the decision logic of `dokploy-deploy`. This CLI onboards the working directory
into a self-hosted Dokploy instance. Four pieces are modelled:

- **Monorepo detection** (`monorepo.dfy`, module `Monorepo`). It collects evidence from a
  file-system snapshot: configuration files, a `workspaces` field in `package.json`, and groups
  of application directories (a root group `.` plus one group per conventional container such
  as `packages/`). A rule then decides single app or monorepo, and the groups are flattened into
  `{name, path}` folders. Pure functions (`Classify`, `DirectoryGroups`, `Flatten`, ...) state
  the result. The class `MonorepoDetector` computes it with the source's loops and field
  updates and is proved equal to those functions.
- **Dokploy orchestration** (`dokploy.dfy`, module `Dokploy`). Every HTTP call is a `Request`
  value. The platform is an oracle `(earlier requests, request) -> Response`. The functions
  `ProjectSetup`, `SingleTraffic` and `MonorepoTraffic` state the exact requests an operation
  sends and its outcome. The class `DokployManager` sends them one at a time and logs them in
  `sent`, and its methods are proved to produce exactly that traffic.
- **The driver** (`deployer.dfy`, module `Deployer`). `DokployDeployer.Init` runs
  configuration, repository, detection and deployment, in that order. `RunAll` states the whole
  run as a value: the exit outcome and every request sent.
- **Pure helpers**: configuration validation over an environment map (`config.dfy`), and the
  GitHub remote-URL parsing and `origin` extraction (`git.dfy`). Each regular expression is
  written out as the backtracking search an ECMAScript engine performs for it.

`filesystem.dfy` holds the snapshot: existing paths, directories as `lstat` reports them,
directory listings, file contents, and the parsed `workspaces` flag of each manifest.
`common.dfy` holds the JavaScript string and array operations used (`includes`, `replace`
with a string pattern, `split`, `path.join`, `path.basename`).

Behaviour worth noting, as the code has it:

- For a single application, detection returns an **empty** folder list, not one `.` entry
  (`src/modules/monorepo.js:17-18`, `:52`).
- A failed application creation is not local to its entry. It is rethrown, the remaining
  monorepo folders are skipped, and the process exits with status 1
  (`src/modules/dokploy.js:333-340`, `src/dokploy-deployer.js:83-86`).
- Detection can fail: listing the working directory is outside any `try`, so a failure
  there ends the process with status 1
  (`src/modules/monorepo.js:96`, `bin/dokploy-deploy.js:19-25`). This is `Err(RootUnreadable)`.
- Configuration indicators never change the outcome of detection. A monorepo is declared
  exactly when some group was recorded (`Monorepo.DecideIgnoresIndicators`).

## Model

| member | source | states |
|---|---|---|
| Monorepo.ProjectDirectoryMarkers | src/modules/monorepo.js:165-177 | a directory qualifies iff one of the nine marker entries (`package.json`, `index.js`, `index.ts`, `src`, `next.config.js/.ts`, `vite.config.js/.ts`, `Dockerfile`) exists in it |
| Monorepo.IndicatorsOrder | src/modules/monorepo.js:24-34 | the configuration indicators are exactly the listed files that exist, kept in list order; the workspaces indicator comes after them iff `package.json` exists, parses and has truthy `workspaces` |
| Monorepo.MonorepoDetector.constructor | src/modules/monorepo.js:7-12 | a detector for the working directory starts as a single application with no folders |
| Monorepo.MonorepoDetector.CheckConfigIndicators | src/modules/monorepo.js:55-66 | the loop pushes exactly the existing indicators, in the given order |
| Monorepo.MonorepoDetector.CheckPackageJsonWorkspaces | src/modules/monorepo.js:68-84 | appends the workspaces indicator only for an existing, parsable manifest with truthy `workspaces`; a parse error adds nothing |
| Monorepo.MonorepoDetector.CheckDirectoryStructures | src/modules/monorepo.js:86-105 | the groups are the root group followed by the container groups; `None` when the root cannot be listed |
| Monorepo.MonorepoDetector.CheckRootLevelApps | src/modules/monorepo.js:107-126 | appends the root group `.` only when two or more root candidates qualify |
| Monorepo.MonorepoDetector.CheckStructuredDirectories | src/modules/monorepo.js:128-163 | the loop appends one group per container that holds applications, in container order |
| Monorepo.RootGroupIff | src/modules/monorepo.js:96-126 | the `.` group is recorded, and then comes first, iff two or more non-hidden, non-`node_modules` root directories qualify; it lists them in listing order |
| Monorepo.ContainerGroupIff | src/modules/monorepo.js:128-163 | a container contributes a group iff it exists, is a directory, can be listed and has a qualifying child directory; the group keeps those children in listing order |
| Monorepo.ContainerGroupsOrder | src/modules/monorepo.js:87-90 | container groups appear in the fixed container order |
| Monorepo.DirectoryGroups | src/modules/monorepo.js:86-105 | every recorded group is well formed: `count == |apps| >= 1` |
| Monorepo.DecideIgnoresIndicators | src/modules/monorepo.js:40-42 | with well-formed groups the decision rule holds iff some group was recorded, whatever the indicators say |
| Monorepo.MonorepoIffGroups | src/modules/monorepo.js:188-216 | a readable root gives a detection, and it is a monorepo iff some group was recorded |
| Monorepo.MonorepoHasFolders | src/modules/monorepo.js:218-229 | a detected monorepo always has at least one folder |
| Monorepo.Classify | src/modules/monorepo.js:14-53 | fails iff the root cannot be listed; a non-monorepo has no folders; a monorepo has the flattened groups |
| Monorepo.FlattenLength | src/modules/monorepo.js:218-229 | the number of folders is the sum of the group counts |
| Monorepo.FlattenAt | src/modules/monorepo.js:218-229 | the `k`-th app of group `i` sits at offset (earlier counts + `k`), with name = directory name and path = bare name for `.` or `dir/name`; duplicates are kept |
| Monorepo.FoldersOf | src/modules/monorepo.js:222-225 | one folder per app of a group, in app order, with the group-relative path |
| Monorepo.ClassifyWithGroups | src/modules/monorepo.js:188-209 | whenever some group is recorded, the detection is a monorepo of the flattened groups |
| Monorepo.PackagesExample | src/modules/monorepo.js:14-53 | a root with `yarn.lock` and `packages/a`, `packages/b` (each with `package.json`) deploys `a` from `packages/a` and `b` from `packages/b` |
| Monorepo.MonorepoDetector.ProcessDetectionResults | src/modules/monorepo.js:188-216 | when the rule holds the detector becomes a monorepo with the flattened folders, otherwise its fields are untouched |
| Monorepo.MonorepoDetector.CollectApplications | src/modules/monorepo.js:218-229 | the loop replaces the folders with the flattened groups |
| Monorepo.MonorepoDetector.CheckMonorepo | src/modules/monorepo.js:14-53 | resets the fields, then leaves them equal to `Classify` of the snapshot, so re-running on an unchanged tree gives the same result |
| GitUtils.ExtractRemoteUrl | src/utils/git.js:5-8 | `''` iff no `origin<ws><url><ws>(fetch)` occurrence exists; otherwise the URL group of the leftmost occurrence, with the longest white-space run before it that still lets the rest match and then the shortest URL |
| GitUtils.ExtractFromFetchLine | src/utils/git.js:5-8 | on a line `origin<ws><url> (fetch)` with a space-free URL, exactly that URL is extracted |
| GitUtils.ExtractRemoteUrlExample | src/utils/git.js:5-8 | the usual two-line `git remote -v` output yields the fetch URL |
| GitUtils.ParseGitHubUrl | src/utils/git.js:10-39 | parsing never fails: owner and repository are non-empty and contain no `/` |
| GitUtils.MatchGitHubAt | src/utils/git.js:20-24 | a match has a non-empty, slash-free owner and repository |
| GitUtils.MatchGitHubAtSpans | src/utils/git.js:20-24 | a match covers the rest of the URL: the prefix, the owner, `/`, the repository and the optional `.git`, then the end |
| GitUtils.SearchGitHubLeftmost | src/utils/git.js:20-24 | the match used is the one with the leftmost start; nothing is found only when no start position matches |
| GitUtils.LazyRepositoryClosedForm | src/utils/git.js:20-24 | the lazy repository group with the optional `.git` keeps the text after the slash less one trailing `.git` |
| GitUtils.ParseHttpsUrl | src/utils/git.js:19-20 | `https://github.com/<o>/<r>` parses to `o` and `r` less one trailing `.git` |
| GitUtils.ParseSshUrl | src/utils/git.js:23-24 | `git@github.com:<o>/<r>` parses to `o` and `r` less one trailing `.git`; the HTTPS test is not met, so the SSH branch is taken |
| GitUtils.ParseRemoteFormsAgree | src/utils/git.js:11-14 | the HTTPS form with and without `.git` and the SSH form all give the same owner and repository |
| GitUtils.ParseStripsOneDotGit | src/utils/git.js:20 | only one trailing `.git` is stripped |
| GitUtils.ParseFallbackExamples | src/utils/git.js:33-38 | the empty URL falls back to `unknown`/`unknown` |
| GitUtils.ParseFallbackLastTwo | src/utils/git.js:33-38 | a URL `x/o/r` with neither GitHub prefix and no `.git` gives owner `o` and repository `r`, the last two `/`-separated segments |
| GitUtils.ParseFallbackDropsFirstDotGit | src/utils/git.js:33-38 | only the first `.git` is removed, wherever it stands, and the owner and repository are then the last two segments of what is left |
| GitUtils.ParseFallbackInnerDotGit | src/utils/git.js:33-38 | `http://gitea:3000/a.github/x` gives owner `ahub` and repository `x`: the `.git` inside a segment is the one removed |
| Common.ReplaceFirstAt | src/utils/git.js:34 | `replace` with a string pattern replaces the first occurrence and keeps the rest |
| Common.SplitAppend | src/utils/git.js:34 | `split` of `s + sep + b`, for `b` without the separator, is the split of `s` with `b` added as the last piece |
| Common.SplitJoinRoundTrip | src/utils/git.js:34 | joining the pieces of `split('/')` with `/` gives the string back |
| ConfigManager.LoadConfiguration | src/utils/config.js:15-56 | the first failing check among URL present, key present, URL valid, domain present is the error (each iff its conditions); success returns the URL less one trailing `/` and the key and domain unchanged |
| ConfigManager.LoadConfigurationSucceeds | src/utils/config.js:15-56 | loading succeeds iff all four checks pass, and then key and domain are non-empty |
| ConfigManager.StripTrailingSlash | src/utils/config.js:39 | exactly one trailing `/` is removed, and only when present |
| ConfigManager.StripTrailingSlashOnce | src/utils/config.js:39 | `u/` becomes `u`, and `u//` only `u/` |
| Dokploy.FirstListedId | src/modules/dokploy.js:35-42 | a lookup gives the first element's own id, else its `id`; nothing for a failed call, an empty list or an element with neither |
| Dokploy.CreatedId | src/modules/dokploy.js:109-114 | reading the created id throws iff the call failed or the answer had no body; a body without the field gives `""` |
| Dokploy.ProjectLookups | src/modules/dokploy.js:90-155 | a created project is followed by the server then the integration lookup, whose results become the manager's ids; a failed creation sends nothing more and keeps the ids |
| Dokploy.ProjectIgnoresLookups | src/modules/dokploy.js:118-135 | project creation's outcome depends only on the creation answer; the lookups never make it fail |
| Dokploy.FirstEnvFileFinds | src/modules/dokploy.js:489-505 | the first existing name in priority order, or none iff none exists |
| Dokploy.EnvFilePriority | src/modules/dokploy.js:492-501 | `.env` beats `.env.local`, which beats `.env.example` |
| Dokploy.MonorepoEnvFallback | src/modules/dokploy.js:284-304 | the root env is used only when the app directory has no env file; an unreadable or empty own file uploads nothing, with no root fallback |
| Dokploy.AfterCreateKinds | src/modules/dokploy.js:186-213 | after creation the domain is always requested and the deployment is always the last request |
| Dokploy.AfterCreateLink | src/modules/dokploy.js:343-366 | a link is sent iff there is a remote, an app id and an integration, and then with the parsed owner/repository, branch `main` and the build path |
| Dokploy.AfterCreateEnv | src/modules/dokploy.js:197-209 | the env is sent iff content was read and is non-empty, and then verbatim with `buildArgs ""` |
| Dokploy.SingleRequestsShape | src/modules/dokploy.js:157-213 | the single app is created as `app` with appName = folder name and the resolved server; its domain is `<folder>.<domain>` on `/`, port 3000, HTTPS, Let's Encrypt; it fails iff its creation fails |
| Dokploy.SingleOnlyCreationAnswerMatters | src/modules/dokploy.js:176-213 | for the single app, link, domain, env and deploy answers change nothing |
| Dokploy.AppRequestsShape | src/modules/dokploy.js:245-265 | each monorepo app starts with its creation request (name = appName = folder name), after all earlier traffic |
| Dokploy.AppRequestsCarry | src/modules/dokploy.js:252-274 | a monorepo app's creation carries the resolved server, and nothing is linked without an integration |
| Dokploy.MonorepoRequestsShape | src/modules/dokploy.js:242-316 | every creation of a monorepo carries the resolved server; without an integration no link is sent |
| Dokploy.MonorepoCreatesInOrder | src/modules/dokploy.js:242-316 | a completed loop records one app per folder in input order, with its name, its path, the id the platform answered to its creation request (sent right after the earlier folders' traffic) and the host `<folder>-<name>.<domain>`; within the folder's own traffic, after its creation request, the domain request for that host and id is sent with path `/`, port 3000, HTTPS and Let's Encrypt |
| Dokploy.MonorepoStepsExtend | src/modules/dokploy.js:242-316 | the traffic of a prefix of the folders is a prefix of the traffic of all folders |
| Dokploy.MonorepoAborts | src/modules/dokploy.js:333-340 | a failed loop ends with the creation request of the failing folder, right after the complete traffic of the folders before it |
| Dokploy.MonorepoErrorPersists | src/modules/dokploy.js:242-340 | once a creation has failed, later folders add nothing |
| Dokploy.OnlyCreationAnswersMatter | src/modules/dokploy.js:242-316 | domain, env and deploy failures are swallowed: platforms that agree on creation answers give the same traffic and result |
| Dokploy.MonorepoTraffic | src/modules/dokploy.js:236-341 | the traffic of the loop extends the traffic before it |
| Dokploy.DokployManager.constructor | src/modules/dokploy.js:9-16 | the manager keeps the URL, key and domain, has no server or integration id yet, and has sent nothing |
| Dokploy.DokployManager.GetDefaultServer | src/modules/dokploy.js:18-52 | one server listing is sent and its first id is returned; a failure gives none |
| Dokploy.DokployManager.GetGitHubIntegration | src/modules/dokploy.js:54-88 | one integration listing is sent and its first id is returned; a failure gives none |
| Dokploy.DokployManager.CreateProject | src/modules/dokploy.js:90-155 | sends exactly the `ProjectSetup` traffic and sets the server and integration ids |
| Dokploy.DokployManager.ConfigureGitHubRepository | src/modules/dokploy.js:343-404 | skipped without an integration; otherwise one link request, whose failure is swallowed |
| Dokploy.DokployManager.CreateDomainFor | src/modules/dokploy.js:406-451 | sends the fixed domain payload and returns the body, or nothing on failure |
| Dokploy.DokployManager.DeployApplication | src/modules/dokploy.js:453-487 | sends one deploy request and returns the body, or nothing on failure |
| Dokploy.DokployManager.SaveEnvironmentFor | src/modules/dokploy.js:527-565 | sends the content verbatim with empty build args, returning the body or nothing |
| Dokploy.DokployManager.DetectEnvironmentFile | src/modules/dokploy.js:489-505 | the priority loop returns `FirstEnvFile` of the base path |
| Dokploy.DokployManager.ReadEnvironmentFile | src/modules/dokploy.js:507-525 | the content as read, or nothing when reading throws |
| Dokploy.DokployManager.MonorepoEnvironment | src/modules/dokploy.js:281-304 | the content a monorepo app uploads is `MonorepoEnv`: its own directory first, the root only without an own file |
| Dokploy.DokployManager.CreateSingleApplication | src/modules/dokploy.js:157-234 | sends exactly the `SingleTraffic` requests and returns its outcome |
| Dokploy.DokployManager.CreateMonorepoApplications | src/modules/dokploy.js:236-341 | sends exactly the `MonorepoTraffic` requests, folder by folder, and returns the recorded `createdApps` or the first creation error |
| Deployer.FinishDeploys | src/dokploy-deployer.js:44-47 | once configuration, repository and detection succeed, the run is the deployment stage, completed iff it threw nothing |
| Deployer.ExitCode | src/dokploy-deployer.js:83-86 | status 0 iff the run completed, 1 otherwise |
| Deployer.StagesInOrder | src/dokploy-deployer.js:44-47 | each stage ends the run only when all earlier ones passed, and requests are sent iff the deployment stage is reached |
| Deployer.ProjectFirst | src/dokploy-deployer.js:76 | the first request creates the project named after the working directory's last segment; a failed creation ends the run with status 1 and nothing else sent |
| Deployer.DeploySends | src/dokploy-deployer.js:74-87 | deployment always starts with the project creation, and a failed creation is the only request |
| Deployer.Dispatch | src/dokploy-deployer.js:76-82 | after the project and both lookups, the fourth request creates the first monorepo folder's application when `isMonorepo`, otherwise the single `app` whose app name is the directory name; both carry the server the lookup resolved |
| Deployer.RunDispatch | src/dokploy-deployer.js:67-82 | a whole run dispatches on the detection, and a detected monorepo always has a first folder |
| Deployer.FailsOnlyOnCreation | src/dokploy-deployer.js:83-86 | the deployment stage exits with status 1 only after a failed project or application creation |
| Deployer.DokployDeployer.constructor | src/dokploy-deployer.js:11-32 | the project name is the last segment of the working directory; every other field starts empty |
| Deployer.DokployDeployer.LoadConfiguration | src/dokploy-deployer.js:50-60 | stores the loaded configuration and makes a fresh manager with it; an error changes nothing |
| Deployer.DokployDeployer.SetupRepository | src/dokploy-deployer.js:62-65 | stores the remote URL the repository stage settles on |
| Deployer.DokployDeployer.DetectProjectStructure | src/dokploy-deployer.js:67-72 | copies the detection result verbatim into the deployer's state |
| Deployer.DokployDeployer.DeployToDokploy | src/dokploy-deployer.js:74-87 | sends exactly the `DeployTraffic` requests: the project, then the path the detection chose |
| Deployer.DokployDeployer.Init | src/dokploy-deployer.js:34-48 | the four stages in order; the outcome and the requests sent are those of `RunAll` |

## Left out

- `src/modules/repository.js` is not part of this model. Its `git`/`gh` shell calls are
  replaced by their result: the remote URL, or `None` when the stage exits the process.
- `src/utils/logger.js`, `console.log`/`console.error` text, `chalk` colours and `ora` spinners
  are presentation only and are left out.
- `bin/dokploy-deploy.js` (argument parsing, `dotenv` loading) is left out. Its `catch` that
  exits with status 1 is reflected in the `Exited` outcomes.
- `getProjectIndicators` is left out: it only builds text for the console.
- The line filtering in `readEnvironmentFile` is left out: it only feeds a log message.
- In `configureGitHubRepository`, the inspection of `error.response` is left out: on a
  well-formed error body it only picks which manual-setup message to print. The model assumes
  such bodies. An `issues` field that is not an array, or an issue `path` without `includes`,
  makes `some`/`includes` throw inside the `catch` (`src/modules/dokploy.js:388`). That would
  turn a link failure into a fatal error, which the model does not capture.
- `createSingleApplication` and `createMonorepoApplications` return nothing in the source. The
  `Result` of `SingleTraffic` and `MonorepoTraffic` stands for two things: the local
  application id or `createdApps` list, which the source only prints
  (`src/modules/dokploy.js:240`, `:318-324`), and the rethrown creation error.
- HTTP is an oracle: `Platform` answers each request from the requests sent before it. Headers,
  the base URL and the API key are constant per manager and are not logged per request.
- `JSON.parse` of `package.json` is the `manifests` flag of the snapshot. `new URL` is a
  validity predicate given by the caller.
- `path.join` is `dir + "/" + name`, without normalisation.
- `async`/`await` is modelled as plain sequential calls. Every call is awaited, so there is no
  concurrency.
- JavaScript falsy identifiers (`undefined`, `null`, `""`) all become `None` or the empty string.
- `process.cwd()` inside `createSingleApplication` and `createMonorepoApplications` is the
  working directory passed in.
