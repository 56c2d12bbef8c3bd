# Dependency-upgrade orchestrator, modelled in Dafny

`scripts/index.js` is a batch script. For each configured repository it does the following:

- opens the working copy in the directory `streamotion-web-<repo>-widgets`;
- checks out and pulls `main`, creating `main` from `origin/main` when it is not a local branch;
- checks out the target branch, or creates it when it does not exist locally;
- runs `npm install` with every configured dependency pinned to its published tarball URL;
- commits `package.json` and `package-lock.json` with the message `update dependencies`;
- pushes the branch with upstream tracking, unless `origin/<branch>` is already listed among the remote branches.

Any error in a repository's steps is caught and logged, and the other repositories are unaffected by it.

The model has six modules:

- `Wrappers`: `Option` and `Result`.
- `Strings`: `Join` (as `Array.prototype.join`), prefix and suffix tests, and `SplitLast`, which cuts a string at the last occurrence of a character.
- `PackageUrl`: the package-name parser `getDependencyNameFromUrl`. The pattern `/(?<name>[^/]+)/version/[^/]+/package\.tgz$` is anchored only at the end. Its name group and its version part are non-empty and contain no `/`, so the model reads the URL from its last four `/`:
  - the piece after the last `/` must be `package.tgz`;
  - the piece before that is the version, and must be non-empty;
  - the piece before that must be `version`;
  - the piece before that is the name, and must be non-empty.

  `ParseCharacterisation` proves that this accepts exactly the URLs `prefix/name/version/v/package.tgz`, for any prefix and any `/`-free, non-empty name and `v`.
- `Install`: the install specifiers and the `npm install … -f` command line of `upgradeDependencies`, and the directory name of `getRepoPath`. The script's `reduce`/`push` accumulator is the method `BuildInstallCommand`, proved equal to the pure `InstallCommand`.
- `Git`: an abstract working copy. It is a `GitState` value with:
  - the current branch;
  - the local branches;
  - the remote-tracking branches;
  - the upstream settings;
  - the staged paths;
  - the commits, each recording its branch, its paths and its message;
  - the set of commands the outside world refuses;
  - a log of every attempted command and whether it succeeded.

  `Run` gives the effect of one command. `RunAll` runs a list of commands and stops at the first failure, as a sequence of awaited calls inside one `try` block does. The class `WorkingCopy` holds the same fields and is updated in place by `Exec`.
- `Upgrade`: the git steps and the batch.
  - `switchBranch`, `upgradeDependencies`, `commit`, `remoteBranchExists` and `pushBranch` are the methods `SwitchBranch`, `UpgradeDependencies`, `CommitChanges`, `RemoteBranchExists` and `PushBranch`. Each runs against a `WorkingCopy`.
  - `upgradeRepo` is `UpgradeWorkingCopy` and `UpgradeRepo`; `main` is `RunBatch`. Each is proved equal to a pure function: `UpgradeRun`, `UpgradeInWorkspace` and `Batch`.
  - The properties are lemmas about those functions.

The configuration constants `REPOS_TO_UPGRADE`, `DEPENDENCIES_TO_UPGRADE` and `BRANCH_NAME` are the fields of `Upgrade.Config`. The repositories on disk are a map from directory name to working copy.

The remote check follows the code: the push is issued only when `origin/<branch>` is not among the remote branches, and the run succeeds whether or not the push was skipped.

## Model

| member | source | states |
|---|---|---|
| Strings.Join | scripts/index.js:95 | no pieces give the empty string, and one piece gives that piece; with several, the result begins with the first piece and ends with the last; `Strings.JoinSnoc` states what lies between |
| Strings.JoinSnoc | scripts/index.js:95 | joining one more piece appends the separator and that piece, so with the empty and one-piece cases the pieces appear in order, one separator between neighbours |
| Strings.SplitLast | scripts/index.js:50 | there is no cut exactly when the character is absent; a cut gives a last piece without the character, and the two pieces around it rebuild the string |
| Strings.SplitLastAppend | scripts/index.js:50 | cutting `init + c + last` at its last `c`, when `last` has no `c`, gives back `init` and `last` |
| PackageUrl.LastParts | scripts/index.js:50 | when the URL has four `/`, the prefix and the four `/`-free pieces after them rebuild the URL |
| PackageUrl.ParseDependencyName | scripts/index.js:49-57 | an accepted name is non-empty and has no `/`; a rejection throws exactly the message `URL does not match the expected pattern: ` followed by the URL |
| PackageUrl.LastPartsOf | scripts/index.js:50 | a URL made of any prefix and four `/`-free pieces is cut back into exactly those pieces |
| PackageUrl.ParseDependencyUrl | scripts/index.js:50-56 | for any prefix, even one containing `/version/`, and any non-empty, `/`-free name and version, `prefix/name/version/v/package.tgz` parses to exactly that name, the one before the final `/version/<v>/package.tgz` |
| PackageUrl.ParsedUrlHasShape | scripts/index.js:50-56 | every accepted URL is some prefix, `/`, the returned name, `/version/`, a non-empty `/`-free version and `/package.tgz` |
| PackageUrl.ParseCharacterisation | scripts/index.js:50-56 | the parser returns `name` if and only if the URL is `prefix/name/version/v/package.tgz` for some prefix and some non-empty `/`-free `v`, with `name` non-empty and `/`-free |
| PackageUrl.RejectsMissingTarball | scripts/index.js:50-53 | a URL that does not end in `/package.tgz` throws |
| PackageUrl.RejectsWrongMarker | scripts/index.js:50-53 | a URL whose third-from-last segment is not exactly `version` throws |
| PackageUrl.RejectsEmptySegment | scripts/index.js:50-53 | a URL whose name or version segment is empty throws |
| PackageUrl.RejectsNoLeadingSlash | scripts/index.js:50-53 | a URL with no `/` before the name throws |
| Install.Specifier | scripts/index.js:89-90 | a URL has a specifier exactly when it parses; the specifier begins with `@fsa-streamotion/` and ends with `@` and the URL; otherwise the error is the parser's; `Install.SpecifiersValues` states the name in between |
| Install.Specifiers | scripts/index.js:87-94 | when every URL parses, there is one specifier per URL; otherwise the error is a parser error message |
| Install.SpecifiersAccept | scripts/index.js:87-94 | the specifiers exist if and only if every URL parses |
| Install.SpecifiersValues | scripts/index.js:89-90 | the i-th specifier is `@fsa-streamotion/` + the name parsed from the i-th URL + `@` + that URL |
| Install.SpecifiersFirstError | scripts/index.js:87-94 | when specifiers are missing, the error is the one thrown for the first URL the parser rejects |
| Install.SpecifiersKeepError | scripts/index.js:87-94 | once a prefix of the URLs has thrown, the whole list throws the same error: later URLs are never parsed |
| Install.InstallCommand | scripts/index.js:87-98 | a command begins with `npm install ` and ends with ` -f`; an error is the parser's mismatch message; `Install.InstallCommandShape` states the whole command and which error |
| Install.InstallCommandShape | scripts/index.js:87-98 | the command exists if and only if every URL parses; then it is `npm install ` + the specifiers joined by single spaces + ` -f`, one specifier per URL in order, each pinning its URL under its scoped name; otherwise no command exists and the error is the first rejected URL's |
| Install.BuildInstallCommand | scripts/index.js:85-95 | the accumulator loop, which stops at the first URL that does not parse, yields exactly the command or error of `InstallCommand` |
| Install.RepoDirName | scripts/index.js:59-61 | the directory name begins with `streamotion-web-`, ends with `-widgets`, and holds the repository name in between |
| Install.RepoDirNameInjective | scripts/index.js:59-61 | distinct repository names give distinct directories |
| Git.Run | scripts/index.js:71-117 | one attempted command is appended to the log with its success; a refused command changes nothing else; only a checkout or a created branch can add its branch to the local branches; only checkouts move the current branch; only add and commit touch the staged paths and commits; only a push touches the remote branches; only a push or a checkout touches the upstreams |
| Git.CheckoutFromRemote | scripts/index.js:72 | checking out a branch that is not local but is on `origin` succeeds, creates the branch tracking `origin/<branch>` and switches to it |
| Git.RunAll | scripts/index.js:120-129 | running commands in order: the log keeps its old entries and gains at most one entry per command; the refused commands stay the same |
| Git.RunAllTrace | scripts/index.js:120-129 | the log records the commands in order, all successful but possibly the last; the run fails exactly when some command was not reached or did not succeed, and then the last recorded command is the one that failed |
| Git.LogAfterStep | scripts/index.js:120-129 | the events after a successful first command are that command followed by the rest |
| Git.TraceCons | scripts/index.js:120-129 | a recorded trace stays a trace when a successful command is put in front of it |
| Git.RunAllCons | scripts/index.js:120-129 | a refused first command ends the run with that command as the failure; an accepted one continues with the rest |
| Git.RunAllAppend | scripts/index.js:120-129 | running two command lists in sequence, the second only if the first succeeded, equals running their concatenation |
| Git.WorkingCopy.constructor | scripts/index.js:65-66 | a new handle bound to a working copy holds that copy's state; the repositories' handles are given to `Upgrade.UpgradeRepo`, which opens one by its directory name |
| Git.WorkingCopy.Exec | scripts/index.js:71-117 | issuing a command reports whether it was accepted and updates the fields in place exactly as `Run` says |
| Upgrade.SwitchToTarget | scripts/index.js:75-82 | the last switch command names the target; it is a checkout exactly when the target was local, or is main and main was checked out, and a branch creation otherwise; `Upgrade.SwitchBranchSucceeded` and `Upgrade.TargetOnlyOnRemote` state its effect |
| Upgrade.PushPlan | scripts/index.js:125 | no push exactly when `origin/<branch>` is among the remote branches, and otherwise the one push of the branch to `origin` with upstream; `Upgrade.PushOnlyWhenBranchIsNew` states it for the whole run |
| Upgrade.Planned | scripts/index.js:121-125 | the plan begins with the four commands of the branch switch, and is only those four exactly when some URL is malformed; `Upgrade.PlannedWhenWellFormed` and `Upgrade.PlanShape` state the rest of the order |
| Upgrade.UpgradeRun | scripts/index.js:120-132 | a success implies the URLs parse; an opened working copy never gives the open error; a malformed-URL failure carries the parser's error; `Upgrade.UpgradeRunStopsAtFirstFailure`, `Upgrade.UpgradeSuccessIff` and `Upgrade.UpgradeSucceeded` state the rest |
| Upgrade.UpgradeInWorkspace | scripts/index.js:63-69 | only the repository's own directory changes; the outcome is the open error exactly when that directory is not a working copy |
| Upgrade.Batch | scripts/index.js:135-137 | one outcome per configured repository; the set of directories is unchanged |
| Upgrade.SwitchBranch | scripts/index.js:71-83 | checks out main, pulls, lists the local branches, then checks out the target if it was listed and creates it otherwise, stopping at the first failure; the new state and the outcome are those of running `SwitchPlan`; the remote branches are untouched |
| Upgrade.UpgradeDependencies | scripts/index.js:85-102 | a malformed URL returns the parser's error before any command exists and leaves the working copy as it was; otherwise the install command runs once in the working copy |
| Upgrade.CommitChanges | scripts/index.js:104-107 | stages `package.json` and `package-lock.json`, then commits with `update dependencies`, the commit only if staging succeeded |
| Upgrade.RemoteBranchExists | scripts/index.js:109-112 | lists the remote branches and reports whether `origin/<branch>` was among them, or the listing's failure |
| Upgrade.PushBranch | scripts/index.js:114-117 | pushes the branch to `origin` with upstream tracking set |
| Upgrade.UpgradeWorkingCopy | scripts/index.js:120-129 | the steps of `upgradeRepo` in order on an opened working copy, the push only when the remote lacks the branch, give exactly the outcome and state of `UpgradeRun`; every failure becomes a Failure outcome |
| Upgrade.UpgradeRepo | scripts/index.js:119-133 | open the repository's directory and run the pipeline there; the outcome and the new workspace are those of `UpgradeInWorkspace`, and no error escapes |
| Upgrade.RunBatch | scripts/index.js:135-137 | `upgradeRepo` for every configured repository in turn; the outcomes and the final workspace are those of `Batch` |
| Upgrade.SwitchRunUnfolds | scripts/index.js:71-83 | a successful branch switch ran its four commands, each accepted, one after another |
| Upgrade.SwitchStepsEffect | scripts/index.js:71-83 | after the four accepted commands the current branch is the target, the local branches gain main and the target if they were missing, a main created from the remote tracks `origin/main`, and the log gains those four commands |
| Upgrade.SwitchBranchSucceeded | scripts/index.js:71-83 | after a successful switch the current branch is the target; the local branches are the old ones plus main and the target, so when main and the target were both local they are unchanged, and a missing target is added and nothing else; the upstreams change only for a main created from the remote |
| Upgrade.SwitchBranchOrder | scripts/index.js:72-80 | a successful switch checked out main first, pulled it, listed the local branches, then checked out or created the target |
| Upgrade.SwitchBranchKeeps | scripts/index.js:71-83 | a branch switch, successful or not, leaves the staged paths, the commits and the remote branches unchanged, and the upstreams as checking out main left them |
| Upgrade.UpgradeRunStopsAtFirstFailure | scripts/index.js:119-133 | `upgradeRepo` issues the planned steps in order, and every recorded command but the last succeeded; a failed command is the last one recorded; success holds exactly when the URLs parse and every planned command ran and succeeded |
| Upgrade.MalformedUrlStopsBeforeInstall | scripts/index.js:87-98 | with a malformed URL there is no install, commit, remote check or push; only branch-switch commands are issued; no commit is made; after a successful switch the outcome is the parser's error |
| Upgrade.MalformedRunIsSwitch | scripts/index.js:119-133 | with a malformed URL the run is the branch switch alone, and its outcome is the switch's failure or else the parse error |
| Upgrade.PlannedWhenMalformed | scripts/index.js:119-133 | with a malformed URL the planned commands are those of the branch switch only |
| Upgrade.PlannedWhenWellFormed | scripts/index.js:119-129 | with well-formed URLs the plan is the switch, then install, add, commit and the remote listing, then the push when one is needed |
| Upgrade.WellFormedRunSplits | scripts/index.js:119-129 | with well-formed URLs the run is the switch, then the work steps if the switch succeeded, then the push if those succeeded |
| Upgrade.UpgradeRunStages | scripts/index.js:119-133 | the run of `upgradeRepo` is the switch, install, commit, remote check and push, each run only if everything before it succeeded |
| Upgrade.WorkRunUnfolds | scripts/index.js:123-125 | successful install, commit and remote listing ran their four commands, each accepted, one after another |
| Upgrade.WorkStepsEffect | scripts/index.js:104-107 | the accepted install, add and commit add one commit on the current branch, holding the previously staged paths plus `package.json` and `package-lock.json`, with message `update dependencies`; nothing is left staged; the branches and upstreams are unchanged |
| Upgrade.PushPlanEffect | scripts/index.js:114-117 | after a successful push step the remote has `origin/<branch>`; the upstream is set exactly when a push was needed; the branches, commits and staged paths are unchanged |
| Upgrade.UpgradeSucceeded | scripts/index.js:119-129 | after a successful run: the current branch is the target; the local branches are the old ones plus main and the target; there is exactly one new commit of the manifests on the target with message `update dependencies`; nothing is staged; the remote has the branch; the target's upstream is set only if the branch was new to the remote, and main's only if main was created from the remote |
| Upgrade.HeadHasNoPush | scripts/index.js:121-125 | the branch switch and the work steps are eight commands, none of them a push |
| Upgrade.PlanShape | scripts/index.js:119-129 | no push comes before the ninth planned command; a malformed URL leaves four commands; otherwise, when the remote lacks the branch, the ninth command is the push with upstream |
| Upgrade.PushOnlyWhenBranchIsNew | scripts/index.js:109-125 | a push is attempted if and only if the URLs parse, every earlier command succeeded, and `origin/<branch>` was not among the remote branches |
| Upgrade.UpgradeSuccessIff | scripts/index.js:125-129 | the run succeeds if and only if the URLs parse, the eight commands before the push succeeded, and either the remote already had the branch (push skipped) or the push succeeded |
| Upgrade.TargetOnlyOnRemote | scripts/index.js:76-125 | a target on the remote but not local is created from main, gets the new commit, and is not pushed, because the remote lists it; the run still succeeds, and the target gains no upstream |
| Upgrade.RerunSkipsPush | scripts/index.js:109-125 | after a successful run, a second run with the same configuration checks out the existing target branch instead of creating it, and pushes nothing |
| Upgrade.BatchLeavesOthers | scripts/index.js:135-137 | the batch leaves alone every directory that holds none of its repositories |
| Upgrade.BatchRepoIndependent | scripts/index.js:135-137 | a repository listed once gets the outcome it would get alone, and its working copy ends as its own run leaves it, whatever happens to the others |
| Upgrade.BatchUnfold | scripts/index.js:135-137 | the batch is the batch of all repositories but the last, followed by the last one |
| Upgrade.LastRepoIndependent | scripts/index.js:135-137 | the last repository, if listed once, finds its working copy as it was at the start and gets the outcome it would get alone |

## Left out

- `executeCommand` in `utils.js` is not part of this model. It is a promise wrapper around process execution.
- The constants in `inputs.js` and `REPO_BASE_DIR` are not modelled as constants. The repositories, URLs and branch are `Config` parameters.
- `path.resolve` and the base directory are not modelled. Only the directory-name string is, and the workspace is keyed by it.
- Console output is not modelled (scripts/index.js:78, 81, 97, 116, 127-128, 131). The caught outcome is returned as a value instead.
- File contents are not modelled: the installed packages, the lockfile, and what pull fetches. Install and pull change them only, so in the model they change nothing but the log.
- Pull does not update the remote-tracking branches in the model. The remote check sees the remote branches as they were when the run started, plus any pushed by the run itself.
- Failures of npm and of the network are not modelled by cause. A command is refused when it is in the working copy's `rejects` set. git's own refusals are modelled: checking out a branch that is neither local nor on `origin`, pulling into a branch with no upstream, creating an existing or empty branch, and pushing a missing local branch. Ref-name rules beyond the empty name are not.
- `git checkout` of a branch that is only on a remote is modelled for `origin`, the one remote the working copies have. Other remotes, and names that several remotes share, are not modelled.
- Upgrade.WorkStepsEffect: always stages both `package.json` and `package-lock.json`, whatever the install changed, because file contents are not modelled. The case where the install leaves both manifests unchanged, so that git has nothing to commit, is not modelled; whether `git.commit` then throws is left open. The refusal of a commit with nothing staged therefore cannot arise in the pipeline.
- Upgrade.UpgradeSucceeded: for the same reason, every successful run records a new `update dependencies` commit, a second run with the same configuration included; git would make no commit when the manifests did not change.
- Opening a working copy fails in the model only when the directory does not hold one. Other failures of `git.cwd` are not modelled. Nor is the effect of its `root: true` option: a plain directory nested inside another working copy opens the outer copy, while npm runs in the nested directory.
- General JavaScript regular-expression semantics are not modelled. `PackageUrl` shows that this particular pattern is equivalent to the rule on the last four `/`.
- The `forEach(upgradeRepo)` fan-out of `main` starts every repository without awaiting them, and the runs interleave. The model runs them in order; that order is only one of the possible interleavings.
  - `BatchRepoIndependent` proves that a repository listed once is unaffected by the others, since each works in its own directory.
  - A repository listed twice would race on one working copy in the script. The model runs the two passes one after the other.
- The auxiliary QA push that some variants of the tool issue is not modelled. This script has none.
