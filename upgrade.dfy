/** The per-repository pipeline of scripts/index.js (switchBranch, upgradeDependencies,
    commit, remoteBranchExists, pushBranch, upgradeRepo) and the batch over all repositories
    (main). */
module Upgrade {
  import opened Wrappers
  import opened Install
  import opened Git

  const MainBranch := "main"
  const Manifests := ["package.json", "package-lock.json"]
  const ManifestSet := set p | p in Manifests
  const CommitMessage := "update dependencies"

  /** The configuration constants of the script, as parameters. */
  datatype Config = Config(repos: seq<string>, dependencyUrls: seq<string>, branch: string)

  datatype Error =
    | MalformedUrl(message: string)     // thrown by getDependencyNameFromUrl
    | NotAWorkingCopy(dir: string)      // git.cwd on a directory that is not a repository
    | CommandFailed(cmd: Command)       // a git command or the install failed

  /** What upgradeRepo logs: success, or the error it caught. */
  datatype Outcome = Success | Failure(error: Error)

  function StepOutcome(failed: Option<Command>): Outcome
  {
    match failed
    case None => Success
    case Some(c) => Failure(CommandFailed(c))
  }

  // ---- The commands each step issues, decided from the state the pipeline starts in ----

  /** Check out and pull main, list the local branches, then check out the target branch if
      it is one of them and create it otherwise. Pull and the listing leave the local branches
      as checking out main left them, so the choice is made on those. */
  function SwitchPlan(s: GitState, branch: string): seq<Command>
  {
    [Checkout(MainBranch), Pull, BranchLocal, SwitchToTarget(s, branch)]
  }

  function SwitchToTarget(s: GitState, branch: string): (c: Command)
    ensures (c.Checkout? || c.CheckoutLocalBranch?) && c.branch == branch
    ensures c.Checkout? <==> branch in s.local || (branch == MainBranch && Accepts(s, Checkout(MainBranch)))
  {
    if branch in Run(s, Checkout(MainBranch)).local then Checkout(branch) else CheckoutLocalBranch(branch)
  }

  /** The upstream settings after checking out main: a main that was only on the remote is
      created tracking it. */
  function UpstreamAfterMain(s: GitState): map<string, string>
  {
    if MainBranch in s.local then s.upstream else s.upstream[MainBranch := TrackingName(Origin, MainBranch)]
  }

  const CommitPlan := [Add(Manifests), Commit(CommitMessage)]

  /** The push is skipped when the remote already has the branch. */
  function PushPlan(s: GitState, branch: string): (r: seq<Command>)
    ensures r == [] <==> TrackingName(Origin, branch) in s.remote
    ensures |r| <= 1 && forall i :: 0 <= i < |r| ==> r[i] == Push(Origin, branch, true)
  {
    if TrackingName(Origin, branch) in s.remote then [] else [Push(Origin, branch, true)]
  }

  /** Everything upgradeRepo issues when every step succeeds; when a URL is malformed the
      pipeline stops after switching branch, before any install command exists. */
  function Planned(s: GitState, cfg: Config): (r: seq<Command>)
    ensures |r| >= 4 && r[..4] == SwitchPlan(s, cfg.branch)
    ensures InstallCommand(cfg.dependencyUrls).Err? <==> |r| == 4
  {
    SwitchPlan(s, cfg.branch) +
    match InstallCommand(cfg.dependencyUrls)
    case Err(_) => []
    case Ok(cmd) => WorkPlan(cmd) + PushPlan(s, cfg.branch)
  }

  /** Install, stage and commit the manifests, then list the remote branches. */
  function WorkPlan(install: string): seq<Command>
  {
    [NpmInstall(install)] + CommitPlan + [BranchRemote]
  }

  function RepoOutcome(failed: Option<Command>, install: Result<string, string>): Outcome
  {
    if failed.Some? then Failure(CommandFailed(failed.value))
    else if install.Err? then Failure(MalformedUrl(install.error))
    else Success
  }

  /** The outcome and final state of upgradeRepo on an opened working copy. */
  function UpgradeRun(s: GitState, cfg: Config): (r: (Outcome, GitState))
    ensures r.0 == Success ==> InstallCommand(cfg.dependencyUrls).Ok?
    ensures !(r.0.Failure? && r.0.error.NotAWorkingCopy?)
    ensures r.0.Failure? && r.0.error.MalformedUrl? ==> InstallCommand(cfg.dependencyUrls) == Err(r.0.error.message)
  {
    var r := RunAll(s, Planned(s, cfg));
    (RepoOutcome(r.failed, InstallCommand(cfg.dependencyUrls)), r.state)
  }

  /** The repositories on disk: directory name to working copy. */
  type Workspace = map<string, GitState>

  /** upgradeRepo: open the repository's directory, then run the pipeline on it. */
  function UpgradeInWorkspace(ws: Workspace, repoName: string, cfg: Config): (r: (Outcome, Workspace))
    ensures r.1.Keys == ws.Keys
    ensures forall d :: d in ws && d != RepoDirName(repoName) ==> r.1[d] == ws[d]
    ensures RepoDirName(repoName) !in ws <==> r.0 == Failure(NotAWorkingCopy(RepoDirName(repoName)))
  {
    var dir := RepoDirName(repoName);
    if dir !in ws then (Failure(NotAWorkingCopy(dir)), ws)
    else
      var (o, t) := UpgradeRun(ws[dir], cfg);
      (o, ws[dir := t])
  }

  /** main: upgradeRepo on every configured repository, outcomes collected in order. */
  function Batch(ws: Workspace, repos: seq<string>, cfg: Config): (r: (seq<Outcome>, Workspace))
    ensures |r.0| == |repos|
    ensures r.1.Keys == ws.Keys
  {
    if |repos| == 0 then ([], ws)
    else
      var (outs, ws1) := Batch(ws, repos[..|repos| - 1], cfg);
      var (o, ws2) := UpgradeInWorkspace(ws1, repos[|repos| - 1], cfg);
      (outs + [o], ws2)
  }

  // ---- The steps, run against a working copy ----

  method SwitchBranch(git: WorkingCopy, branch: string) returns (o: Outcome)
    modifies git
    ensures git.remote == old(git.remote)
    ensures var r := RunAll(old(git.State()), SwitchPlan(old(git.State()), branch));
            git.State() == r.state && o == StepOutcome(r.failed)
  {
    ghost var s0 := git.State();
    ghost var last := SwitchToTarget(s0, branch);
    ghost var goal := RunAll(s0, SwitchPlan(s0, branch));
    assert SwitchPlan(s0, branch) == [Checkout(MainBranch)] + [Pull, BranchLocal, last];
    RunAllCons(s0, Checkout(MainBranch), [Pull, BranchLocal, last]);
    var ok := git.Exec(Checkout(MainBranch));
    if !ok {
      return Failure(CommandFailed(Checkout(MainBranch)));
    }
    assert goal == RunAll(git.State(), [Pull] + [BranchLocal, last]);
    RunAllCons(git.State(), Pull, [BranchLocal, last]);
    ok := git.Exec(Pull);
    if !ok {
      return Failure(CommandFailed(Pull));
    }
    assert goal == RunAll(git.State(), [BranchLocal] + [last]);
    RunAllCons(git.State(), BranchLocal, [last]);
    ok := git.Exec(BranchLocal);
    if !ok {
      return Failure(CommandFailed(BranchLocal));
    }
    assert goal == RunAll(git.State(), [last] + []);
    assert git.local == Run(s0, Checkout(MainBranch)).local;
    var branches := git.local;
    RunAllCons(git.State(), last, []);
    if branch in branches {
      ok := git.Exec(Checkout(branch));
      o := if ok then Success else Failure(CommandFailed(Checkout(branch)));
    } else {
      ok := git.Exec(CheckoutLocalBranch(branch));
      o := if ok then Success else Failure(CommandFailed(CheckoutLocalBranch(branch)));
    }
  }

  method UpgradeDependencies(git: WorkingCopy, urls: seq<string>) returns (o: Outcome)
    modifies git
    ensures git.remote == old(git.remote)
    ensures match InstallCommand(urls)
            case Err(m) => o == Failure(MalformedUrl(m)) && git.State() == old(git.State())
            case Ok(cmd) =>
              var r := RunAll(old(git.State()), [NpmInstall(cmd)]);
              git.State() == r.state && o == StepOutcome(r.failed)
  {
    var command := BuildInstallCommand(urls);
    if command.Err? {
      return Failure(MalformedUrl(command.error));
    }
    RunAllCons(git.State(), NpmInstall(command.value), []);
    var ok := git.Exec(NpmInstall(command.value));
    o := if ok then Success else Failure(CommandFailed(NpmInstall(command.value)));
  }

  method CommitChanges(git: WorkingCopy) returns (o: Outcome)
    modifies git
    ensures git.remote == old(git.remote)
    ensures var r := RunAll(old(git.State()), CommitPlan);
            git.State() == r.state && o == StepOutcome(r.failed)
  {
    RunAllCons(git.State(), Add(Manifests), [Commit(CommitMessage)]);
    var ok := git.Exec(Add(Manifests));
    if !ok {
      return Failure(CommandFailed(Add(Manifests)));
    }
    RunAllCons(git.State(), Commit(CommitMessage), []);
    ok := git.Exec(Commit(CommitMessage));
    o := if ok then Success else Failure(CommandFailed(Commit(CommitMessage)));
  }

  method RemoteBranchExists(git: WorkingCopy, branch: string) returns (r: Result<bool, Error>)
    modifies git
    ensures git.remote == old(git.remote)
    ensures var rr := RunAll(old(git.State()), [BranchRemote]);
            && git.State() == rr.state
            && r == if rr.failed.Some? then Err(CommandFailed(BranchRemote))
                    else Ok(TrackingName(Origin, branch) in old(git.remote))
  {
    RunAllCons(git.State(), BranchRemote, []);
    var ok := git.Exec(BranchRemote);
    if !ok {
      return Err(CommandFailed(BranchRemote));
    }
    r := Ok(TrackingName(Origin, branch) in git.remote);
  }

  method PushBranch(git: WorkingCopy, branch: string) returns (o: Outcome)
    modifies git
    ensures var r := RunAll(old(git.State()), [Push(Origin, branch, true)]);
            git.State() == r.state && o == StepOutcome(r.failed)
  {
    RunAllCons(git.State(), Push(Origin, branch, true), []);
    var ok := git.Exec(Push(Origin, branch, true));
    o := if ok then Success else Failure(CommandFailed(Push(Origin, branch, true)));
  }

  /** The body of upgradeRepo's try block on an opened working copy; every failure ends the
      run with a Failure outcome instead of escaping. */
  method UpgradeWorkingCopy(git: WorkingCopy, cfg: Config) returns (o: Outcome)
    modifies git
    ensures (o, git.State()) == UpgradeRun(old(git.State()), cfg)
  {
    ghost var s0 := git.State();
    ghost var install := InstallCommand(cfg.dependencyUrls);
    UpgradeRunStages(s0, cfg);
    o := SwitchBranch(git, cfg.branch);
    if o.Failure? {
      return;
    }
    o := UpgradeDependencies(git, cfg.dependencyUrls);
    if o.Failure? {
      return;
    }
    o := CommitChanges(git);
    if o.Failure? {
      return;
    }
    ghost var s3 := git.State();
    var onRemote := RemoteBranchExists(git, cfg.branch);
    if onRemote.Err? {
      return Failure(onRemote.error);
    }
    assert PushPlan(s0, cfg.branch) == PushPlan(s3, cfg.branch);
    if !onRemote.value {
      o := PushBranch(git, cfg.branch);
    } else {
      assert RunAll(git.State(), []).state == git.State();
    }
  }

  /** Distinct directories hold distinct working copies. */
  predicate DistinctCopies(ws: map<string, WorkingCopy>)
  {
    forall d, e :: d in ws && e in ws && d != e ==> ws[d] != ws[e]
  }

  /** The state of every working copy in the workspace. */
  function Snapshot(ws: map<string, WorkingCopy>): Workspace
    reads ws.Values
  {
    map d | d in ws :: ws[d].State()
  }

  /** upgradeRepo: open the repository's directory and run the pipeline in it; an error in
      any step becomes the Failure outcome and nothing escapes. */
  method UpgradeRepo(ws: map<string, WorkingCopy>, repoName: string, cfg: Config) returns (o: Outcome)
    requires DistinctCopies(ws)
    modifies ws.Values
    ensures (o, Snapshot(ws)) == UpgradeInWorkspace(old(Snapshot(ws)), repoName, cfg)
  {
    var dir := RepoDirName(repoName);
    if dir !in ws {
      return Failure(NotAWorkingCopy(dir));
    }
    var git := ws[dir];
    o := UpgradeWorkingCopy(git, cfg);
    assert Snapshot(ws) == old(Snapshot(ws))[dir := git.State()];
  }

  /** main: upgradeRepo for every configured repository in turn, each outcome kept. */
  method RunBatch(ws: map<string, WorkingCopy>, cfg: Config) returns (outcomes: seq<Outcome>)
    requires DistinctCopies(ws)
    modifies ws.Values
    ensures (outcomes, Snapshot(ws)) == Batch(old(Snapshot(ws)), cfg.repos, cfg)
  {
    outcomes := [];
    var i := 0;
    while i < |cfg.repos|
      invariant 0 <= i <= |cfg.repos|
      invariant (outcomes, Snapshot(ws)) == Batch(old(Snapshot(ws)), cfg.repos[..i], cfg)
    {
      assert cfg.repos[..i + 1][..i] == cfg.repos[..i];
      var o := UpgradeRepo(ws, cfg.repos[i], cfg);
      outcomes := outcomes + [o];
      i := i + 1;
    }
    assert cfg.repos[..|cfg.repos|] == cfg.repos;
  }

  // ---- Properties of the pipeline ----

  /** The four commands of a branch switch applied one after another. */
  function SwitchSteps(s: GitState, branch: string): GitState
  {
    Run(Run(Run(Run(s, Checkout(MainBranch)), Pull), BranchLocal), SwitchToTarget(s, branch))
  }

  /** A successful branch switch ran its four commands, each accepted. */
  lemma SwitchRunUnfolds(s: GitState, branch: string)
    requires RunAll(s, SwitchPlan(s, branch)).failed.None?
    ensures var s1 := Run(s, Checkout(MainBranch));
            var s2 := Run(s1, Pull);
            var s3 := Run(s2, BranchLocal);
            && Accepts(s, Checkout(MainBranch)) && Accepts(s1, Pull) && Accepts(s2, BranchLocal)
            && Accepts(s3, SwitchToTarget(s, branch))
    ensures RunAll(s, SwitchPlan(s, branch)).state == SwitchSteps(s, branch)
  {
    var last := SwitchToTarget(s, branch);
    assert SwitchPlan(s, branch) == [Checkout(MainBranch)] + [Pull, BranchLocal, last];
    RunAllCons(s, Checkout(MainBranch), [Pull, BranchLocal, last]);
    var s1 := Run(s, Checkout(MainBranch));
    assert [Pull, BranchLocal, last] == [Pull] + [BranchLocal, last];
    RunAllCons(s1, Pull, [BranchLocal, last]);
    var s2 := Run(s1, Pull);
    assert [BranchLocal, last] == [BranchLocal] + [last];
    RunAllCons(s2, BranchLocal, [last]);
    var s3 := Run(s2, BranchLocal);
    RunAllCons(s3, last, []);
  }

  /** What the four accepted commands of a branch switch do. */
  lemma SwitchStepsEffect(s: GitState, branch: string)
    requires Accepts(s, Checkout(MainBranch))
    requires Accepts(Run(s, Checkout(MainBranch)), Pull)
    requires Accepts(Run(Run(s, Checkout(MainBranch)), Pull), BranchLocal)
    requires Accepts(Run(Run(Run(s, Checkout(MainBranch)), Pull), BranchLocal), SwitchToTarget(s, branch))
    ensures SwitchSteps(s, branch).current == branch
    ensures SwitchSteps(s, branch).local == s.local + {MainBranch, branch}
    ensures SwitchSteps(s, branch).upstream == UpstreamAfterMain(s)
    ensures SwitchSteps(s, branch).log
         == s.log + [Event(Checkout(MainBranch), true), Event(Pull, true), Event(BranchLocal, true),
                     Event(SwitchToTarget(s, branch), true)]
  {
  }

  /** After a successful branch switch the current branch is the target; an existing target
      was checked out without creating a second one, and a missing target was created, so the
      local branches gain exactly the target, and main when it was only on the remote. The
      upstream settings change only for such a main. */
  lemma SwitchBranchSucceeded(s: GitState, branch: string)
    requires RunAll(s, SwitchPlan(s, branch)).failed.None?
    ensures RunAll(s, SwitchPlan(s, branch)).state.current == branch
    ensures RunAll(s, SwitchPlan(s, branch)).state.local == s.local + {MainBranch, branch}
    ensures RunAll(s, SwitchPlan(s, branch)).state.upstream == UpstreamAfterMain(s)
  {
    SwitchRunUnfolds(s, branch);
    SwitchStepsEffect(s, branch);
  }

  /** A successful branch switch checked out main and pulled it before anything else, then
      listed the local branches, then checked out or created the target. */
  lemma SwitchBranchOrder(s: GitState, branch: string)
    requires RunAll(s, SwitchPlan(s, branch)).failed.None?
    ensures RunAll(s, SwitchPlan(s, branch)).state.log
         == s.log + [Event(Checkout(MainBranch), true), Event(Pull, true), Event(BranchLocal, true),
                     Event(SwitchToTarget(s, branch), true)]
  {
    SwitchRunUnfolds(s, branch);
    SwitchStepsEffect(s, branch);
  }

  /** A branch switch, successful or not, leaves the staged paths, the commits and the remote
      branches as they were, and the upstream settings as checking out main left them. */
  lemma SwitchBranchKeeps(s: GitState, branch: string)
    ensures var t := RunAll(s, SwitchPlan(s, branch)).state;
            && t.staged == s.staged && t.commits == s.commits && t.remote == s.remote
            && t.upstream == Run(s, Checkout(MainBranch)).upstream
  {
    var last := SwitchToTarget(s, branch);
    assert SwitchPlan(s, branch) == [Checkout(MainBranch)] + [Pull, BranchLocal, last];
    RunAllCons(s, Checkout(MainBranch), [Pull, BranchLocal, last]);
    var s1 := Run(s, Checkout(MainBranch));
    assert [Pull, BranchLocal, last] == [Pull] + [BranchLocal, last];
    RunAllCons(s1, Pull, [BranchLocal, last]);
    var s2 := Run(s1, Pull);
    assert [BranchLocal, last] == [BranchLocal] + [last];
    RunAllCons(s2, BranchLocal, [last]);
    var s3 := Run(s2, BranchLocal);
    RunAllCons(s3, last, []);
  }

  /** The events of one repository's run. */
  function RunEvents(s: GitState, cfg: Config): seq<Event>
  {
    var r := RunAll(s, Planned(s, cfg));
    NewEvents(s, r)
  }

  /** upgradeRepo issues the planned commands in order and stops at the first failure: every
      recorded command but the last succeeded, a failed command is the last one recorded, and
      the outcome is a success exactly when every planned command ran and succeeded and no
      URL was malformed. */
  lemma UpgradeRunStopsAtFirstFailure(s: GitState, cfg: Config)
    ensures var (o, _) := UpgradeRun(s, cfg);
            var ev := RunEvents(s, cfg);
            var plan := Planned(s, cfg);
            && |ev| <= |plan|
            && (forall i :: 0 <= i < |ev| ==> ev[i].cmd == plan[i])
            && (forall i :: 0 <= i < |ev| - 1 ==> ev[i].ok)
            && (o.Failure? && o.error.CommandFailed? ==> ev[|ev| - 1] == Event(o.error.cmd, false))
            && (o == Success <==> InstallCommand(cfg.dependencyUrls).Ok? && |ev| == |plan|
                                  && forall i :: 0 <= i < |ev| ==> ev[i].ok)
  {
    RunAllTrace(s, Planned(s, cfg));
  }

  /** A malformed dependency URL stops the run after the branch switch: no install, commit,
      remote check or push is attempted, and the outcome is the parser's error. */
  lemma MalformedUrlStopsBeforeInstall(s: GitState, cfg: Config)
    requires InstallCommand(cfg.dependencyUrls).Err?
    ensures var (o, t) := UpgradeRun(s, cfg);
            var ev := RunEvents(s, cfg);
            && o.Failure?
            && |ev| <= 4
            && (forall i :: 0 <= i < |ev| ==> ev[i].cmd in SwitchPlan(s, cfg.branch))
            && t.commits == s.commits
            && (RunAll(s, SwitchPlan(s, cfg.branch)).failed.None? ==>
                  o == Failure(MalformedUrl(InstallCommand(cfg.dependencyUrls).error)))
  {
    MalformedRunIsSwitch(s, cfg);
    RunAllTrace(s, SwitchPlan(s, cfg.branch));
    SwitchBranchKeeps(s, cfg.branch);
  }

  /** With a malformed URL the run is the branch switch alone. */
  lemma MalformedRunIsSwitch(s: GitState, cfg: Config)
    requires InstallCommand(cfg.dependencyUrls).Err?
    ensures var r := RunAll(s, SwitchPlan(s, cfg.branch));
            && UpgradeRun(s, cfg) == (RepoOutcome(r.failed, InstallCommand(cfg.dependencyUrls)), r.state)
            && RunEvents(s, cfg) == NewEvents(s, r)
  {
    PlannedWhenMalformed(s, cfg);
  }

  lemma PlannedWhenMalformed(s: GitState, cfg: Config)
    requires InstallCommand(cfg.dependencyUrls).Err?
    ensures Planned(s, cfg) == SwitchPlan(s, cfg.branch)
  {
    assert Planned(s, cfg) == SwitchPlan(s, cfg.branch) + [];
  }

  lemma PlannedWhenWellFormed(s: GitState, cfg: Config)
    requires InstallCommand(cfg.dependencyUrls).Ok?
    ensures Planned(s, cfg)
         == SwitchPlan(s, cfg.branch) + WorkPlan(InstallCommand(cfg.dependencyUrls).value) + PushPlan(s, cfg.branch)
  {
  }

  /** With well-formed URLs the run is the branch switch, then the install, commit and remote
      listing, then the push if one is planned, each part only if the previous one succeeded. */
  lemma WellFormedRunSplits(s: GitState, cfg: Config)
    requires InstallCommand(cfg.dependencyUrls).Ok?
    ensures RunAll(s, Planned(s, cfg))
         == Then(Then(RunAll(s, SwitchPlan(s, cfg.branch)), WorkPlan(InstallCommand(cfg.dependencyUrls).value)),
                 PushPlan(s, cfg.branch))
  {
    var sw := SwitchPlan(s, cfg.branch);
    var work := WorkPlan(InstallCommand(cfg.dependencyUrls).value);
    PlannedWhenWellFormed(s, cfg);
    RunAllAppend(s, sw + work, PushPlan(s, cfg.branch));
    RunAllAppend(s, sw, work);
  }

  /** The four commands after the branch switch applied one after another. */
  function WorkSteps(t: GitState, install: string): GitState
  {
    Run(Run(Run(Run(t, NpmInstall(install)), Add(Manifests)), Commit(CommitMessage)), BranchRemote)
  }

  lemma WorkRunUnfolds(t: GitState, install: string)
    requires RunAll(t, WorkPlan(install)).failed.None?
    ensures var t1 := Run(t, NpmInstall(install));
            var t2 := Run(t1, Add(Manifests));
            var t3 := Run(t2, Commit(CommitMessage));
            && Accepts(t, NpmInstall(install)) && Accepts(t1, Add(Manifests))
            && Accepts(t2, Commit(CommitMessage)) && Accepts(t3, BranchRemote)
    ensures RunAll(t, WorkPlan(install)).state == WorkSteps(t, install)
  {
    assert WorkPlan(install) == [NpmInstall(install)] + [Add(Manifests), Commit(CommitMessage), BranchRemote];
    RunAllCons(t, NpmInstall(install), [Add(Manifests), Commit(CommitMessage), BranchRemote]);
    var t1 := Run(t, NpmInstall(install));
    assert [Add(Manifests), Commit(CommitMessage), BranchRemote]
        == [Add(Manifests)] + [Commit(CommitMessage), BranchRemote];
    RunAllCons(t1, Add(Manifests), [Commit(CommitMessage), BranchRemote]);
    var t2 := Run(t1, Add(Manifests));
    assert [Commit(CommitMessage), BranchRemote] == [Commit(CommitMessage)] + [BranchRemote];
    RunAllCons(t2, Commit(CommitMessage), [BranchRemote]);
    var t3 := Run(t2, Commit(CommitMessage));
    RunAllCons(t3, BranchRemote, []);
  }

  /** What the accepted install, add, commit and remote listing do: one commit of the staged
      paths and the two manifests on the current branch, and nothing left staged. */
  lemma WorkStepsEffect(t: GitState, install: string)
    requires Accepts(t, NpmInstall(install))
    requires Accepts(Run(t, NpmInstall(install)), Add(Manifests))
    requires Accepts(Run(Run(t, NpmInstall(install)), Add(Manifests)), Commit(CommitMessage))
    ensures var u := WorkSteps(t, install);
            && u.commits == t.commits + [CommitRecord(t.current, t.staged + ManifestSet, CommitMessage)]
            && u.staged == {}
            && u.current == t.current && u.local == t.local && u.remote == t.remote && u.upstream == t.upstream
  {
  }

  /** After a push plan that succeeded the remote has the branch; the upstream is set exactly
      when a push was needed. */
  lemma PushPlanEffect(u: GitState, s: GitState, branch: string)
    requires u.remote == s.remote
    requires RunAll(u, PushPlan(s, branch)).failed.None?
    ensures var v := RunAll(u, PushPlan(s, branch)).state;
            && TrackingName(Origin, branch) in v.remote
            && v.upstream == (if TrackingName(Origin, branch) in s.remote then u.upstream
                              else u.upstream[branch := TrackingName(Origin, branch)])
            && v.current == u.current && v.local == u.local && v.commits == u.commits && v.staged == u.staged
  {
    if TrackingName(Origin, branch) !in s.remote {
      RunAllCons(u, Push(Origin, branch, true), []);
    }
  }

  /** A successful run leaves the working copy on the target branch with one new commit of
      the manifests (and whatever was staged before) on that branch, nothing staged, and the
      branch on the remote; the upstream of the target is set only when the branch was new to
      the remote, and that of main only when main was created from the remote. */
  lemma {:induction false} UpgradeSucceeded(s: GitState, cfg: Config)
    requires UpgradeRun(s, cfg).0 == Success
    ensures var t := UpgradeRun(s, cfg).1;
            var b := cfg.branch;
            && t.current == b
            && t.local == s.local + {MainBranch, b}
            && t.commits == s.commits + [CommitRecord(b, s.staged + ManifestSet, CommitMessage)]
            && t.staged == {}
            && TrackingName(Origin, b) in t.remote
            && t.upstream == (if TrackingName(Origin, b) in s.remote then UpstreamAfterMain(s)
                              else UpstreamAfterMain(s)[b := TrackingName(Origin, b)])
  {
    var b := cfg.branch;
    var install := InstallCommand(cfg.dependencyUrls);
    assert install.Ok?;
    WellFormedRunSplits(s, cfg);
    var r1 := RunAll(s, SwitchPlan(s, b));
    assert r1.failed.None?;
    SwitchBranchSucceeded(s, b);
    SwitchBranchKeeps(s, b);
    var r2 := RunAll(r1.state, WorkPlan(install.value));
    assert r2.failed.None?;
    WorkRunUnfolds(r1.state, install.value);
    WorkStepsEffect(r1.state, install.value);
    PushPlanEffect(r2.state, s, b);
  }

  /** The branch switch and the work steps are eight commands, none of them a push. */
  lemma HeadHasNoPush(s: GitState, branch: string, install: string)
    ensures var head := SwitchPlan(s, branch) + WorkPlan(install);
            |head| == 8 && forall i :: 0 <= i < 8 ==> !head[i].Push?
  {
  }

  /** The planned commands before the push: none of them is a push. */
  lemma PlanShape(s: GitState, cfg: Config)
    ensures var plan := Planned(s, cfg);
            && (forall i :: 0 <= i < |plan| && i < 8 ==> !plan[i].Push?)
            && (InstallCommand(cfg.dependencyUrls).Err? ==> |plan| == 4)
            && (InstallCommand(cfg.dependencyUrls).Ok? ==>
                  && |plan| == 8 + |PushPlan(s, cfg.branch)|
                  && (TrackingName(Origin, cfg.branch) !in s.remote ==> plan[8] == Push(Origin, cfg.branch, true)))
  {
    var plan := Planned(s, cfg);
    if InstallCommand(cfg.dependencyUrls).Ok? {
      var head := SwitchPlan(s, cfg.branch) + WorkPlan(InstallCommand(cfg.dependencyUrls).value);
      PlannedWhenWellFormed(s, cfg);
      HeadHasNoPush(s, cfg.branch, InstallCommand(cfg.dependencyUrls).value);
      assert plan == head + PushPlan(s, cfg.branch);
      assert forall i :: 0 <= i < 8 ==> plan[i] == head[i];
    } else {
      PlannedWhenMalformed(s, cfg);
    }
  }

  /** remoteBranchExists gates the push: a push is attempted exactly when the URLs are
      well-formed, the eight commands before it all succeeded, and the remote did not already
      have the branch. */
  lemma {:induction false} PushOnlyWhenBranchIsNew(s: GitState, cfg: Config)
    ensures var ev := RunEvents(s, cfg);
            ((exists i :: 0 <= i < |ev| && ev[i].cmd.Push?)
             <==> && InstallCommand(cfg.dependencyUrls).Ok?
                  && TrackingName(Origin, cfg.branch) !in s.remote
                  && |ev| >= 8 && (forall i :: 0 <= i < 8 ==> ev[i].ok))
  {
    var plan := Planned(s, cfg);
    var r := RunAll(s, plan);
    var ev := RunEvents(s, cfg);
    RunAllTrace(s, plan);
    PlanShape(s, cfg);
    assert Trace(ev, plan, r.failed);
    if exists i :: 0 <= i < |ev| && ev[i].cmd.Push? {
      var i :| 0 <= i < |ev| && ev[i].cmd.Push?;
      assert plan[i].Push?;
      assert i >= 8;
      assert InstallCommand(cfg.dependencyUrls).Ok?;
      assert |PushPlan(s, cfg.branch)| != 0;
      forall j | 0 <= j < 8
        ensures ev[j].ok
      {
        assert j < |ev| - 1;
      }
    }
    if && InstallCommand(cfg.dependencyUrls).Ok?
       && TrackingName(Origin, cfg.branch) !in s.remote
       && |ev| >= 8 && (forall i :: 0 <= i < 8 ==> ev[i].ok)
    {
      assert |plan| == 9;
      assert ev[8].cmd == Push(Origin, cfg.branch, true);
    }
  }

  /** The batch leaves alone every directory that none of its repositories lives in. */
  lemma {:induction false} BatchLeavesOthers(ws: Workspace, repos: seq<string>, cfg: Config, d: string)
    requires d in ws
    requires forall j :: 0 <= j < |repos| ==> RepoDirName(repos[j]) != d
    ensures Batch(ws, repos, cfg).1[d] == ws[d]
    decreases |repos|
  {
    if |repos| > 0 {
      BatchLeavesOthers(ws, repos[..|repos| - 1], cfg, d);
    }
  }

  /** Repositories are upgraded independently: a repository listed once gets the outcome it
      would get alone in the starting workspace, and its working copy ends as its own run
      leaves it, whatever the other repositories' runs do. */
  lemma {:induction false} BatchRepoIndependent(ws: Workspace, repos: seq<string>, cfg: Config, i: int)
    requires 0 <= i < |repos|
    requires forall j :: 0 <= j < |repos| && j != i ==> repos[j] != repos[i]
    ensures Batch(ws, repos, cfg).0[i] == UpgradeInWorkspace(ws, repos[i], cfg).0
    ensures RepoDirName(repos[i]) in ws ==>
              Batch(ws, repos, cfg).1[RepoDirName(repos[i])] == UpgradeRun(ws[RepoDirName(repos[i])], cfg).1
    decreases |repos|
  {
    var n := |repos|;
    var pre := repos[..n - 1];
    BatchUnfold(ws, repos, cfg);
    if i == n - 1 {
      LastRepoIndependent(ws, repos, cfg);
    } else {
      BatchRepoIndependent(ws, pre, cfg, i);
      var d := RepoDirName(repos[i]);
      if d in ws && RepoDirName(repos[n - 1]) == d {
        RepoDirNameInjective(repos[n - 1], repos[i]);
      }
    }
  }

  /** The batch is the batch of all but the last repository, then the last one. */
  lemma BatchUnfold(ws: Workspace, repos: seq<string>, cfg: Config)
    requires |repos| > 0
    ensures var front := Batch(ws, repos[..|repos| - 1], cfg);
            var last := UpgradeInWorkspace(front.1, repos[|repos| - 1], cfg);
            Batch(ws, repos, cfg) == (front.0 + [last.0], last.1)
  {
  }

  /** The last repository, listed once, sees its working copy as it was at the start. */
  lemma LastRepoIndependent(ws: Workspace, repos: seq<string>, cfg: Config)
    requires |repos| > 0
    requires forall j :: 0 <= j < |repos| - 1 ==> repos[j] != repos[|repos| - 1]
    ensures var front := Batch(ws, repos[..|repos| - 1], cfg);
            var d := RepoDirName(repos[|repos| - 1]);
            && UpgradeInWorkspace(front.1, repos[|repos| - 1], cfg).0 == UpgradeInWorkspace(ws, repos[|repos| - 1], cfg).0
            && (d in ws ==> UpgradeInWorkspace(front.1, repos[|repos| - 1], cfg).1[d] == UpgradeRun(ws[d], cfg).1)
  {
    var pre := repos[..|repos| - 1];
    var d := RepoDirName(repos[|repos| - 1]);
    if d in ws {
      forall j | 0 <= j < |pre|
        ensures RepoDirName(pre[j]) != d
      {
        if RepoDirName(pre[j]) == d {
          RepoDirNameInjective(pre[j], repos[|repos| - 1]);
        }
      }
      BatchLeavesOthers(ws, pre, cfg, d);
    }
  }

  /** The run of upgradeRepo on an opened working copy, step by step: the branch switch, then
      (when the URLs are well-formed) the install, the commit, the remote listing and the push
      if one is planned, each only if everything before it succeeded. */
  lemma UpgradeRunStages(s: GitState, cfg: Config)
    ensures var sw := RunAll(s, SwitchPlan(s, cfg.branch));
            UpgradeRun(s, cfg)
            == match InstallCommand(cfg.dependencyUrls)
               case Err(_) => (RepoOutcome(sw.failed, InstallCommand(cfg.dependencyUrls)), sw.state)
               case Ok(cmd) =>
                 var r := Then(Then(Then(Then(sw, [NpmInstall(cmd)]), CommitPlan), [BranchRemote]), PushPlan(s, cfg.branch));
                 (RepoOutcome(r.failed, InstallCommand(cfg.dependencyUrls)), r.state)
  {
    var a := SwitchPlan(s, cfg.branch);
    match InstallCommand(cfg.dependencyUrls)
    case Err(_) =>
      MalformedRunIsSwitch(s, cfg);
    case Ok(cmd) =>
      var push := PushPlan(s, cfg.branch);
      PlannedWhenWellFormed(s, cfg);
      assert Planned(s, cfg) == a + [NpmInstall(cmd)] + CommitPlan + [BranchRemote] + push;
      RunAllAppend(s, a + [NpmInstall(cmd)] + CommitPlan + [BranchRemote], push);
      RunAllAppend(s, a + [NpmInstall(cmd)] + CommitPlan, [BranchRemote]);
      RunAllAppend(s, a + [NpmInstall(cmd)], CommitPlan);
      RunAllAppend(s, a, [NpmInstall(cmd)]);
  }

  /** The run succeeds exactly when the URLs are well-formed and the eight commands before
      the push all succeeded, and then either the remote already had the branch (no push) or
      the push succeeded. */
  lemma {:induction false} UpgradeSuccessIff(s: GitState, cfg: Config)
    ensures var ev := RunEvents(s, cfg);
            (UpgradeRun(s, cfg).0 == Success
             <==> && InstallCommand(cfg.dependencyUrls).Ok?
                  && |ev| >= 8 && (forall i :: 0 <= i < 8 ==> ev[i].ok)
                  && (TrackingName(Origin, cfg.branch) in s.remote || (|ev| == 9 && ev[8].ok)))
  {
    var plan := Planned(s, cfg);
    var r := RunAll(s, plan);
    var ev := RunEvents(s, cfg);
    RunAllTrace(s, plan);
    PlanShape(s, cfg);
    assert Trace(ev, plan, r.failed);
    assert UpgradeRun(s, cfg).0 == RepoOutcome(r.failed, InstallCommand(cfg.dependencyUrls));
  }

  /** Running the upgrade again after a successful run is idempotent on branches: the second
      run checks out the existing target branch instead of creating it, and pushes nothing,
      since the remote already has the branch. */
  lemma RerunSkipsPush(s: GitState, cfg: Config)
    requires UpgradeRun(s, cfg).0 == Success
    ensures var t := UpgradeRun(s, cfg).1;
            var ev := RunEvents(t, cfg);
            && SwitchToTarget(t, cfg.branch) == Checkout(cfg.branch)
            && forall i :: 0 <= i < |ev| ==> !ev[i].cmd.Push?
  {
    UpgradeSucceeded(s, cfg);
    PushOnlyWhenBranchIsNew(UpgradeRun(s, cfg).1, cfg);
  }

  /** A target branch that is on the remote but not local is created afresh from main and
      committed to, and then not pushed, since the remote already lists it: the run succeeds
      although the new commit is not published and the target gains no upstream. */
  lemma TargetOnlyOnRemote(s: GitState, cfg: Config)
    requires cfg.branch != MainBranch && cfg.branch !in s.local && cfg.branch !in s.upstream
    requires TrackingName(Origin, cfg.branch) in s.remote
    requires UpgradeRun(s, cfg).0 == Success
    ensures SwitchToTarget(s, cfg.branch) == CheckoutLocalBranch(cfg.branch)
    ensures var t := UpgradeRun(s, cfg).1;
            && |t.commits| == |s.commits| + 1 && t.commits[|s.commits|].branch == cfg.branch
            && cfg.branch !in t.upstream
    ensures forall i :: 0 <= i < |RunEvents(s, cfg)| ==> !RunEvents(s, cfg)[i].cmd.Push?
  {
    UpgradeSucceeded(s, cfg);
    PushOnlyWhenBranchIsNew(s, cfg);
  }
}
