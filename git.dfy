/** An abstract git working copy, standing for the `simple-git` handle and the `npm` process
    of scripts/index.js. Only what the orchestrator reads or changes is kept: the current
    branch, the local branches, the remote-tracking branches, upstream settings, the staged
    paths and the commits. Every command the orchestrator issues is recorded, with whether it
    succeeded, so that the order of steps is observable. */
module Git {
  import opened Wrappers

  /** The commands the orchestrator issues against one working copy. */
  datatype Command =
    | Checkout(branch: string)                  // git.checkout(branch)
    | Pull                                      // git.pull()
    | BranchLocal                               // git.branchLocal()
    | CheckoutLocalBranch(branch: string)       // git.checkoutLocalBranch(branch)
    | NpmInstall(commandLine: string)           // execSync(commandLine) in the working copy
    | Add(paths: seq<string>)                   // git.add(paths)
    | Commit(message: string)                   // git.commit(message)
    | BranchRemote                              // git.branch(["-r"])
    | Push(remote: string, branch: string, setUpstream: bool)  // git.push(remote, branch, ...)

  /** One attempted command and whether it succeeded. */
  datatype Event = Event(cmd: Command, ok: bool)

  datatype CommitRecord = CommitRecord(branch: string, paths: set<string>, message: string)

  /** The working copy. `rejects` are the commands the outside world refuses (a network
      failure on pull or push, a failing install, a commit with no changes, ...); `log` is
      every command attempted so far. */
  datatype GitState = GitState(
    current: string,
    local: set<string>,
    remote: set<string>,
    upstream: map<string, string>,
    staged: set<string>,
    commits: seq<CommitRecord>,
    rejects: set<Command>,
    log: seq<Event>)

  /** The one remote the working copies have. */
  const Origin := "origin"

  /** The name `git branch -r` lists for `branch` on `remote`. */
  function TrackingName(remote: string, branch: string): string
  {
    remote + "/" + branch
  }

  /** Whether the command succeeds in state `s`: git refuses to check out a branch that is
      neither local nor on the remote, to pull into a branch with no upstream, to create a
      branch that exists or has an empty name, to commit with nothing staged and to push a
      branch that does not exist locally. */
  predicate Accepts(s: GitState, c: Command)
  {
    && c !in s.rejects
    && match c
       case Checkout(b) => b in s.local || TrackingName(Origin, b) in s.remote
       case Pull => s.current in s.upstream
       case CheckoutLocalBranch(b) => b != "" && b !in s.local
       case Commit(_) => s.staged != {}
       case Push(_, b, _) => b in s.local
       case _ => true
  }

  /** The effect of a successful command. Checking out a branch that exists only on the
      remote creates it locally, tracking the remote branch. Pull and install change file
      contents only, which the model does not record. */
  function Apply(s: GitState, c: Command): GitState
  {
    match c
    case Checkout(b) =>
      if b in s.local then s.(current := b)
      else s.(current := b, local := s.local + {b}, upstream := s.upstream[b := TrackingName(Origin, b)])
    case CheckoutLocalBranch(b) => s.(current := b, local := s.local + {b})
    case Add(paths) => s.(staged := s.staged + set p | p in paths)
    case Commit(m) => s.(commits := s.commits + [CommitRecord(s.current, s.staged, m)], staged := {})
    case Push(r, b, up) =>
      s.(remote := s.remote + {TrackingName(r, b)},
         upstream := if up then s.upstream[b := TrackingName(r, b)] else s.upstream)
    case _ => s
  }

  /** Attempting one command: it is recorded, and it takes effect only if it succeeds. */
  function Run(s: GitState, c: Command): (t: GitState)
    ensures t.log == s.log + [Event(c, Accepts(s, c))]
    ensures t.rejects == s.rejects
    ensures !Accepts(s, c) ==> t == s.(log := t.log)
    ensures t.local == if Accepts(s, c) && (c.Checkout? || c.CheckoutLocalBranch?) then s.local + {c.branch} else s.local
    ensures !c.Push? ==> t.remote == s.remote
    ensures t.current == if Accepts(s, c) && (c.Checkout? || c.CheckoutLocalBranch?) then c.branch else s.current
    ensures !(Accepts(s, c) && (c.Add? || c.Commit?)) ==> t.staged == s.staged && t.commits == s.commits
    ensures !(Accepts(s, c) && (c.Push? || c.Checkout?)) ==> t.upstream == s.upstream
  {
    (if Accepts(s, c) then Apply(s, c) else s).(log := s.log + [Event(c, Accepts(s, c))])
  }

  /** `git checkout b` of a branch that is not local but is on the remote creates it, tracking
      the remote branch, and switches to it. */
  lemma CheckoutFromRemote(s: GitState, b: string)
    requires b !in s.local && TrackingName(Origin, b) in s.remote && Checkout(b) !in s.rejects
    ensures Accepts(s, Checkout(b))
    ensures var t := Run(s, Checkout(b));
            t.current == b && t.local == s.local + {b} && t.upstream == s.upstream[b := TrackingName(Origin, b)]
  {
  }

  /** The result of running a list of commands: the first command that failed, if any, and
      the final state. */
  datatype RunResult = RunResult(failed: Option<Command>, state: GitState)

  /** The events a run appended to the log of `s`. */
  function NewEvents(s: GitState, r: RunResult): seq<Event>
    requires |s.log| <= |r.state.log|
  {
    r.state.log[|s.log|..]
  }

  /** Running commands in order and stopping at the first one that fails, as a sequence of
      awaited calls inside one try block does. The log only grows, by at most one event per
      command. */
  function RunAll(s: GitState, cmds: seq<Command>): (r: RunResult)
    ensures |s.log| <= |r.state.log| <= |s.log| + |cmds|
    ensures r.state.log[..|s.log|] == s.log
    ensures r.state.rejects == s.rejects
    decreases |cmds|
  {
    if |cmds| == 0 then RunResult(None, s)
    else
      var t := Run(s, cmds[0]);
      if !Accepts(s, cmds[0]) then RunResult(Some(cmds[0]), t)
      else
        RunAll(t, cmds[1..])
  }

  /** What a run leaves in the log: the commands in the order given, all successful except
      possibly the last; the run fails exactly when some command was not reached or did not
      succeed, and then the last recorded command is the one that failed. */
  predicate Trace(ev: seq<Event>, cmds: seq<Command>, failed: Option<Command>)
  {
    && |ev| <= |cmds|
    && (forall i :: 0 <= i < |ev| ==> ev[i].cmd == cmds[i])
    && (forall i :: 0 <= i < |ev| - 1 ==> ev[i].ok)
    && (failed.None? <==> |ev| == |cmds| && forall i :: 0 <= i < |ev| ==> ev[i].ok)
    && (failed.Some? ==> |ev| >= 1 && ev[|ev| - 1] == Event(failed.value, false))
  }

  lemma {:induction false} RunAllTrace(s: GitState, cmds: seq<Command>)
    ensures var r := RunAll(s, cmds); Trace(NewEvents(s, r), cmds, r.failed)
    decreases |cmds|
  {
    if |cmds| > 0 && Accepts(s, cmds[0]) {
      var t := Run(s, cmds[0]);
      var r := RunAll(t, cmds[1..]);
      assert RunAll(s, cmds) == r;
      RunAllTrace(t, cmds[1..]);
      LogAfterStep(s.log, Event(cmds[0], true), r.state.log);
      TraceCons(cmds[0], NewEvents(t, r), cmds[1..], r.failed);
      assert [cmds[0]] + cmds[1..] == cmds;
    }
  }

  /** The events after a successful first command are that command and what follows it. */
  lemma LogAfterStep(before: seq<Event>, e: Event, after: seq<Event>)
    requires |before| + 1 <= |after| && after[..|before| + 1] == before + [e]
    ensures after[|before|..] == [e] + after[|before| + 1..]
  {
    assert after[|before|] == e;
  }

  /** A trace extended in front by a successful command. */
  lemma TraceCons(c: Command, ev: seq<Event>, rest: seq<Command>, failed: Option<Command>)
    requires Trace(ev, rest, failed)
    ensures Trace([Event(c, true)] + ev, [c] + rest, failed)
  {
    var ev' := [Event(c, true)] + ev;
    var cmds := [c] + rest;
    assert forall i :: 1 <= i < |ev'| ==> ev'[i] == ev[i - 1] && cmds[i] == rest[i - 1];
  }

  /** Running a command followed by more. */
  lemma RunAllCons(s: GitState, c: Command, rest: seq<Command>)
    ensures RunAll(s, [c] + rest)
         == if Accepts(s, c) then RunAll(Run(s, c), rest) else RunResult(Some(c), Run(s, c))
  {
    assert ([c] + rest)[1..] == rest;
  }

  /** Running more commands after a run, unless that run already failed. */
  function Then(r: RunResult, q: seq<Command>): RunResult
  {
    if r.failed.Some? then r else RunAll(r.state, q)
  }

  /** Running two lists of commands one after the other is running their concatenation. */
  lemma {:induction false} RunAllAppend(s: GitState, p: seq<Command>, q: seq<Command>)
    ensures RunAll(s, p + q) == Then(RunAll(s, p), q)
    decreases |p|
  {
    if |p| > 0 {
      assert (p + q)[0] == p[0];
      assert (p + q)[1..] == p[1..] + q;
      RunAllAppend(Run(s, p[0]), p[1..], q);
    } else {
      assert p + q == q;
    }
  }

  /** A working copy on disk, updated in place by the commands run in it. */
  class WorkingCopy {
    var current: string
    var local: set<string>
    var remote: set<string>
    var upstream: map<string, string>
    var staged: set<string>
    var commits: seq<CommitRecord>
    var log: seq<Event>
    const rejects: set<Command>

    function State(): GitState
      reads this
    {
      GitState(current, local, remote, upstream, staged, commits, rejects, log)
    }

    constructor (s: GitState)
      ensures State() == s
    {
      current, local, remote, upstream := s.current, s.local, s.remote, s.upstream;
      staged, commits, rejects, log := s.staged, s.commits, s.rejects, s.log;
    }

    /** Issues one command and reports whether it succeeded. */
    method Exec(c: Command) returns (ok: bool)
      modifies this
      ensures ok == Accepts(old(State()), c)
      ensures State() == Run(old(State()), c)
    {
      ok := Accepts(State(), c);
      if ok {
        match c
        case Checkout(b) =>
          if b !in local {
            local := local + {b};
            upstream := upstream[b := TrackingName(Origin, b)];
          }
          current := b;
        case CheckoutLocalBranch(b) =>
          current := b;
          local := local + {b};
        case Add(paths) =>
          staged := staged + set p | p in paths;
        case Commit(m) =>
          commits := commits + [CommitRecord(current, staged, m)];
          staged := {};
        case Push(r, b, up) =>
          remote := remote + {TrackingName(r, b)};
          if up {
            upstream := upstream[b := TrackingName(r, b)];
          }
        case _ =>
      }
      log := log + [Event(c, ok)];
    }
  }
}
