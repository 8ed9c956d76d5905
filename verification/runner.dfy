/**
 `main` (index.js:14-302) and `checkOutRemoteBranch` (index.js:342-381)
 as the code runs them: one awaited command after another, with early
 returns and `catch` fallbacks. Each method is proved to issue exactly
 the commands of the matching `Workflow` function and to end as it does.
 */
module Runner {
  import opened Wrappers
  import opened Text
  import opened Inputs
  import opened LocalStatus
  import opened Workflow
  import opened WorkflowProperties

  // The stages below are written with each command appended on its own
  // (`[a] + [b] + [c]`), the way a session's trace grows.

  lemma RunTwoSteps(w: World, a: Action, b: Action)
    ensures RunCommands(w, [a, b])
            == if a in w.failing then Outcome([a], false) else Outcome([a] + [b], b !in w.failing)
  {
    RunTwo(w, a, b);
    assert [a] + [b] == [a, b];
  }

  lemma RunThreeSteps(w: World, a: Action, b: Action, c: Action)
    ensures RunCommands(w, [a, b, c])
            == if a in w.failing then Outcome([a], false)
               else if b in w.failing then Outcome([a] + [b], false)
               else Outcome([a] + [b] + [c], c !in w.failing)
  {
    RunThree(w, a, b, c);
    assert [a] + [b] == [a, b];
    assert [a] + [b] + [c] == [a, b, c];
  }

  lemma PrepareShape(inputs: ActionInputs, coords: Coordinates, w: World)
    ensures Prepare(inputs, coords, w)
            == if inputs.pathToCdTo != "" then RunCommands(w, [GetRepository(coords), ChangeDirectory(inputs.pathToCdTo), GitStatus])
               else RunCommands(w, [GetRepository(coords), GitStatus])
  {
    if inputs.pathToCdTo != "" {
      assert [GetRepository(coords)] + ChangeDirectoryCommands(inputs.pathToCdTo) + [GitStatus]
          == [GetRepository(coords), ChangeDirectory(inputs.pathToCdTo), GitStatus];
    } else {
      assert [GetRepository(coords)] + ChangeDirectoryCommands(inputs.pathToCdTo) + [GitStatus]
          == [GetRepository(coords), GitStatus];
    }
  }

  lemma ConfigureIdentityShape(author: string, w: World)
    ensures var getName := GetConfig(UserNameKey);
            var getEmail := GetConfig(UserEmailKey);
            var user := if getName in w.failing then [getName] else [getName] + [getEmail];
            ConfigureIdentity(author, w)
            == if getName !in w.failing && getEmail !in w.failing then Outcome(user, true)
               else if ParseAuthor(author).None? then Outcome(user, false)
               else
                 var id := ParseAuthor(author).value;
                 if SetGlobalConfig(UserNameKey, id.name) in w.failing
                 then Outcome(user + [SetGlobalConfig(UserNameKey, id.name)], false)
                 else Outcome(user + [SetGlobalConfig(UserNameKey, id.name)] + [SetGlobalConfig(UserEmailKey, id.email)],
                              SetGlobalConfig(UserEmailKey, id.email) !in w.failing)
  {
    var user := if GetConfig(UserNameKey) in w.failing then [GetConfig(UserNameKey)]
                else [GetConfig(UserNameKey)] + [GetConfig(UserEmailKey)];
    RunTwoSteps(w, GetConfig(UserNameKey), GetConfig(UserEmailKey));
    if ParseAuthor(author).Some? {
      var id := ParseAuthor(author).value;
      RunTwoSteps(w, SetGlobalConfig(UserNameKey, id.name), SetGlobalConfig(UserEmailKey, id.email));
      Associative(user, [SetGlobalConfig(UserNameKey, id.name)], [SetGlobalConfig(UserEmailKey, id.email)], []);
    }
  }

  lemma CommitChangesShape(inputs: ActionInputs, w: World)
    ensures var checkout := CheckoutNewBranch(TemporaryBranch(w));
            var identity := ConfigureIdentity(inputs.author, w);
            CommitChanges(inputs, w)
            == if checkout in w.failing then Outcome([checkout], false)
               else if !identity.ok then Outcome([checkout] + identity.trace, false)
               else if AddAll in w.failing then Outcome([checkout] + identity.trace + [AddAll], false)
               else Outcome([checkout] + identity.trace + [AddAll] + [Commit(inputs.commitMessage, inputs.author)],
                            Commit(inputs.commitMessage, inputs.author) !in w.failing)
  {
    var checkout := CheckoutNewBranch(TemporaryBranch(w));
    var identity := ConfigureIdentity(inputs.author, w);
    var commit := RunCommands(w, [AddAll, Commit(inputs.commitMessage, inputs.author)]);
    RunOne(w, checkout);
    RunTwoSteps(w, AddAll, Commit(inputs.commitMessage, inputs.author));
    if checkout !in w.failing && identity.ok {
      Associative([checkout], identity.trace, [AddAll], [Commit(inputs.commitMessage, inputs.author)]);
      assert [checkout] + (identity.trace + commit.trace) == [checkout] + identity.trace + commit.trace;
    }
  }

  lemma RebaseOnDefaultShape(coords: Coordinates, w: World)
    ensures var fetch := Fetch(coords, w.defaultBranch);
            RebaseOnDefault(coords, w)
            == if RevParseHead in w.failing then Outcome([RevParseHead], false)
               else if w.head == w.defaultBranch then Outcome([RevParseHead], true)
               else if fetch in w.failing then Outcome([RevParseHead] + [fetch], false)
               else if StashIncludeUntracked in w.failing then Outcome([RevParseHead] + [fetch] + [StashIncludeUntracked], false)
               else Outcome([RevParseHead] + [fetch] + [StashIncludeUntracked] + [RebaseTheirs(w.defaultBranch)],
                            RebaseTheirs(w.defaultBranch) !in w.failing)
  {
    var fetch := Fetch(coords, w.defaultBranch);
    RunOne(w, RevParseHead);
    RunThreeSteps(w, fetch, StashIncludeUntracked, RebaseTheirs(w.defaultBranch));
    Associative([RevParseHead], [fetch], [StashIncludeUntracked], [RebaseTheirs(w.defaultBranch)]);
  }

  lemma CheckOutRemoteShape(branch: string, visible: Option<Coordinates>, w: World)
    ensures var r := CheckOutRemoteBranch(branch, visible, w);
            var pick := CherryPickTheirs(TemporaryBranch(w));
            var skip := pick in w.failing && Contains(w.cherryPickStderr, EmptyCherryPickMarker);
            (RevParseHead in w.failing || (w.head != branch && visible.None?)
             ==> r == NotOnRemote(branch, w, [RevParseHead]))
            && (RevParseHead !in w.failing && w.head == branch ==> r == RemoteCheckout([RevParseHead], Some(true)))
            && (RevParseHead !in w.failing && w.head != branch && visible.Some?
                ==> var fetched := RunCommands(w, [Fetch(visible.value, branch), ListBranches, Checkout(branch)]);
                    var picked := [RevParseHead] + fetched.trace + [pick] + (if skip then [CherryPickSkip] else []);
                    if !fetched.ok then r == NotOnRemote(branch, w, [RevParseHead] + fetched.trace)
                    else if skip && CherryPickSkip in w.failing then r == NotOnRemote(branch, w, picked)
                    else r == RemoteCheckout(picked, Some(true)))
  {
    RunOne(w, RevParseHead);
    if visible.Some? {
      var fetched := RunCommands(w, [Fetch(visible.value, branch), ListBranches, Checkout(branch)]);
      var pick := CherryPickTheirs(TemporaryBranch(w));
      assert [RevParseHead] + fetched.trace + [pick] + [] == [RevParseHead] + fetched.trace + [pick];
    }
  }

  lemma DeliverPushed(inputs: ActionInputs, branch: string, coords: Coordinates, w: World, scope: Scope)
    requires CheckOutRemoteBranch(branch, if scope == OwnerInScope then Some(coords) else None, w).remoteBranchExists.Some?
    requires ForcePush(coords, branch) !in w.failing
    ensures var remote := CheckOutRemoteBranch(branch, if scope == OwnerInScope then Some(coords) else None, w);
            var p := Publish(inputs, branch, coords, w, remote.remoteBranchExists.value);
            Deliver(inputs, branch, coords, w, scope) == p.(trace := remote.trace + [ForcePush(coords, branch)] + p.trace)
  {
  }

  /** Three command lists run one after the other. */
  lemma MetadataAssembled(w: World, xs: seq<Action>, ys: seq<Action>, zs: seq<Action>)
    ensures var x := RunCommands(w, xs);
            var y := RunCommands(w, ys);
            var z := RunCommands(w, zs);
            RunCommands(w, xs + ys + zs)
            == if !x.ok then x
               else if !y.ok then Outcome(x.trace + y.trace, false)
               else Outcome(x.trace + y.trace + z.trace, z.ok)
  {
    RunCommandsAppend(w, xs + ys, zs);
    RunCommandsAppend(w, xs, ys);
  }

  /** Regrouping a trace that was extended piece by piece. */
  lemma Associative(a: seq<Action>, b: seq<Action>, c: seq<Action>, d: seq<Action>)
    ensures a + b + c + d == a + (b + c + d)
    ensures a + b + c == a + (b + c)
  {
  }

  lemma Associative5(a: seq<Action>, b: seq<Action>, c: seq<Action>, d: seq<Action>, e: seq<Action>)
    ensures a + b + c + d + e == a + (b + c + d + e)
  {
  }

  /** `Run` with its stages laid out one after the other. */
  lemma RunShape(inputs: ActionInputs, env: Env, w: World, scope: Scope)
    requires HasEnvironment(env) && IsValidAutoMerge(inputs.autoMerge)
    ensures var coords := Coords(env, inputs);
            var prepare := Prepare(inputs, coords, w);
            var commit := CommitChanges(inputs, w);
            var rebase := RebaseOnDefault(coords, w);
            var delivered := Deliver(inputs, NormalizeBranch(inputs.branch), coords, w, scope);
            Run(inputs, env, w, scope)
            == if !prepare.ok then Execution(prepare.trace, None, true)
               else if !HasChanges(GetLocalChanges(w.statusOutput)) then Execution(prepare.trace, Some(Unchanged), false)
               else if !commit.ok then Execution(prepare.trace + commit.trace, None, true)
               else if !rebase.ok then Execution(prepare.trace + commit.trace + rebase.trace, None, true)
               else delivered.(trace := prepare.trace + commit.trace + rebase.trace + delivered.trace)
  {
    var coords := Coords(env, inputs);
    var prepare := Prepare(inputs, coords, w);
    var commit := CommitChanges(inputs, w);
    var rebase := RebaseOnDefault(coords, w);
    if commit.ok {
      assert prepare.trace + (commit.trace + rebase.trace) == prepare.trace + commit.trace + rebase.trace;
    }
  }

  /** One run of the action against a fixed outside world. */
  class Session {
    /** What the shell and GitHub answer. */
    const world: World
    /** Every command and request issued so far, in order. */
    var trace: seq<Action>

    constructor(world: World)
      ensures this.world == world && trace == []
    {
      this.world := world;
      trace := [];
    }

    /** Runs one command or request; `ok` is false iff it throws. */
    method Issue(a: Action) returns (ok: bool)
      modifies this
      ensures trace == old(trace) + [a]
      ensures ok <==> a !in world.failing
    {
      trace := trace + [a];
      ok := a !in world.failing;
    }

    /** index.js:78-92 and the `git status` of `getLocalChanges`. */
    method PrepareRepository(inputs: ActionInputs, coords: Coordinates) returns (ok: bool)
      modifies this
      ensures trace == old(trace) + Prepare(inputs, coords, world).trace
      ensures ok == Prepare(inputs, coords, world).ok
    {
      var get := GetRepository(coords);
      PrepareShape(inputs, coords, world);
      RunTwoSteps(world, get, GitStatus);
      RunThreeSteps(world, get, ChangeDirectory(inputs.pathToCdTo), GitStatus);
      ok := Issue(get);
      if !ok {
        return;
      }
      if inputs.pathToCdTo != "" {
        ok := Issue(ChangeDirectory(inputs.pathToCdTo));
        if !ok {
          Associative(old(trace), [get], [ChangeDirectory(inputs.pathToCdTo)], []);
          return;
        }
        ok := Issue(GitStatus);
        Associative(old(trace), [get], [ChangeDirectory(inputs.pathToCdTo)], [GitStatus]);
      } else {
        ok := Issue(GitStatus);
        Associative(old(trace), [get], [GitStatus], []);
      }
    }
    /** `getGitUser`, then the author check and `setGitUser`
        (index.js:104-119, 320-340). */
    method SetUpIdentity(author: string) returns (ok: bool)
      modifies this
      ensures trace == old(trace) + ConfigureIdentity(author, world).trace
      ensures ok == ConfigureIdentity(author, world).ok
    {
      var getName := GetConfig(UserNameKey);
      var getEmail := GetConfig(UserEmailKey);
      ConfigureIdentityShape(author, world);
      ok := Issue(getName);
      if ok {
        ok := Issue(getEmail);
        Associative(old(trace), [getName], [getEmail], []);
      }
      if ok {
        return;
      }
      // `getGitUser` caught the failure and returned `{}`
      ghost var user := trace[|old(trace)|..];
      assert trace == old(trace) + user;
      var matches := ParseAuthor(author);
      if matches.None? {
        return false;
      }
      var id := matches.value;
      ok := Issue(SetGlobalConfig(UserNameKey, id.name));
      Associative(old(trace), user, [SetGlobalConfig(UserNameKey, id.name)], []);
      if !ok {
        return;
      }
      ok := Issue(SetGlobalConfig(UserEmailKey, id.email));
      Associative(old(trace), user, [SetGlobalConfig(UserNameKey, id.name)], [SetGlobalConfig(UserEmailKey, id.email)]);
    }
    /** index.js:102-126: a temporary branch, the identity, then
        `git add .` and `git commit`. */
    method CommitOnTemporaryBranch(inputs: ActionInputs) returns (ok: bool)
      modifies this
      ensures trace == old(trace) + CommitChanges(inputs, world).trace
      ensures ok == CommitChanges(inputs, world).ok
    {
      var checkout := CheckoutNewBranch(TemporaryBranch(world));
      ghost var identity := ConfigureIdentity(inputs.author, world);
      CommitChangesShape(inputs, world);
      ok := Issue(checkout);
      if !ok {
        return;
      }
      ok := SetUpIdentity(inputs.author);
      if !ok {
        Associative(old(trace), [checkout], identity.trace, []);
        return;
      }
      ok := Issue(AddAll);
      if !ok {
        Associative(old(trace), [checkout], identity.trace, [AddAll]);
        return;
      }
      ok := Issue(Commit(inputs.commitMessage, inputs.author));
      Associative5(old(trace), [checkout], identity.trace, [AddAll], [Commit(inputs.commitMessage, inputs.author)]);
    }
    /** index.js:128-141. */
    method RebaseOntoDefault(coords: Coordinates) returns (ok: bool)
      modifies this
      ensures trace == old(trace) + RebaseOnDefault(coords, world).trace
      ensures ok == RebaseOnDefault(coords, world).ok
    {
      var fetch := Fetch(coords, world.defaultBranch);
      RebaseOnDefaultShape(coords, world);
      ok := Issue(RevParseHead);
      if !ok || world.head == world.defaultBranch {
        return;
      }
      ok := Issue(fetch);
      if !ok {
        Associative(old(trace), [RevParseHead], [fetch], []);
        return;
      }
      ok := Issue(StashIncludeUntracked);
      if !ok {
        Associative(old(trace), [RevParseHead], [fetch], [StashIncludeUntracked]);
        return;
      }
      ok := Issue(RebaseTheirs(world.defaultBranch));
      Associative5(old(trace), [RevParseHead], [fetch], [StashIncludeUntracked], [RebaseTheirs(world.defaultBranch)]);
    }
    /** The `git fetch`, `git branch` and `git checkout` of
        index.js:354-363. */
    method FetchAndCheckOut(coords: Coordinates, branch: string) returns (ok: bool)
      modifies this
      ensures trace == old(trace) + RunCommands(world, [Fetch(coords, branch), ListBranches, Checkout(branch)]).trace
      ensures ok == RunCommands(world, [Fetch(coords, branch), ListBranches, Checkout(branch)]).ok
    {
      var fetch := Fetch(coords, branch);
      RunThreeSteps(world, fetch, ListBranches, Checkout(branch));
      ok := Issue(fetch);
      if !ok {
        return;
      }
      ok := Issue(ListBranches);
      if !ok {
        Associative(old(trace), [fetch], [ListBranches], []);
        return;
      }
      ok := Issue(Checkout(branch));
      Associative(old(trace), [fetch], [ListBranches], [Checkout(branch)]);
    }
    /** index.js:365-372: a failing cherry-pick is swallowed, and skipped
        when git reports it empty; only a failing skip escapes. */
    method CherryPickChanges() returns (ok: bool)
      modifies this
      ensures var pick := CherryPickTheirs(TemporaryBranch(world));
              var skip := pick in world.failing && Contains(world.cherryPickStderr, EmptyCherryPickMarker);
              trace == old(trace) + [pick] + (if skip then [CherryPickSkip] else [])
              && (ok <==> !skip || CherryPickSkip !in world.failing)
    {
      var picked := Issue(CherryPickTheirs(TemporaryBranch(world)));
      ok := true;
      if !picked && Contains(world.cherryPickStderr, EmptyCherryPickMarker) {
        ok := Issue(CherryPickSkip);
      }
    }

    /** `checkOutRemoteBranch` (index.js:342-381); `None` when it
        rejects because `git checkout -b` failed in its `catch`. */
    method CheckOutRemote(branch: string, visible: Option<Coordinates>) returns (remoteBranchExists: Option<bool>)
      modifies this
      ensures trace == old(trace) + CheckOutRemoteBranch(branch, visible, world).trace
      ensures remoteBranchExists == CheckOutRemoteBranch(branch, visible, world).remoteBranchExists
    {
      var pick := CherryPickTheirs(TemporaryBranch(world));
      var skip := pick in world.failing && Contains(world.cherryPickStderr, EmptyCherryPickMarker);
      CheckOutRemoteShape(branch, visible, world);
      var ok := Issue(RevParseHead);
      if ok && world.head == branch {
        return Some(true);
      }
      if ok && visible.Some? {
        ghost var fetched := RunCommands(world, [Fetch(visible.value, branch), ListBranches, Checkout(branch)]);
        ok := FetchAndCheckOut(visible.value, branch);
        if ok {
          ok := CherryPickChanges();
          Associative5(old(trace), [RevParseHead], fetched.trace, [pick], if skip then [CherryPickSkip] else []);
          if ok {
            return Some(true);
          }
        } else {
          Associative(old(trace), [RevParseHead], fetched.trace, []);
        }
      }
      // the `catch`: the branch is taken to be new on the remote
      ghost var before := trace[|old(trace)|..];
      assert trace == old(trace) + before;
      ok := Issue(CheckoutNewBranch(branch));
      Associative(old(trace), before, [CheckoutNewBranch(branch)], []);
      remoteBranchExists := if ok then Some(false) else None;
    }
    /** One request of index.js:195-270, made only when its input is
        set. */
    method RequestIf(present: bool, a: Action) returns (ok: bool)
      modifies this
      ensures trace == old(trace) + RunCommands(world, if present then [a] else []).trace
      ensures ok == RunCommands(world, if present then [a] else []).ok
    {
      RunOne(world, a);
      ok := true;
      if present {
        ok := Issue(a);
      }
    }

    /** Up to three requests in order, stopping at the first that
        throws. */
    method RequestInOrder(x: Action, px: bool, y: Action, py: bool, z: Action, pz: bool) returns (ok: bool)
      modifies this
      ensures var requests := (if px then [x] else []) + (if py then [y] else []) + (if pz then [z] else []);
              trace == old(trace) + RunCommands(world, requests).trace && ok == RunCommands(world, requests).ok
    {
      ghost var first := RunCommands(world, if px then [x] else []);
      ghost var second := RunCommands(world, if py then [y] else []);
      ghost var third := RunCommands(world, if pz then [z] else []);
      MetadataAssembled(world, if px then [x] else [], if py then [y] else [], if pz then [z] else []);
      ok := RequestIf(px, x);
      if !ok {
        return;
      }
      ok := RequestIf(py, y);
      if !ok {
        Associative(old(trace), first.trace, second.trace, []);
        return;
      }
      ok := RequestIf(pz, z);
      Associative(old(trace), first.trace, second.trace, third.trace);
    }

    /** index.js:195-270: labels, assignees, then one reviewers request
        whose parameters are built up in place. */
    method AddMetadata(inputs: ActionInputs, coords: Coordinates, number: int) returns (ok: bool)
      modifies this
      ensures trace == old(trace) + RunCommands(world, MetadataRequests(inputs, coords, number)).trace
      ensures ok == RunCommands(world, MetadataRequests(inputs, coords, number)).ok
    {
      var reviewers: Option<seq<string>> := None;
      var teamReviewers: Option<seq<string>> := None;
      if inputs.reviewers != "" {
        reviewers := Some(SplitList(inputs.reviewers));
      }
      if inputs.teamReviewers != "" {
        teamReviewers := Some(SplitList(inputs.teamReviewers));
      }
      ok := RequestInOrder(AddLabels(coords, number, SplitList(inputs.labels)), inputs.labels != "",
                           AddAssignees(coords, number, SplitList(inputs.assignees)), inputs.assignees != "",
                           RequestReviewers(coords, number, reviewers, teamReviewers),
                           inputs.reviewers != "" || inputs.teamReviewers != "");
    }

    /** index.js:178-297: create, decorate, the auto-merge mutation whose
        failure is only logged, and `git stash pop || true`. */
    method CreateAndDecoratePullRequest(inputs: ActionInputs, branch: string, coords: Coordinates)
      returns (result: Option<PullRequestResult>, failed: bool)
      modifies this
      ensures trace == old(trace) + CreateAndDecorate(inputs, branch, coords, world).trace
      ensures result == CreateAndDecorate(inputs, branch, coords, world).result
      ensures failed == CreateAndDecorate(inputs, branch, coords, world).failed
    {
      var create := CreatePullRequest(coords, inputs.title, inputs.body, branch, world.defaultBranch);
      ghost var extras := RunCommands(world, MetadataRequests(inputs, coords, world.createdNumber));
      ghost var autoMerge := AutoMergeRequest(inputs, world);
      var ok := Issue(create);
      if !ok {
        return None, true;
      }
      var number := world.createdNumber;
      result := Some(Created(number));
      ok := AddMetadata(inputs, coords, number);
      if !ok {
        Associative(old(trace), [create], extras.trace, []);
        return result, true;
      }
      if inputs.autoMerge != "" {
        // caught: only a warning is logged
        var enabled := Issue(EnableAutoMerge(world.createdNodeId, MergeMethodArgument(inputs.autoMerge), inputs.title));
      }
      // `|| true`: never fails
      var popped := Issue(StashPop);
      failed := false;
      Associative5(old(trace), [create], extras.trace, autoMerge, [StashPop]);
    }

    /** index.js:151-297, after the push. */
    method PublishPullRequest(inputs: ActionInputs, branch: string, coords: Coordinates, remoteBranchExists: bool)
      returns (result: Option<PullRequestResult>, failed: bool)
      modifies this
      ensures trace == old(trace) + Publish(inputs, branch, coords, world, remoteBranchExists).trace
      ensures result == Publish(inputs, branch, coords, world, remoteBranchExists).result
      ensures failed == Publish(inputs, branch, coords, world, remoteBranchExists).failed
    {
      var search := SearchOpenPullRequests(coords, branch);
      ghost var created := CreateAndDecorate(inputs, branch, coords, world);
      if remoteBranchExists {
        var ok := Issue(search);
        if !ok {
          return None, true;
        }
        if world.searchTotalCount > 0 {
          if |world.searchItemNumbers| == 0 {
            // `data.items[0].number` throws
            return None, true;
          }
          var number := world.searchItemNumbers[0];
          result := Some(Updated(number));
          if inputs.updatePullRequestTitleAndBody == "false" {
            return result, false;
          }
          var update := UpdatePullRequest(coords, number, inputs.title, inputs.body);
          ok := Issue(update);
          Associative(old(trace), [search], [update], []);
          assert [search] + [update] == [search, update];
          return result, !ok;
        }
      }
      result, failed := CreateAndDecoratePullRequest(inputs, branch, coords);
      if remoteBranchExists {
        Associative(old(trace), [search], created.trace, []);
      }
    }

    /** index.js:143-297: check out the remote branch, push, publish. */
    method DeliverChanges(inputs: ActionInputs, branch: string, coords: Coordinates, scope: Scope)
      returns (result: Option<PullRequestResult>, failed: bool)
      modifies this
      ensures trace == old(trace) + Deliver(inputs, branch, coords, world, scope).trace
      ensures result == Deliver(inputs, branch, coords, world, scope).result
      ensures failed == Deliver(inputs, branch, coords, world, scope).failed
    {
      var visible := if scope == OwnerInScope then Some(coords) else None;
      ghost var remote := CheckOutRemoteBranch(branch, visible, world);
      var push := ForcePush(coords, branch);
      var remoteBranchExists := CheckOutRemote(branch, visible);
      if remoteBranchExists.None? {
        return None, true;
      }
      var ok := Issue(push);
      if !ok {
        return None, true;
      }
      ghost var published := Publish(inputs, branch, coords, world, remoteBranchExists.value);
      result, failed := PublishPullRequest(inputs, branch, coords, remoteBranchExists.value);
      DeliverPushed(inputs, branch, coords, world, scope);
      Associative(old(trace), remote.trace, [push], published.trace);
    }

    /** `main` (index.js:14-302): the result output and whether the
        action failed. */
    method Execute(inputs: ActionInputs, env: Env, scope: Scope) returns (result: Option<PullRequestResult>, failed: bool)
      modifies this
      ensures trace == old(trace) + Run(inputs, env, world, scope).trace
      ensures result == Run(inputs, env, world, scope).result
      ensures failed == Run(inputs, env, world, scope).failed
    {
      if !HasEnvironment(env) {
        return None, true;
      }
      var branch := NormalizeBranch(inputs.branch);
      var coords := Coords(env, inputs);
      if !IsValidAutoMerge(inputs.autoMerge) {
        return None, true;
      }
      RunShape(inputs, env, world, scope);
      ghost var prepare := Prepare(inputs, coords, world);
      ghost var commit := CommitChanges(inputs, world);
      ghost var rebase := RebaseOnDefault(coords, world);
      ghost var delivered := Deliver(inputs, branch, coords, world, scope);
      var ok := PrepareRepository(inputs, coords);
      if !ok {
        return None, true;
      }
      if !HasChanges(GetLocalChanges(world.statusOutput)) {
        return Some(Unchanged), false;
      }
      ok := CommitOnTemporaryBranch(inputs);
      if !ok {
        Associative(old(trace), prepare.trace, commit.trace, []);
        return None, true;
      }
      ok := RebaseOntoDefault(coords);
      if !ok {
        Associative(old(trace), prepare.trace, commit.trace, rebase.trace);
        return None, true;
      }
      result, failed := DeliverChanges(inputs, branch, coords, scope);
      Associative5(old(trace), prepare.trace, commit.trace, rebase.trace, delivered.trace);
    }
  }
}
