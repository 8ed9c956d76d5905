/**
 The decisions of `main` (index.js:14-302) and `checkOutRemoteBranch`
 (index.js:342-381), as a pure function from the inputs, the environment
 and the outcomes of the outside world to the ordered list of commands and
 requests issued, the `result` output set and whether the action failed.
 */
module Workflow {
  import opened Wrappers
  import opened Text
  import opened Inputs
  import opened LocalStatus

  /** The prefix of the temporary branch (index.js:8-10); the random
      suffix is part of the world. */
  const TemporaryBranchPrefix: string := "tmp-create-or-update-pull-request-action-"

  /** The git message after which the empty cherry-pick is skipped. */
  const EmptyCherryPickMarker: string := "The previous cherry-pick is now empty"

  const UserNameKey: string := "user.name"
  const UserEmailKey: string := "user.email"

  /** The three environment variables; an empty string is an unset one. */
  datatype Env = Env(githubToken: string, githubRepository: string, githubRef: string)

  /** The action's inputs as `core.getInput` returns them, unset ones as "". */
  datatype ActionInputs = ActionInputs(
    title: string,
    body: string,
    branch: string,
    pathToCdTo: string,
    repository: string,
    commitMessage: string,
    author: string,
    labels: string,
    assignees: string,
    reviewers: string,
    teamReviewers: string,
    autoMerge: string,
    updatePullRequestTitleAndBody: string)

  /** One shell command, one change of directory or one GitHub request. */
  datatype Action =
    | GetRepository(coords: Coordinates)
    | ChangeDirectory(path: string)
    | GitStatus
    | CheckoutNewBranch(name: string)
    | GetConfig(key: string)
    | SetGlobalConfig(key: string, value: string)
    | AddAll
    | Commit(message: string, author: string)
    | RevParseHead
    | Fetch(coords: Coordinates, branch: string)
    | StashIncludeUntracked
    | RebaseTheirs(onto: string)
    | ListBranches
    | Checkout(branch: string)
    | CherryPickTheirs(source: string)
    | CherryPickSkip
    | ForcePush(coords: Coordinates, branch: string)
    | SearchOpenPullRequests(coords: Coordinates, branch: string)
    | UpdatePullRequest(coords: Coordinates, number: int, title: string, body: string)
    | CreatePullRequest(coords: Coordinates, title: string, body: string, head: string, base: string)
    | AddLabels(coords: Coordinates, number: int, labels: seq<string>)
    | AddAssignees(coords: Coordinates, number: int, assignees: seq<string>)
    | RequestReviewers(coords: Coordinates, number: int, reviewers: Option<seq<string>>, teamReviewers: Option<seq<string>>)
    | EnableAutoMerge(pullRequestId: string, mergeMethod: string, commitHeadline: string)
    | StashPop

  /** What the outside world answers. `failing` holds the commands and
      requests that throw; the other fields are the outputs of the ones
      that succeed. */
  datatype World = World(
    failing: set<Action>,
    temporarySuffix: string,
    defaultBranch: string,
    statusOutput: string,
    head: string,
    cherryPickStderr: string,
    searchTotalCount: int,
    searchItemNumbers: seq<int>,
    createdNumber: int,
    createdNodeId: string)

  /** Whether `owner` and `repo` are visible inside `checkOutRemoteBranch`:
      as written they are not (they are locals of `main`), so building the
      fetch command at index.js:355 throws a ReferenceError. */
  datatype Scope = AsWritten | OwnerInScope

  /** The commands run by one stage, and whether it completed. */
  datatype Outcome = Outcome(trace: seq<Action>, ok: bool)

  /** `checkOutRemoteBranch`: its commands and the boolean it resolves to
      (`None` when it rejects). */
  datatype RemoteCheckout = RemoteCheckout(trace: seq<Action>, remoteBranchExists: Option<bool>)

  /** The `result` output. */
  datatype PullRequestResult = Unchanged | Updated(number: int) | Created(number: int)

  /** A whole run: every action issued in order, the `result` output (set
      before any later failure) and whether the run failed. */
  datatype Execution = Execution(trace: seq<Action>, result: Option<PullRequestResult>, failed: bool)

  function TemporaryBranch(w: World): string
  {
    TemporaryBranchPrefix + w.temporarySuffix
  }

  predicate HasEnvironment(env: Env)
  {
    env.githubToken != "" && env.githubRepository != "" && env.githubRef != ""
  }

  function Coords(env: Env, inputs: ActionInputs): Coordinates
  {
    RepositoryCoordinates(env.githubRepository, inputs.repository)
  }

  /** Runs `commands` one after another, stopping at the first that throws. */
  function RunCommands(w: World, commands: seq<Action>): (r: Outcome)
    ensures |r.trace| <= |commands| && r.trace == commands[..|r.trace|]
    ensures r.ok <==> forall i :: 0 <= i < |commands| ==> commands[i] !in w.failing
    ensures r.ok ==> |r.trace| == |commands|
    ensures !r.ok ==> 0 < |r.trace| && r.trace[|r.trace| - 1] in w.failing
    ensures forall i :: 0 <= i < |r.trace| - 1 ==> r.trace[i] !in w.failing
  {
    if commands == [] then
      Outcome([], true)
    else if commands[0] in w.failing then
      Outcome([commands[0]], false)
    else
      var rest := RunCommands(w, commands[1..]);
      Outcome([commands[0]] + rest.trace, rest.ok)
  }

  /** Two stages in sequence: the second runs only when the first completed. */
  function Then(first: Outcome, second: Outcome): Outcome
  {
    if first.ok then Outcome(first.trace + second.trace, second.ok) else first
  }

  /** The git commands that change nothing on the remote or on GitHub:
      every one except `git push`. `git fetch` only reads from the remote. */
  predicate IsLocalGitCommand(a: Action)
  {
    a.GitStatus? || a.CheckoutNewBranch? || a.GetConfig? || a.SetGlobalConfig? || a.AddAll?
    || a.Commit? || a.RevParseHead? || a.Fetch? || a.StashIncludeUntracked? || a.RebaseTheirs?
    || a.ListBranches? || a.Checkout? || a.CherryPickTheirs? || a.CherryPickSkip? || a.StashPop?
  }

  predicate OnlyLocalGitCommands(trace: seq<Action>)
  {
    forall i :: 0 <= i < |trace| ==> IsLocalGitCommand(trace[i])
  }

  /** `getGitUser` (index.js:320-332): the user counts as configured only
      when both settings can be read. */
  function ReadGitUser(w: World): Outcome
  {
    RunCommands(w, [GetConfig(UserNameKey), GetConfig(UserEmailKey)])
  }

  /** index.js:104-119 with `setGitUser` (index.js:334-340). */
  function ConfigureIdentity(author: string, w: World): (r: Outcome)
    ensures OnlyLocalGitCommands(r.trace)
  {
    var user := ReadGitUser(w);
    if user.ok then user
    else
      match ParseAuthor(author)
      case None => Outcome(user.trace, false)
      case Some(id) =>
        Then(user.(ok := true),
             RunCommands(w, [SetGlobalConfig(UserNameKey, id.name), SetGlobalConfig(UserEmailKey, id.email)]))
  }

  /** index.js:102-126: commit everything on a temporary branch. */
  function CommitChanges(inputs: ActionInputs, w: World): (r: Outcome)
    ensures OnlyLocalGitCommands(r.trace)
  {
    Then(RunCommands(w, [CheckoutNewBranch(TemporaryBranch(w))]),
         Then(ConfigureIdentity(inputs.author, w),
              RunCommands(w, [AddAll, Commit(inputs.commitMessage, inputs.author)])))
  }

  /** index.js:128-141: rebase onto the default branch unless already on it. */
  function RebaseOnDefault(coords: Coordinates, w: World): (r: Outcome)
    ensures OnlyLocalGitCommands(r.trace)
  {
    var revParse := RunCommands(w, [RevParseHead]);
    if !revParse.ok || w.head == w.defaultBranch then revParse
    else
      Then(revParse,
           RunCommands(w, [Fetch(coords, w.defaultBranch), StashIncludeUntracked, RebaseTheirs(w.defaultBranch)]))
  }

  /** The `catch` of `checkOutRemoteBranch` (index.js:376-380). */
  function NotOnRemote(branch: string, w: World, trace: seq<Action>): RemoteCheckout
  {
    var create := CheckoutNewBranch(branch);
    RemoteCheckout(trace + [create], if create in w.failing then None else Some(false))
  }

  /** `checkOutRemoteBranch` (index.js:342-381). `visible` is the
      owner/repo pair the fetch command can see: `None` reproduces the
      ReferenceError of the code as written. */
  function CheckOutRemoteBranch(branch: string, visible: Option<Coordinates>, w: World): (r: RemoteCheckout)
    ensures OnlyLocalGitCommands(r.trace)
  {
    var revParse := RunCommands(w, [RevParseHead]);
    if !revParse.ok then NotOnRemote(branch, w, revParse.trace)
    else if w.head == branch then RemoteCheckout(revParse.trace, Some(true))
    else
      match visible
      case None => NotOnRemote(branch, w, revParse.trace)
      case Some(coords) =>
        var checkout := Then(revParse, RunCommands(w, [Fetch(coords, branch), ListBranches, Checkout(branch)]));
        if !checkout.ok then NotOnRemote(branch, w, checkout.trace)
        else
          var pick := CherryPickTheirs(TemporaryBranch(w));
          var picked := checkout.trace + [pick];
          if pick !in w.failing || !Contains(w.cherryPickStderr, EmptyCherryPickMarker) then
            RemoteCheckout(picked, Some(true))
          else if CherryPickSkip in w.failing then
            NotOnRemote(branch, w, picked + [CherryPickSkip])
          else
            RemoteCheckout(picked + [CherryPickSkip], Some(true))
  }

  // `(input || "").trim().split(/\s*,\s*/)` when the input is set.
  function OptionalList(input: string): Option<seq<string>>
  {
    if input != "" then Some(SplitList(input)) else None
  }

  /** index.js:195-270: labels, assignees, then one reviewers request. */
  function MetadataRequests(inputs: ActionInputs, coords: Coordinates, number: int): seq<Action>
  {
    (if inputs.labels != "" then [AddLabels(coords, number, SplitList(inputs.labels))] else [])
    + (if inputs.assignees != "" then [AddAssignees(coords, number, SplitList(inputs.assignees))] else [])
    + (if inputs.reviewers != "" || inputs.teamReviewers != "" then
         [RequestReviewers(coords, number, OptionalList(inputs.reviewers), OptionalList(inputs.teamReviewers))]
       else [])
  }

  /** index.js:272-295: its failure is caught and only logged. */
  function AutoMergeRequest(inputs: ActionInputs, w: World): seq<Action>
  {
    if inputs.autoMerge != "" then
      [EnableAutoMerge(w.createdNodeId, MergeMethodArgument(inputs.autoMerge), inputs.title)]
    else []
  }

  /** index.js:178-297: create the pull request, decorate it, pop the
      stash (`git stash pop || true` never fails). */
  function CreateAndDecorate(inputs: ActionInputs, branch: string, coords: Coordinates, w: World): Execution
  {
    var create := CreatePullRequest(coords, inputs.title, inputs.body, branch, w.defaultBranch);
    if create in w.failing then Execution([create], None, true)
    else
      var number := w.createdNumber;
      var extras := RunCommands(w, MetadataRequests(inputs, coords, number));
      if !extras.ok then Execution([create] + extras.trace, Some(Created(number)), true)
      else Execution([create] + extras.trace + AutoMergeRequest(inputs, w) + [StashPop], Some(Created(number)), false)
  }

  /** index.js:151-297: update the open pull request of an existing remote
      branch, or create one. */
  function Publish(inputs: ActionInputs, branch: string, coords: Coordinates, w: World, remoteBranchExists: bool): Execution
  {
    if !remoteBranchExists then CreateAndDecorate(inputs, branch, coords, w)
    else
      var search := SearchOpenPullRequests(coords, branch);
      if search in w.failing then Execution([search], None, true)
      else if w.searchTotalCount <= 0 then
        var created := CreateAndDecorate(inputs, branch, coords, w);
        created.(trace := [search] + created.trace)
      else if |w.searchItemNumbers| == 0 then
        // `data.items[0]` is undefined and reading `.number` throws
        Execution([search], None, true)
      else
        var number := w.searchItemNumbers[0];
        if inputs.updatePullRequestTitleAndBody == "false" then
          Execution([search], Some(Updated(number)), false)
        else
          var update := UpdatePullRequest(coords, number, inputs.title, inputs.body);
          Execution([search, update], Some(Updated(number)), update in w.failing)
  }

  function ChangeDirectoryCommands(pathToCdTo: string): seq<Action>
  {
    if pathToCdTo != "" then [ChangeDirectory(pathToCdTo)] else []
  }

  /** index.js:78-92: read the default branch, change directory, `git status`. */
  function Prepare(inputs: ActionInputs, coords: Coordinates, w: World): Outcome
  {
    RunCommands(w, [GetRepository(coords)] + ChangeDirectoryCommands(inputs.pathToCdTo) + [GitStatus])
  }

  /** index.js:143-297, once the changes are committed and rebased. */
  function Deliver(inputs: ActionInputs, branch: string, coords: Coordinates, w: World, scope: Scope): Execution
  {
    var remote := CheckOutRemoteBranch(branch, if scope == OwnerInScope then Some(coords) else None, w);
    if remote.remoteBranchExists.None? then Execution(remote.trace, None, true)
    else
      var push := ForcePush(coords, branch);
      if push in w.failing then Execution(remote.trace + [push], None, true)
      else
        var published := Publish(inputs, branch, coords, w, remote.remoteBranchExists.value);
        published.(trace := remote.trace + [push] + published.trace)
  }

  /** `main` (index.js:14-302). */
  function Run(inputs: ActionInputs, env: Env, w: World, scope: Scope): Execution
  {
    if !HasEnvironment(env) || !IsValidAutoMerge(inputs.autoMerge) then Execution([], None, true)
    else
      var coords := Coords(env, inputs);
      var prepare := Prepare(inputs, coords, w);
      if !prepare.ok then Execution(prepare.trace, None, true)
      else if !HasChanges(GetLocalChanges(w.statusOutput)) then Execution(prepare.trace, Some(Unchanged), false)
      else
        var local := Then(CommitChanges(inputs, w), RebaseOnDefault(coords, w));
        if !local.ok then Execution(prepare.trace + local.trace, None, true)
        else
          var delivered := Deliver(inputs, NormalizeBranch(inputs.branch), coords, w, scope);
          delivered.(trace := prepare.trace + local.trace + delivered.trace)
  }
}
