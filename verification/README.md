# create-or-update-pull-request-action, modelled in Dafny

The action commits the changes that a workflow left in a checked-out
repository. The commit goes on a temporary branch. The action then rebases
that branch onto the repository's default branch and moves the commit to the
target branch, cherry-picking it when the target exists on the remote. It
force-pushes the target branch. Finally it either updates the open pull
request for that branch or creates a new one. A new pull request then gets
labels, assignees and reviewers, and optionally auto-merge.

The model covers `main`, `getLocalChanges`, `getGitUser`, `setGitUser`,
`checkOutRemoteBranch` and `runShellCommand` of `index.js`. It has two
halves.

- **Pure half.** Each stage of the action is a function over a `World`. The
  `World` says which commands and requests fail, what `git status` prints,
  the current and default branches, and what the search and the creation
  return. Running a stage yields the `trace` of commands and requests it
  issued, in order, plus the `result` output and whether the run failed.
  This is `Workflow.Run` and the stages it is made of. The properties the
  action promises are lemmas about these functions, in `WorkflowProperties`.
- **Imperative half.** `main` and `checkOutRemoteBranch` step through shell
  commands and HTTP requests and stop at the first one that throws.
  `Runner.Session` models them as a class that issues one action at a time,
  appending it to its `trace` field. Each of its methods is proved to leave
  exactly the trace and the outputs of the matching function.

A `Scope` parameter separates two versions of `checkOutRemoteBranch`:

- `AsWritten`: the code as it stands. Its fetch command refers to `owner`
  and `repo`, which are not in scope there, so the reference throws and the
  `catch` runs.
- `OwnerInScope`: the evidently intended version (see "## Findings").

Modules:

- `Text`: JavaScript string helpers (`trim`, `indexOf`, `split`, ASCII
  `toUpperCase`, case-insensitive search).
- `Inputs`: branch normalisation, the owner/repo split, author parsing, the
  comma-list split, and auto-merge validation.
- `LocalStatus`: `getLocalChanges`.
- `Workflow`: the actions, the world, and the stage functions.
- `WorkflowProperties`: the lemmas about a run.
- `Runner`: the `Session` class.

## Model

| member | source | states |
|---|---|---|
| Inputs.NormalizeBranch | index.js:48 | exactly one leading `refs/heads/` is removed; any other input is returned unchanged |
| Inputs.NormalizeBranchIdempotentIff | index.js:48 | normalising twice equals normalising once iff the first result no longer starts with `refs/heads/` |
| Inputs.NormalizeBranchRemovesOnePrefix | index.js:48 | `refs/heads/refs/heads/x` becomes `refs/heads/x`; only a second pass gives `x` |
| Inputs.CoordinatesAreSlashFields | index.js:63-66 | the owner is the text before the first `/`; the repo is the text between the first and second `/` (or to the end), and is undefined without a `/`; both come from the `repository` input when it is set, from `GITHUB_REPOSITORY` otherwise |
| Inputs.MergeMethodArguments | index.js:68-71 | the three accepted auto-merge inputs map to the GraphQL methods MERGE, SQUASH and REBASE |
| Text.ToUpperAscii | index.js:285 | the result equals the input when case is ignored, and contains no lower-case ASCII letter |
| Inputs.ParseAuthor | index.js:108-113 | a parsed author has a non-empty name without `<` and a non-empty e-mail without `>`, and renders back to exactly the input text |
| Inputs.ParseAuthorComplete | index.js:108-113 | every well-formed `name <email>` text parses to its own name and e-mail, so no valid author is rejected |
| Inputs.AuthorNameKeepsTrailingSpace | index.js:108 | the space before `<` stays in the name: `Jane <j@x>` gives the name `Jane ` |
| Text.Trim | index.js:197 | the result neither starts nor ends with whitespace |
| Text.TrimDropsOnlyEndWhitespace | index.js:197 | the result of `trim()` is a slice of the input with only whitespace before and after it; with the contract of Trim this determines it |
| Text.IndexOf | index.js:63 | the result is the position of the first occurrence, or the length when the character is absent |
| Text.IndexOfUnique | index.js:63 | any position with the first-occurrence property is the one `IndexOf` returns |
| Text.Split | index.js:63 | there is one more piece than separators, and no piece contains the separator |
| Text.JoinSplit | index.js:63 | joining the pieces with the separator gives the original string back |
| Text.SplitJoin | index.js:63 | splitting a join of separator-free pieces gives the pieces back |
| Inputs.SplitOnCommas | index.js:197 | splitting on `/\s*,\s*/` gives one piece per comma plus one, and no piece contains a comma |
| Inputs.SplitListShape | index.js:197 | a list input splits into one entry per comma plus one; no entry contains a comma, and every entry is trimmed |
| Inputs.SplitListReference | index.js:197 | splitting on `/\s*,\s*/` after `trim()` equals a plain split on commas with each piece trimmed |
| Inputs.SplitListKeepsEmptyElements | index.js:197 | a doubled comma keeps an empty entry: `a,,b` gives `a`, the empty string and `b` |
| Inputs.TrimEachElements | index.js:197 | every element is trimmed in place, and the length is kept |
| LocalStatus.GetLocalChanges | index.js:304-318 | both fields always agree, and they are undefined exactly when the clean marker occurs in any letter case |
| LocalStatus.HasChangesIff | index.js:92-98 | changes are reported iff the clean marker is absent (case-insensitively) and one of the three change markers is present (case-sensitively) |
| LocalStatus.CleanMarkerWins | index.js:307-308 | once the clean marker occurs, no surrounding text makes the tree count as changed |
| LocalStatus.ChangeMarkerReportsChanges | index.js:311-317 | any one of the three change markers reports changes when the clean marker is absent |
| LocalStatus.CleanMarkerIgnoresCase | index.js:307 | the clean marker in upper case still counts as clean |
| LocalStatus.ChangeMarkersKeepCase | index.js:311-312 | a lower-case `untracked files` is not a change marker |
| Workflow.RunCommands | index.js:383-393 | commands run in order and stop at the first that throws; the stage succeeds iff none of its commands fails, and the trace is the prefix up to the failing command |
| Inputs.OwnerAndRepo | index.js:63-66 | `split("/")` destructured into owner and repo; its fields are stated by CoordinatesAreSlashFields |
| Inputs.RepositoryCoordinates | index.js:63-66 | the `repository` input overrides `GITHUB_REPOSITORY` when set; stated by CoordinatesAreSlashFields |
| Inputs.IsValidAutoMerge | index.js:68-71 | `auto-merge` is empty or one of `merge`, `squash`, `rebase`; its use is stated by RunStopsAtOnceIff and ExpectedAutoMergeMethod |
| Inputs.MergeMethodArgument | index.js:285 | the upper-cased merge method; stated by MergeMethodArguments |
| Inputs.SplitList | index.js:197 | `trim().split(/\s*,\s*/)`; stated by SplitListShape, SplitListReference and SplitListKeepsEmptyElements |
| Workflow.ReadGitUser | index.js:320-332 | `getGitUser`: both reads, stopping at the first that throws; stated by ConfigureIdentitySteps |
| Workflow.NotOnRemote | index.js:376-380 | the `catch` of `checkOutRemoteBranch`: `git checkout -b` of the target, resolving to false; stated by CheckOutRemoteBranchOutcome |
| Workflow.Prepare | index.js:78-92 | the default-branch read, the optional `cd` and `git status`; stated by PrepareSteps |
| Workflow.MetadataRequests | index.js:195-270 | the labels, assignees and reviewers requests; stated by MetadataRequestsPresence, MetadataRequestsAreDecorations and SingleReviewersRequest |
| Workflow.AutoMergeRequest | index.js:272-295 | the auto-merge mutation when its input is set; stated by RunRequests and AutoMergeFailureIgnored |
| Workflow.CreateAndDecorate | index.js:178-297 | creating and decorating the pull request; stated by CreateAndDecorateOutcome, CreateAndDecorateRequests and CreateAndDecoratePresence |
| Workflow.Publish | index.js:151-297 | update or create; stated by PublishOutcome, PublishUpdates and PublishCreates |
| Workflow.Deliver | index.js:143-297 | `checkOutRemoteBranch`, the push, then publishing; stated by DeliverPhases and DeliveryKinds |
| Workflow.Run | index.js:14-302 | `main`; stated by RunStages, RunStopsAtOnceIff, UnchangedIffNothingToCommit, UpdatedIffOpenPullRequestFound and CreatedIffNoOpenPullRequest |
| Workflow.ConfigureIdentity | index.js:104-119 | issues only git commands, none of which pushes or talks to GitHub (`git fetch` only reads from the remote) |
| Workflow.CommitChanges | index.js:102-126 | issues only git commands, none of which pushes or talks to GitHub (`git fetch` only reads from the remote) |
| Workflow.RebaseOnDefault | index.js:128-141 | issues only git commands, none of which pushes or talks to GitHub (`git fetch` only reads from the remote) |
| Workflow.CheckOutRemoteBranch | index.js:342-381 | issues only git commands, none of which pushes or talks to GitHub (`git fetch` only reads from the remote) |
| WorkflowProperties.PrepareSteps | index.js:78-92 | the commands issued are a non-empty prefix of: reading the repository, the `cd` when `path-to-cd-to` is set, `git status`, in that order; the stage succeeds iff none of them fails |
| WorkflowProperties.ConfigureIdentitySteps | index.js:104-119 | only the two reads and the author's two settings can be issued; the stage succeeds iff both reads succeed, or the author parses and both settings succeed; when it succeeds without a configured user, the parsed name and e-mail are both written |
| WorkflowProperties.CommitChangesSteps | index.js:102-126 | the temporary branch is checked out first; `git add .` and `git commit` run only once the identity is settled, and a successful stage ends with them; it succeeds iff the checkout, the identity, the add and the commit all succeed |
| WorkflowProperties.RebaseOnDefaultSteps | index.js:128-141 | the trace is a prefix of `rev-parse`, fetch of the default branch, stash, rebase; it is `rev-parse` alone when that fails or HEAD is the default branch; the fetch is issued iff `rev-parse` succeeds off the default branch, and stash and rebase follow only while the command before them succeeds; the stage succeeds iff every issued command does |
| WorkflowProperties.CheckOutRemoteBranchSteps | index.js:342-381 | only its own commands are issued, and only a visible target branch that is not already checked out is fetched |
| WorkflowProperties.CheckOutRemoteBranchOutcome | index.js:342-381 | resolves to true iff already on the target or the target was fetched and checked out (a failed cherry-pick is tolerated unless its skip fails); otherwise creates the branch locally and resolves to false; it rejects only when that creation fails |
| WorkflowProperties.AlreadyOnTargetBranch | index.js:348-351 | on the target branch, `git rev-parse` alone resolves to true |
| WorkflowProperties.CherryPickFailureTolerated | index.js:364-373 | `git cherry-pick --skip` runs exactly when the pick failed as empty; only a failing skip reaches the `catch` |
| WorkflowProperties.MetadataRequestsAreDecorations | index.js:195-270 | every metadata request decorates the pull request, and none is the auto-merge mutation |
| WorkflowProperties.MetadataRequestsPresence | index.js:195-270 | labels and assignees are added iff their inputs are set; the reviewers request is made iff either reviewers input is set |
| WorkflowProperties.SingleReviewersRequest | index.js:227-270 | reviewers and team reviewers go out in one request, carrying exactly the lists whose inputs are set |
| WorkflowProperties.CreateAndDecorateFollowers | index.js:178-297 | the creation comes first, followed only by decorations and the stash pop |
| WorkflowProperties.CreateAndDecorateOutcome | index.js:178-297 | combines the result and the followers of a creation |
| WorkflowProperties.CreateAndDecorateOnlyPublishes | index.js:178-297 | a creation issues only pull request requests and the stash pop |
| WorkflowProperties.CreateAndDecorateRequests | index.js:227-295 | a creation makes at most one reviewers request, and sends the auto-merge mutation only when its input is set |
| WorkflowProperties.CreateAndDecorateDecorationsFollow | index.js:178-297 | within a creation, decorations follow the creation request, and the result is "created" |
| WorkflowProperties.CreateAndDecorateTrace | index.js:178-297 | a successful creation issues the request, the metadata requests, the auto-merge mutation and the stash pop |
| WorkflowProperties.CreateAndDecoratePresence | index.js:195-295 | a successful creation adds labels and assignees, requests reviewers and enables auto-merge, each iff its input is set |
| WorkflowProperties.DecoratedTracePresence | index.js:195-295 | the same presence facts for any trace made of a creation, its metadata, the auto-merge mutation and the stash pop |
| WorkflowProperties.CreationNeverSearches | index.js:178-297 | creating never issues a search |
| WorkflowProperties.PublishOutcome | index.js:151-297 | publishing talks only to pull requests; it updates iff the remote branch existed and the search found an open pull request, otherwise it creates one; "unchanged" is never reported |
| WorkflowProperties.PublishUpdates | index.js:151-175 | the update path is the search and then the title and body update, unless the input is exactly "false"; nothing is created or decorated |
| WorkflowProperties.PublishCreates | index.js:151-193 | creation is preceded by the search only when the remote branch existed and the search found nothing |
| WorkflowProperties.PublishShape | index.js:151-297 | publishing is the creation, possibly after a search, or the search and the update alone |
| WorkflowProperties.PublishDecorationsFollowCreation | index.js:151-297 | decorations come only after the creation, and then the result is "created" |
| WorkflowProperties.PublishRequests | index.js:151-297 | publishing makes at most one reviewers request, and sends only the expected auto-merge mutation |
| WorkflowProperties.PublishCreatedFacts | index.js:151-193 | a created publication issued the creation; a search before it came back empty |
| WorkflowProperties.PublishCreatedTrace | index.js:151-297 | apart from the search, a created publication issues what the creation issues, and on success ends with the stash pop |
| WorkflowProperties.LocalTraceSteps | index.js:78-141 | the local stages issue only their own commands |
| WorkflowProperties.PrepareActionsStayLocal | index.js:78-92 | the preparation neither pushes nor publishes |
| WorkflowProperties.CommitActionsStayLocal | index.js:102-126 | the commit stage neither pushes nor publishes |
| WorkflowProperties.RebaseActionsStayLocal | index.js:128-141 | the rebase stage neither pushes nor publishes |
| WorkflowProperties.LocalActionsStayLocal | index.js:78-141 | no local command is a push or a publishing request |
| WorkflowProperties.RemoteActionsStayLocal | index.js:342-381 | `checkOutRemoteBranch` neither configures, commits, rebases, pushes nor publishes |
| WorkflowProperties.NothingPublishedBeforePush | index.js:78-149 | everything before the push is local |
| WorkflowProperties.RunStages | index.js:14-149 | a run is its local stages, followed by delivery exactly when they all complete |
| WorkflowProperties.DeliverPhases | index.js:143-149 | delivery is `checkOutRemoteBranch`, then the push, then publishing; nothing is published unless the push succeeds |
| WorkflowProperties.RunPushes | index.js:143-297 | a pushing run is its local stages, `checkOutRemoteBranch`, the push and publishing, and it reports what publishing reports |
| WorkflowProperties.PushedPrefixQuiet | index.js:78-149 | the commands of a pushing run, up to and including the push, publish nothing |
| WorkflowProperties.RunWithoutPush | index.js:92-149 | a run that does not push publishes nothing and reports at most "unchanged" |
| WorkflowProperties.LocalTraceQuiet | index.js:78-141 | the local stages publish nothing |
| WorkflowProperties.DeliveryActions | index.js:143-297 | delivery issues `checkOutRemoteBranch`'s commands, the push and publishing requests |
| WorkflowProperties.RunStopsAtOnceIff | index.js:15-76 | nothing runs iff an environment variable is missing or the `auto-merge` input is invalid; such a run fails |
| WorkflowProperties.UnchangedIffNothingToCommit | index.js:92-98 | the result is "unchanged" iff the preparation succeeds and `git status` reports no changes; such a run succeeds and changes nothing |
| WorkflowProperties.MalformedAuthorStopsBeforeCommit | index.js:104-119 | with no configured user and an unparsable author, the run fails before writing settings, committing, pushing or publishing |
| WorkflowProperties.LocalCommitsNeedIdentity | index.js:104-126 | the local stages commit only once the identity is configured |
| WorkflowProperties.LocalTraceKinds | index.js:78-141 | local settings come from the author; rebases target the default branch from another branch; every local fetch is of the default branch |
| WorkflowProperties.DeliveryKinds | index.js:143-297 | after the local stages, nothing configures, commits or rebases, and the only fetch is of the target branch |
| WorkflowProperties.IdentityComesFromAuthor | index.js:104-119 | `git config --global` only ever gets the parsed author name and e-mail, and only when no user is configured |
| WorkflowProperties.RebaseOnlyOffDefaultBranch | index.js:128-141 | every rebase is onto the default branch from another branch, and a pushing run from another branch has rebased |
| WorkflowProperties.PushPrecedesPublishing | index.js:143-297 | every pull request request, and the final stash pop, comes after the push |
| WorkflowProperties.UpdatedIffOpenPullRequestFound | index.js:151-175 | the result is "updated" iff the push succeeded, the target branch existed on the remote and the search found an open pull request |
| WorkflowProperties.CreatedIffNoOpenPullRequest | index.js:151-193 | the result is "created" iff the push succeeded, the branch was new or the search found nothing, and the creation succeeded |
| WorkflowProperties.UpdatedRun | index.js:157-175 | an updated run reports the first hit's number; it updates title and body unless the input is "false"; it fails only if that update fails; it never creates or decorates |
| WorkflowProperties.PublishingAfterPush | index.js:143-297 | after a push, the run reports what publishing reports, and its publishing requests are exactly publishing's |
| WorkflowProperties.CreatedRun | index.js:151-297 | a created run reports GitHub's number and issued the creation; it searched first only if the search came back empty; on success it ends with the stash pop |
| WorkflowProperties.CreatedRunDecorations | index.js:195-295 | a successful created run adds labels and assignees, requests reviewers and enables auto-merge, each iff its input is set |
| WorkflowProperties.DecorationsFollowCreation | index.js:178-295 | any label, assignee, reviewers or auto-merge request comes after the creation request, in a run reporting "created" |
| WorkflowProperties.RunRequests | index.js:227-295 | a run makes at most one reviewers request, carrying the expected lists; its auto-merge mutation uses an upper-cased valid method |
| WorkflowProperties.ExpectedAutoMergeMethod | index.js:285 | an accepted, set `auto-merge` input becomes MERGE, SQUASH or REBASE |
| WorkflowProperties.RunCommandsWithout | index.js:383-393 | a command list that lacks `a` runs the same whether `a` fails or not |
| WorkflowProperties.LocalStagesIgnoreAutoMerge | index.js:78-141 | the local stages do not depend on whether auto-merge fails |
| WorkflowProperties.RemoteCheckIgnoresAutoMerge | index.js:342-381 | `checkOutRemoteBranch` does not depend on whether auto-merge fails |
| WorkflowProperties.CreateAndDecorateIgnoresAutoMerge | index.js:282-294 | a failing auto-merge mutation is caught: the creation's trace, result and failure are the same either way |
| WorkflowProperties.PublishIgnoresAutoMerge | index.js:282-294 | publishing is the same whether auto-merge fails or not |
| WorkflowProperties.DeliverIgnoresAutoMerge | index.js:282-294 | delivery is the same whether auto-merge fails or not |
| WorkflowProperties.AutoMergeFailureIgnored | index.js:282-294 | a whole run is the same whether auto-merge fails or not: its commands, result and failure |
| WorkflowProperties.AsWrittenUpdatesOnlyFromTargetBranch | index.js:355 | as written, a run updates only when HEAD already is the target branch, and the only branch it fetches is the default one |
| WorkflowProperties.AsWrittenNeverUpdates | index.js:102-175 | on the temporary branch (which every HEAD read sees), the code as written never reports "updated": a run stops, reports "unchanged" or creates |
| WorkflowProperties.PushingRunRebases | index.js:102-149 | on the temporary branch, every run that pushes has rebased onto the default branch |
| WorkflowProperties.AllSucceedPushes | index.js:143-149 | when every command succeeds, the run pushes; the target is found on the remote only with owner and repo in scope |
| WorkflowProperties.AsWrittenCreatesDuplicate | index.js:355 | as written, with an open pull request for a target branch that is not checked out, the run never searches and asks GitHub to create a second pull request |
| WorkflowProperties.InScopeUpdatesOpenPullRequest | index.js:342-381 | with owner and repo in scope, the same situation fetches the target, creates nothing and updates the open pull request |
| WorkflowProperties.InScopeFetchesTarget | index.js:354-363 | with owner and repo in scope, that run fetches the target branch |
| Runner.Session.constructor | index.js:14 | a session starts with an empty trace in a given world |
| Runner.Session.Issue | index.js:383-393 | one command is appended to the trace; it succeeds iff it does not fail in the world |
| Runner.Session.PrepareRepository | index.js:78-92 | issues exactly the preparation's commands, with its outcome |
| Runner.Session.SetUpIdentity | index.js:104-119 | issues exactly `ConfigureIdentity`'s commands, with its outcome |
| Runner.Session.CommitOnTemporaryBranch | index.js:102-126 | issues exactly `CommitChanges`'s commands, with its outcome |
| Runner.Session.RebaseOntoDefault | index.js:128-141 | issues exactly `RebaseOnDefault`'s commands, with its outcome |
| Runner.Session.FetchAndCheckOut | index.js:354-363 | issues fetch, branch listing and checkout until the first failure |
| Runner.Session.CherryPickChanges | index.js:364-373 | issues the cherry-pick, and the skip exactly when the pick failed as empty |
| Runner.Session.CheckOutRemote | index.js:342-381 | issues exactly `checkOutRemoteBranch`'s commands, and resolves as it does |
| Runner.Session.RequestIf | index.js:195-225 | issues a request only when its input is present |
| Runner.Session.RequestInOrder | index.js:195-270 | issues the present requests in order, stopping at the first failure |
| Runner.Session.AddMetadata | index.js:195-270 | issues exactly the metadata requests, until the first failure |
| Runner.Session.CreateAndDecoratePullRequest | index.js:178-297 | leaves the trace, result and failure of `CreateAndDecorate` |
| Runner.Session.PublishPullRequest | index.js:151-297 | leaves the trace, result and failure of `Publish` |
| Runner.Session.DeliverChanges | index.js:143-297 | leaves the trace, result and failure of `Deliver` |
| Runner.Session.Execute | index.js:14-302 | leaves exactly `Run`'s trace, result and failure, so every `WorkflowProperties` lemma about `Run` holds of it |

## Left out

- Octokit requests and `execa` shell commands are not executed. Each one is
  an `Action`; whether it throws is given by `World.failing`. Their payloads
  and responses are reduced to the fields the code reads: the default branch,
  the search's `total_count` and item numbers, and the new pull request's
  number and node id.
- Logging (`core.debug`, `core.info`, `core.warning`) and `inspect` are not
  modelled. `core.setOutput` is modelled as `Execution.result`, and
  `core.setFailed` as `Execution.failed`.
- `process.exit(1)` is modelled as a run that fails with an empty trace.
- `process.chdir` is modelled as the `ChangeDirectory` action; its effect on
  later paths is not modelled.
- The random temporary-branch suffix is not modelled; it is the parameter
  `World.temporarySuffix`.
- Shell quoting of commit messages and author text is not modelled. The exact
  text of the GraphQL mutation and of the search query is not modelled
  either: actions carry their arguments as fields.
- `git stash pop || true` is modelled as never failing.
- `World.head` is a free parameter, so the model over-approximates the runs.
  In the source, `git checkout -b` of the temporary branch (index.js:102)
  precedes both HEAD reads, so HEAD is always the temporary branch there.
  The "already on the default branch" skip (index.js:132) and the "already
  on the target" return (index.js:348-351) are then reachable only when one
  of those branches has the temporary branch's name. `OnTemporaryBranch`
  states the real situation, and `AsWrittenNeverUpdates` and
  `PushingRunRebases` are proved under it. Every `git rev-parse` in a run
  reads the same `head`.
- `World.failing` is a set, so a command fails every time it is issued or
  never. The second `git rev-parse` (index.js:344) therefore cannot fail
  after the first (index.js:128) succeeded, and the rev-parse failure path
  of `checkOutRemoteBranch` is not reachable from `Run`; it is covered by
  `CheckOutRemoteBranchOutcome` on its own.
- ConfigureIdentity: its own contract states only that it issues git
  commands that neither push nor talk to GitHub. When it succeeds and which
  settings it writes is stated by `ConfigureIdentitySteps` and
  `IdentityComesFromAuthor`.
- CommitChanges: its own contract states only that it issues git commands
  that neither push nor talk to GitHub. The order of its commands and when
  it succeeds is stated by `CommitChangesSteps` and `LocalCommitsNeedIdentity`.
- RebaseOnDefault: its own contract states only that it issues git commands
  that neither push nor talk to GitHub. When it fetches, stashes and rebases
  is stated by `RebaseOnDefaultSteps` and `RebaseOnlyOffDefaultBranch`.
- CheckOutRemoteBranch: its own contract states only that it issues git
  commands that neither push nor talk to GitHub. What it resolves to is
  stated by `CheckOutRemoteBranchOutcome` and `CherryPickFailureTolerated`.
- Unset environment variables and inputs are the empty string. The
  formatting of `undefined` (an owner without `/` gives `owner/undefined`)
  is not modelled.
- Text.ToUpperAscii: upper-cases ASCII letters only. JavaScript's
  `toUpperCase` also maps other letters; the only inputs that reach it are
  the three accepted merge methods.
- Text.Trim: its own contract states only that the result is trimmed. That
  it is the input minus the whitespace at both ends is the lemma
  `TrimDropsOnlyEndWhitespace`, kept apart so that every use of `Trim` does
  not carry the existential.
- Text.ContainsIgnoringCase: the `/i` flag is modelled as ASCII case
  folding.
- A 422 from GitHub for a duplicate pull request is not modelled. It is one
  more failing request in `World.failing`.
- The error messages passed to `core.setFailed` are not modelled; only the
  fact that the run failed is.

## Findings

| source | as written | input that shows it | evidently intended | confidence | as-written member | corrected member |
|---|---|---|---|---|---|---|
| index.js:355 | `checkOutRemoteBranch` builds its fetch URL from `owner` and `repo`, which exist only inside `main`. Reading them throws a ReferenceError, and the `catch` creates the branch locally as if it were new. Since HEAD is always the temporary branch, a run as written never reports "updated" (`AsWrittenNeverUpdates`). | An open pull request exists for target branch `b`, HEAD is another branch, and every command succeeds. The run never searches; it force-pushes `b` and asks GitHub to create a second pull request. | Fetch `b` from the repository, cherry-pick onto it, find the open pull request and update it. | not executed | WorkflowProperties.AsWrittenCreatesDuplicate | WorkflowProperties.InScopeUpdatesOpenPullRequest |
