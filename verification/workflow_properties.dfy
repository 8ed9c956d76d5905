/**
 What a run of the action does and does not do, proved about the
 `Workflow` model for every input, environment and world.
 */
module WorkflowProperties {
  import opened Wrappers
  import opened Text
  import opened Inputs
  import opened LocalStatus
  import opened Workflow

  /** Every action of `trace` is one of `allowed`. */
  predicate Within(trace: seq<Action>, allowed: set<Action>)
  {
    forall i :: 0 <= i < |trace| ==> trace[i] in allowed
  }

  /** Requests that read or change pull requests. */
  predicate IsPullRequestRequest(a: Action)
  {
    a.SearchOpenPullRequests? || a.UpdatePullRequest? || a.CreatePullRequest? || IsDecoration(a)
  }

  /** Requests that decorate a freshly created pull request. */
  predicate IsDecoration(a: Action)
  {
    a.AddLabels? || a.AddAssignees? || a.RequestReviewers? || a.EnableAutoMerge?
  }

  /** Actions that change the working tree, the repository, the git
      settings or GitHub. */
  predicate IsMutation(a: Action)
  {
    a.CheckoutNewBranch? || a.SetGlobalConfig? || a.AddAll? || a.Commit? || a.Fetch?
    || a.StashIncludeUntracked? || a.RebaseTheirs? || a.Checkout? || a.CherryPickTheirs?
    || a.CherryPickSkip? || a.ForcePush? || a.StashPop? || a.UpdatePullRequest?
    || a.CreatePullRequest? || IsDecoration(a)
  }

  lemma RunOne(w: World, a: Action)
    ensures RunCommands(w, [a]) == Outcome([a], a !in w.failing)
  {
    assert [a][1..] == [];
  }

  lemma RunCommandsCons(w: World, x: Action, rest: seq<Action>)
    ensures RunCommands(w, [x] + rest)
            == if x in w.failing then Outcome([x], false)
               else Outcome([x] + RunCommands(w, rest).trace, RunCommands(w, rest).ok)
  {
    assert ([x] + rest)[1..] == rest;
  }

  lemma ThenCons(x: Action, first: Outcome, second: Outcome)
    ensures Then(Outcome([x] + first.trace, first.ok), second)
            == Outcome([x] + Then(first, second).trace, Then(first, second).ok)
  {
    if first.ok {
      assert [x] + first.trace + second.trace == [x] + (first.trace + second.trace);
    }
  }

  /** Running two lists one after the other is running their
      concatenation. */
  lemma {:induction false} RunCommandsAppend(w: World, xs: seq<Action>, ys: seq<Action>)
    ensures RunCommands(w, xs + ys) == Then(RunCommands(w, xs), RunCommands(w, ys))
  {
    if xs == [] {
      assert xs + ys == ys;
    } else {
      var x := xs[0];
      var rest := xs[1..];
      assert xs == [x] + rest;
      assert xs + ys == [x] + (rest + ys);
      RunCommandsAppend(w, rest, ys);
      RunCommandsCons(w, x, rest);
      RunCommandsCons(w, x, rest + ys);
      ThenCons(x, RunCommands(w, rest), RunCommands(w, ys));
    }
  }

  lemma RunTwo(w: World, a: Action, b: Action)
    ensures RunCommands(w, [a, b])
            == if a in w.failing then Outcome([a], false) else Outcome([a, b], b !in w.failing)
  {
    assert [a, b][1..] == [b];
    RunOne(w, b);
  }

  lemma RunThree(w: World, a: Action, b: Action, c: Action)
    ensures RunCommands(w, [a, b, c])
            == if a in w.failing then Outcome([a], false)
               else if b in w.failing then Outcome([a, b], false)
               else Outcome([a, b, c], c !in w.failing)
  {
    assert [a, b, c][1..] == [b, c];
    RunTwo(w, b, c);
  }

  // ---------------------------------------------------------------------
  // Stages
  // ---------------------------------------------------------------------

  function PrepareActions(inputs: ActionInputs, coords: Coordinates): set<Action>
  {
    {GetRepository(coords), ChangeDirectory(inputs.pathToCdTo), GitStatus}
  }

  /** Reading the repository, the optional `cd` and `git status` go out
      in that order, and the stage succeeds iff none of them fails. */
  lemma PrepareSteps(inputs: ActionInputs, coords: Coordinates, w: World)
    ensures Within(Prepare(inputs, coords, w).trace, PrepareActions(inputs, coords))
    ensures var t := Prepare(inputs, coords, w).trace;
            0 < |t| && t <= [GetRepository(coords)] + ChangeDirectoryCommands(inputs.pathToCdTo) + [GitStatus]
    ensures Prepare(inputs, coords, w).ok
            <==> GetRepository(coords) !in w.failing && GitStatus !in w.failing
                 && (inputs.pathToCdTo != "" ==> ChangeDirectory(inputs.pathToCdTo) !in w.failing)
  {
    var commands := [GetRepository(coords)] + ChangeDirectoryCommands(inputs.pathToCdTo) + [GitStatus];
    if inputs.pathToCdTo != "" {
      assert commands == [GetRepository(coords), ChangeDirectory(inputs.pathToCdTo), GitStatus];
      RunThree(w, GetRepository(coords), ChangeDirectory(inputs.pathToCdTo), GitStatus);
    } else {
      assert commands == [GetRepository(coords), GitStatus];
      RunTwo(w, GetRepository(coords), GitStatus);
    }
  }

  /** Both `git config --get` commands succeed. */
  predicate UserConfigured(w: World)
  {
    GetConfig(UserNameKey) !in w.failing && GetConfig(UserEmailKey) !in w.failing
  }

  /** The settings `setGitUser` may write: none when a user is configured,
      otherwise the two halves of the author input. */
  function IdentitySettings(author: string, w: World): set<Action>
  {
    if UserConfigured(w) then {}
    else
      match ParseAuthor(author)
      case None => {}
      case Some(id) => {SetGlobalConfig(UserNameKey, id.name), SetGlobalConfig(UserEmailKey, id.email)}
  }

  lemma ConfigureIdentitySteps(author: string, w: World)
    ensures Within(ConfigureIdentity(author, w).trace,
                   {GetConfig(UserNameKey), GetConfig(UserEmailKey)} + IdentitySettings(author, w))
    ensures ConfigureIdentity(author, w).ok
            <==> UserConfigured(w)
                 || (ParseAuthor(author).Some?
                     && SetGlobalConfig(UserNameKey, ParseAuthor(author).value.name) !in w.failing
                     && SetGlobalConfig(UserEmailKey, ParseAuthor(author).value.email) !in w.failing)
    ensures ConfigureIdentity(author, w).ok && !UserConfigured(w)
            ==> ParseAuthor(author).Some?
                && SetGlobalConfig(UserNameKey, ParseAuthor(author).value.name) in ConfigureIdentity(author, w).trace
                && SetGlobalConfig(UserEmailKey, ParseAuthor(author).value.email) in ConfigureIdentity(author, w).trace
  {
    RunTwo(w, GetConfig(UserNameKey), GetConfig(UserEmailKey));
    match ParseAuthor(author)
    case None =>
    case Some(id) =>
      RunTwo(w, SetGlobalConfig(UserNameKey, id.name), SetGlobalConfig(UserEmailKey, id.email));
  }

  /** The commands `git add .` and `git commit` join only once the
      identity is settled. */
  function CommitActions(inputs: ActionInputs, w: World): set<Action>
  {
    {CheckoutNewBranch(TemporaryBranch(w)), GetConfig(UserNameKey), GetConfig(UserEmailKey)}
    + IdentitySettings(inputs.author, w)
    + (if ConfigureIdentity(inputs.author, w).ok then {AddAll, Commit(inputs.commitMessage, inputs.author)} else {})
  }

  lemma CommitChangesSteps(inputs: ActionInputs, w: World)
    ensures Within(CommitChanges(inputs, w).trace, CommitActions(inputs, w))
    ensures var t := CommitChanges(inputs, w).trace;
            0 < |t| && t[0] == CheckoutNewBranch(TemporaryBranch(w))
            && (CommitChanges(inputs, w).ok ==> 2 < |t| && t[|t| - 2..] == [AddAll, Commit(inputs.commitMessage, inputs.author)])
    ensures CommitChanges(inputs, w).ok
            <==> CheckoutNewBranch(TemporaryBranch(w)) !in w.failing && ConfigureIdentity(inputs.author, w).ok
                 && AddAll !in w.failing && Commit(inputs.commitMessage, inputs.author) !in w.failing
  {
    ConfigureIdentitySteps(inputs.author, w);
    RunOne(w, CheckoutNewBranch(TemporaryBranch(w)));
    var identity := ConfigureIdentity(inputs.author, w);
    var addCommit := RunCommands(w, [AddAll, Commit(inputs.commitMessage, inputs.author)]);
    if CheckoutNewBranch(TemporaryBranch(w)) !in w.failing && identity.ok {
      assert CommitChanges(inputs, w).trace == [CheckoutNewBranch(TemporaryBranch(w))] + identity.trace + addCommit.trace;
    }
    RunTwo(w, AddAll, Commit(inputs.commitMessage, inputs.author));
  }

  /** The rebase commands are issued only off the default branch. */
  function RebaseActions(coords: Coordinates, w: World): set<Action>
  {
    {RevParseHead}
    + (if w.head != w.defaultBranch then {Fetch(coords, w.defaultBranch), StashIncludeUntracked, RebaseTheirs(w.defaultBranch)} else {})
  }

  lemma RebaseOnDefaultSteps(coords: Coordinates, w: World)
    ensures Within(RebaseOnDefault(coords, w).trace, RebaseActions(coords, w))
    ensures var t := RebaseOnDefault(coords, w).trace;
            t <= [RevParseHead, Fetch(coords, w.defaultBranch), StashIncludeUntracked, RebaseTheirs(w.defaultBranch)]
            && (RevParseHead in w.failing || w.head == w.defaultBranch ==> t == [RevParseHead])
            && (RevParseHead !in w.failing && w.head != w.defaultBranch ==> Fetch(coords, w.defaultBranch) in t)
    ensures RebaseOnDefault(coords, w).ok && w.head != w.defaultBranch
            ==> RebaseTheirs(w.defaultBranch) in RebaseOnDefault(coords, w).trace
    ensures RebaseOnDefault(coords, w).ok
            <==> RevParseHead !in w.failing
                 && (w.head != w.defaultBranch
                     ==> Fetch(coords, w.defaultBranch) !in w.failing && StashIncludeUntracked !in w.failing
                         && RebaseTheirs(w.defaultBranch) !in w.failing)
  {
    RunOne(w, RevParseHead);
    RunThree(w, Fetch(coords, w.defaultBranch), StashIncludeUntracked, RebaseTheirs(w.defaultBranch));
  }

  /** The fetch of the target branch needs the owner and repository in
      scope and a current branch other than the target. */
  function FetchTarget(branch: string, visible: Option<Coordinates>, w: World): set<Action>
  {
    if visible.Some? && w.head != branch then {Fetch(visible.value, branch)} else {}
  }

  function RemoteActions(branch: string, visible: Option<Coordinates>, w: World): set<Action>
  {
    {RevParseHead, ListBranches, Checkout(branch), CherryPickTheirs(TemporaryBranch(w)), CherryPickSkip, CheckoutNewBranch(branch)}
    + FetchTarget(branch, visible, w)
  }

  /** The cherry-pick failed, its message says it was empty, and the
      skip failed too: the one way a picked branch ends in the `catch`. */
  predicate SkipFails(w: World)
  {
    CherryPickTheirs(TemporaryBranch(w)) in w.failing && Contains(w.cherryPickStderr, EmptyCherryPickMarker)
    && CherryPickSkip in w.failing
  }

  /** `checkOutRemoteBranch` with every path written out. */
  lemma CheckOutRemoteBranchShape(branch: string, visible: Option<Coordinates>, w: World)
    ensures var pick := CherryPickTheirs(TemporaryBranch(w));
            CheckOutRemoteBranch(branch, visible, w)
            == if RevParseHead in w.failing then NotOnRemote(branch, w, [RevParseHead])
               else if w.head == branch then RemoteCheckout([RevParseHead], Some(true))
               else if visible.None? then NotOnRemote(branch, w, [RevParseHead])
               else if Fetch(visible.value, branch) in w.failing
               then NotOnRemote(branch, w, [RevParseHead, Fetch(visible.value, branch)])
               else if ListBranches in w.failing
               then NotOnRemote(branch, w, [RevParseHead, Fetch(visible.value, branch), ListBranches])
               else if Checkout(branch) in w.failing
               then NotOnRemote(branch, w, [RevParseHead, Fetch(visible.value, branch), ListBranches, Checkout(branch)])
               else if pick !in w.failing || !Contains(w.cherryPickStderr, EmptyCherryPickMarker)
               then RemoteCheckout([RevParseHead, Fetch(visible.value, branch), ListBranches, Checkout(branch), pick], Some(true))
               else if CherryPickSkip in w.failing
               then NotOnRemote(branch, w, [RevParseHead, Fetch(visible.value, branch), ListBranches, Checkout(branch), pick, CherryPickSkip])
               else RemoteCheckout([RevParseHead, Fetch(visible.value, branch), ListBranches, Checkout(branch), pick, CherryPickSkip], Some(true))
  {
    RunOne(w, RevParseHead);
    if visible.Some? {
      RunThree(w, Fetch(visible.value, branch), ListBranches, Checkout(branch));
    }
  }

  /** `checkOutRemoteBranch` issues only its own commands, and fetches
      only a visible target it is not already on. */
  lemma CheckOutRemoteBranchSteps(branch: string, visible: Option<Coordinates>, w: World)
    ensures Within(CheckOutRemoteBranch(branch, visible, w).trace, RemoteActions(branch, visible, w))
  {
    CheckOutRemoteBranchShape(branch, visible, w);
  }

  /** `checkOutRemoteBranch` resolves to true iff the current branch is
      already the target, or the target could be fetched and checked out
      (a failing cherry-pick is tolerated unless its skip fails); it
      resolves to false after creating the branch locally, and rejects
      only when that creation fails. */
  lemma CheckOutRemoteBranchOutcome(branch: string, visible: Option<Coordinates>, w: World)
    ensures var r := CheckOutRemoteBranch(branch, visible, w);
            Within(r.trace, RemoteActions(branch, visible, w))
            && (r.remoteBranchExists == Some(true)
                <==> RevParseHead !in w.failing
                     && (w.head == branch
                         || (visible.Some? && Fetch(visible.value, branch) !in w.failing
                             && ListBranches !in w.failing && Checkout(branch) !in w.failing && !SkipFails(w))))
            && (r.remoteBranchExists == Some(true) ==> CheckoutNewBranch(branch) !in r.trace)
            && (r.remoteBranchExists != Some(true)
                ==> 0 < |r.trace| && r.trace[|r.trace| - 1] == CheckoutNewBranch(branch)
                    && (r.remoteBranchExists.None? <==> CheckoutNewBranch(branch) in w.failing))
  {
    CheckOutRemoteBranchShape(branch, visible, w);
    CheckOutRemoteBranchSteps(branch, visible, w);
  }

  /** Already on the target: resolves to true after `git rev-parse` alone. */
  lemma AlreadyOnTargetBranch(branch: string, visible: Option<Coordinates>, w: World)
    requires RevParseHead !in w.failing && w.head == branch
    ensures CheckOutRemoteBranch(branch, visible, w) == RemoteCheckout([RevParseHead], Some(true))
  {
    RunOne(w, RevParseHead);
  }

  /** A failing cherry-pick never makes the function fail by itself:
      `git cherry-pick --skip` runs exactly when the failure says the pick
      was empty, and only a failing skip leads to the `catch`. */
  lemma CherryPickFailureTolerated(branch: string, visible: Option<Coordinates>, w: World)
    requires CherryPickTheirs(TemporaryBranch(w)) in CheckOutRemoteBranch(branch, visible, w).trace
    ensures var r := CheckOutRemoteBranch(branch, visible, w);
            (CherryPickSkip in r.trace
             <==> CherryPickTheirs(TemporaryBranch(w)) in w.failing && Contains(w.cherryPickStderr, EmptyCherryPickMarker))
            && (r.remoteBranchExists == Some(true) <==> !SkipFails(w))
  {
    CheckOutRemoteBranchShape(branch, visible, w);
    if RevParseHead in w.failing || w.head == branch || visible.None? || Fetch(visible.value, branch) in w.failing
       || ListBranches in w.failing || Checkout(branch) in w.failing {
      assert false;
    }
  }

  // ---------------------------------------------------------------------
  // Publishing
  // ---------------------------------------------------------------------

  /** The requests that come after the push: pull request requests and
      the final `git stash pop`. */
  predicate IsPublishing(a: Action)
  {
    IsPullRequestRequest(a) || a == StashPop
  }

  predicate OnlyPublishing(trace: seq<Action>)
  {
    forall i :: 0 <= i < |trace| ==> IsPublishing(trace[i])
  }

  predicate NoPublishing(trace: seq<Action>)
  {
    forall i :: 0 <= i < |trace| ==> !IsPublishing(trace[i])
  }

  /** Every metadata request decorates the pull request; none of them
      is the auto-merge mutation. */
  lemma MetadataRequestsAreDecorations(inputs: ActionInputs, coords: Coordinates, number: int)
    ensures var m := MetadataRequests(inputs, coords, number);
            forall i :: 0 <= i < |m| ==> IsDecoration(m[i]) && !m[i].EnableAutoMerge?
  {
  }

  /** Labels and assignees are added iff their inputs are set, and the
      reviewers request is made iff either reviewers input is set. */
  lemma MetadataRequestsPresence(inputs: ActionInputs, coords: Coordinates, number: int)
    ensures var m := MetadataRequests(inputs, coords, number);
            var reviewers := RequestReviewers(coords, number, OptionalList(inputs.reviewers), OptionalList(inputs.teamReviewers));
            (AddLabels(coords, number, SplitList(inputs.labels)) in m <==> inputs.labels != "")
            && (AddAssignees(coords, number, SplitList(inputs.assignees)) in m <==> inputs.assignees != "")
            && (reviewers in m <==> inputs.reviewers != "" || inputs.teamReviewers != "")
  {
  }

  /** Reviewers and team reviewers go out in one request, carrying
      exactly the lists whose inputs are set. */
  lemma SingleReviewersRequest(inputs: ActionInputs, coords: Coordinates, number: int)
    ensures ReviewersRequestsAre(MetadataRequests(inputs, coords, number),
                                 RequestReviewers(coords, number, OptionalList(inputs.reviewers), OptionalList(inputs.teamReviewers)))
  {
    OneReviewersRequestAfter(AddLabels(coords, number, SplitList(inputs.labels)), inputs.labels != "",
                             AddAssignees(coords, number, SplitList(inputs.assignees)), inputs.assignees != "",
                             RequestReviewers(coords, number, OptionalList(inputs.reviewers), OptionalList(inputs.teamReviewers)),
                             inputs.reviewers != "" || inputs.teamReviewers != "");
  }

  /** The shape of the metadata requests, with the requests themselves
      left abstract. */
  lemma OneReviewersRequestAfter(labels: Action, hasLabels: bool, assignees: Action, hasAssignees: bool,
                                 reviewers: Action, hasReviewers: bool)
    requires labels.AddLabels? && assignees.AddAssignees?
    ensures ReviewersRequestsAre((if hasLabels then [labels] else []) + (if hasAssignees then [assignees] else [])
                                 + (if hasReviewers then [reviewers] else []), reviewers)
  {
    var before: seq<Action> := (if hasLabels then [labels] else []) + (if hasAssignees then [assignees] else []);
    var request: seq<Action> := if hasReviewers then [reviewers] else [];
    assert forall i :: 0 <= i < |before| ==> !before[i].RequestReviewers?;
    ReviewersRequestsAround(before, request, [], reviewers);
    assert before + request + [] == before + request;
  }

  /** Creating a pull request: the creation comes first and is followed
      only by decorations and the stash pop; the number reported is the
      one GitHub assigned; the run fails iff the creation or one of the
      label, assignee or reviewer requests fails (never the auto-merge). */
  lemma CreateAndDecorateOutcome(inputs: ActionInputs, branch: string, coords: Coordinates, w: World)
    ensures var r := CreateAndDecorate(inputs, branch, coords, w);
            var create := CreatePullRequest(coords, inputs.title, inputs.body, branch, w.defaultBranch);
            var metadata := MetadataRequests(inputs, coords, w.createdNumber);
            0 < |r.trace| && r.trace[0] == create
            && (forall i :: 0 < i < |r.trace| ==> IsDecoration(r.trace[i]) || r.trace[i] == StashPop)
            && (r.result.None? <==> create in w.failing)
            && (create in w.failing ==> r.trace == [create])
            && (r.result.Some? ==> r.result == Some(Created(w.createdNumber)))
            && (r.failed <==> create in w.failing || exists i :: 0 <= i < |metadata| && metadata[i] in w.failing)
            && (!r.failed ==> r.trace == [create] + metadata + AutoMergeRequest(inputs, w) + [StashPop])
  {
    CreateAndDecorateResult(inputs, branch, coords, w);
    CreateAndDecorateFollowers(inputs, branch, coords, w);
  }

  // The result half of CreateAndDecorateOutcome, proved on its own to keep
  // each proof small.
  lemma CreateAndDecorateResult(inputs: ActionInputs, branch: string, coords: Coordinates, w: World)
    ensures var r := CreateAndDecorate(inputs, branch, coords, w);
            var create := CreatePullRequest(coords, inputs.title, inputs.body, branch, w.defaultBranch);
            var metadata := MetadataRequests(inputs, coords, w.createdNumber);
            0 < |r.trace| && r.trace[0] == create
            && (r.result.None? <==> create in w.failing)
            && (create in w.failing ==> r.trace == [create])
            && (r.result.Some? ==> r.result == Some(Created(w.createdNumber)))
            && (r.failed <==> create in w.failing || exists i :: 0 <= i < |metadata| && metadata[i] in w.failing)
            && (!r.failed ==> r.trace == [create] + metadata + AutoMergeRequest(inputs, w) + [StashPop])
  {
  }

  /** After the creation come only decorations and the stash pop. */
  lemma CreateAndDecorateFollowers(inputs: ActionInputs, branch: string, coords: Coordinates, w: World)
    ensures var r := CreateAndDecorate(inputs, branch, coords, w);
            forall i :: 0 < i < |r.trace| ==> IsDecoration(r.trace[i]) || r.trace[i] == StashPop
  {
    var create := CreatePullRequest(coords, inputs.title, inputs.body, branch, w.defaultBranch);
    CreateAndDecorateShape(inputs, branch, coords, w);
    if create !in w.failing {
      var metadata := MetadataRequests(inputs, coords, w.createdNumber);
      var extras := RunCommands(w, metadata);
      var tail := if extras.ok then AutoMergeRequest(inputs, w) + [StashPop] else [];
      MetadataRequestsAreDecorations(inputs, coords, w.createdNumber);
      FollowersAround(create, extras.trace, tail);
    }
  }

  lemma FollowersAround(first: Action, middle: seq<Action>, tail: seq<Action>)
    requires forall i :: 0 <= i < |middle| ==> IsDecoration(middle[i])
    requires forall i :: 0 <= i < |tail| ==> IsDecoration(tail[i]) || tail[i] == StashPop
    ensures var t := [first] + middle + tail;
            forall i :: 0 < i < |t| ==> IsDecoration(t[i]) || t[i] == StashPop
  {
    var t := [first] + middle + tail;
    forall i | 0 < i < |t|
      ensures IsDecoration(t[i]) || t[i] == StashPop
    {
      if i <= |middle| {
        assert t[i] == middle[i - 1];
      } else {
        assert t[i] == tail[i - 1 - |middle|];
      }
    }
  }

  lemma CreateAndDecorateOnlyPublishes(inputs: ActionInputs, branch: string, coords: Coordinates, w: World)
    ensures OnlyPublishing(CreateAndDecorate(inputs, branch, coords, w).trace)
  {
    CreateAndDecorateOutcome(inputs, branch, coords, w);
  }

  /** Publishing only talks to pull requests (and pops the stash). The
      open pull request is updated iff the remote branch existed and the
      search found one; otherwise one is created, unless its creation
      fails. "Unchanged" is never reported here. */
  lemma PublishOutcome(inputs: ActionInputs, branch: string, coords: Coordinates, w: World, remoteBranchExists: bool)
    ensures var r := Publish(inputs, branch, coords, w, remoteBranchExists);
            var search := SearchOpenPullRequests(coords, branch);
            OnlyPublishing(r.trace)
            && r.result != Some(Unchanged)
            && (r.result.Some? && r.result.value.Updated?
                <==> remoteBranchExists && search !in w.failing && w.searchTotalCount > 0 && |w.searchItemNumbers| > 0)
            && (r.result.Some? && r.result.value.Created?
                <==> (!remoteBranchExists || (search !in w.failing && w.searchTotalCount <= 0))
                     && CreatePullRequest(coords, inputs.title, inputs.body, branch, w.defaultBranch) !in w.failing)
  {
    CreateAndDecorateOutcome(inputs, branch, coords, w);
    CreateAndDecorateOnlyPublishes(inputs, branch, coords, w);
  }

  /** The update path: search, then update title and body unless the
      input is exactly "false"; no pull request is created or decorated. */
  lemma PublishUpdates(inputs: ActionInputs, branch: string, coords: Coordinates, w: World, remoteBranchExists: bool)
    requires Publish(inputs, branch, coords, w, remoteBranchExists).result.Some?
    requires Publish(inputs, branch, coords, w, remoteBranchExists).result.value.Updated?
    ensures var r := Publish(inputs, branch, coords, w, remoteBranchExists);
            |w.searchItemNumbers| > 0
            && var number := w.searchItemNumbers[0];
               var update := UpdatePullRequest(coords, number, inputs.title, inputs.body);
               r.result == Some(Updated(number))
               && r.trace == [SearchOpenPullRequests(coords, branch)]
                             + (if inputs.updatePullRequestTitleAndBody != "false" then [update] else [])
               && (r.failed <==> inputs.updatePullRequestTitleAndBody != "false" && update in w.failing)
  {
    CreateAndDecorateOutcome(inputs, branch, coords, w);
  }

  /** The create path: preceded by the search only when the remote branch
      existed and the search found nothing. */
  lemma PublishCreates(inputs: ActionInputs, branch: string, coords: Coordinates, w: World, remoteBranchExists: bool)
    requires Publish(inputs, branch, coords, w, remoteBranchExists).result.Some?
    requires Publish(inputs, branch, coords, w, remoteBranchExists).result.value.Created?
    ensures var r := Publish(inputs, branch, coords, w, remoteBranchExists);
            var created := CreateAndDecorate(inputs, branch, coords, w);
            var search := SearchOpenPullRequests(coords, branch);
            r.result == created.result && r.failed == created.failed
            && (!remoteBranchExists ==> r.trace == created.trace)
            && (remoteBranchExists ==> r.trace == [search] + created.trace && w.searchTotalCount <= 0)
  {
    CreateAndDecorateOutcome(inputs, branch, coords, w);
  }

  /** Every reviewers request of `trace` is `expected`, and there is at
      most one. */
  predicate ReviewersRequestsAre(trace: seq<Action>, expected: Action)
  {
    (forall i :: 0 <= i < |trace| && trace[i].RequestReviewers? ==> trace[i] == expected)
    && (forall i, j :: 0 <= i < |trace| && 0 <= j < |trace| && trace[i].RequestReviewers? && trace[j].RequestReviewers? ==> i == j)
  }

  lemma ReviewersRequestsAround(before: seq<Action>, trace: seq<Action>, after: seq<Action>, expected: Action)
    requires forall i :: 0 <= i < |before| ==> !before[i].RequestReviewers?
    requires forall i :: 0 <= i < |after| ==> !after[i].RequestReviewers?
    requires ReviewersRequestsAre(trace, expected)
    ensures ReviewersRequestsAre(before + trace + after, expected)
  {
    var t := before + trace + after;
    forall i, j | 0 <= i < |t| && 0 <= j < |t| && t[i].RequestReviewers? && t[j].RequestReviewers?
      ensures i == j
    {
      assert |before| <= i < |before| + |trace| && t[i] == trace[i - |before|];
      assert |before| <= j < |before| + |trace| && t[j] == trace[j - |before|];
    }
  }

  /** Every auto-merge mutation of `trace` is `expected`, and there is
      none unless `allowed`. */
  predicate AutoMergeRequestsAre(trace: seq<Action>, expected: Action, allowed: bool)
  {
    forall i :: 0 <= i < |trace| && trace[i].EnableAutoMerge? ==> allowed && trace[i] == expected
  }

  lemma AutoMergeRequestsAround(before: seq<Action>, trace: seq<Action>, after: seq<Action>, expected: Action, allowed: bool)
    requires forall i :: 0 <= i < |before| ==> !before[i].EnableAutoMerge?
    requires AutoMergeRequestsAre(trace, expected, allowed)
    requires AutoMergeRequestsAre(after, expected, allowed)
    ensures AutoMergeRequestsAre(before + trace + after, expected, allowed)
  {
    var t := before + trace + after;
    forall i | 0 <= i < |t| && t[i].EnableAutoMerge?
      ensures allowed && t[i] == expected
    {
      if i >= |before| + |trace| {
        assert t[i] == after[i - |before| - |trace|];
      } else {
        assert |before| <= i && t[i] == trace[i - |before|];
      }
    }
  }

  /** The reviewers request a run may make, for the pull request it
      created. */
  function ExpectedReviewers(inputs: ActionInputs, coords: Coordinates, w: World): Action
  {
    RequestReviewers(coords, w.createdNumber, OptionalList(inputs.reviewers), OptionalList(inputs.teamReviewers))
  }

  /** The auto-merge mutation a run may send, for the pull request it
      created. */
  function ExpectedAutoMerge(inputs: ActionInputs, w: World): Action
  {
    EnableAutoMerge(w.createdNodeId, MergeMethodArgument(inputs.autoMerge), inputs.title)
  }

  /** The metadata requests that were made: one reviewers request at
      most, and no auto-merge mutation. */
  lemma MetadataMadeRequests(inputs: ActionInputs, coords: Coordinates, w: World)
    ensures var extras := RunCommands(w, MetadataRequests(inputs, coords, w.createdNumber));
            ReviewersRequestsAre(extras.trace, ExpectedReviewers(inputs, coords, w))
            && forall i :: 0 <= i < |extras.trace| ==> !extras.trace[i].EnableAutoMerge?
  {
    var metadata := MetadataRequests(inputs, coords, w.createdNumber);
    var extras := RunCommands(w, metadata);
    MetadataRequestsAreDecorations(inputs, coords, w.createdNumber);
    SingleReviewersRequest(inputs, coords, w.createdNumber);
    RequestsOfPrefix(metadata, |extras.trace|, ExpectedReviewers(inputs, coords, w));
  }

  lemma RequestsOfPrefix(t: seq<Action>, k: nat, expected: Action)
    requires k <= |t|
    requires ReviewersRequestsAre(t, expected)
    requires forall i :: 0 <= i < |t| ==> !t[i].EnableAutoMerge?
    ensures ReviewersRequestsAre(t[..k], expected)
    ensures forall i :: 0 <= i < k ==> !t[..k][i].EnableAutoMerge?
  {
  }

  /** The trace of a creation: the request, the metadata requests made,
      and, when they all succeed, the auto-merge mutation and the stash
      pop. */
  lemma CreateAndDecorateShape(inputs: ActionInputs, branch: string, coords: Coordinates, w: World)
    ensures var create := CreatePullRequest(coords, inputs.title, inputs.body, branch, w.defaultBranch);
            var extras := RunCommands(w, MetadataRequests(inputs, coords, w.createdNumber));
            CreateAndDecorate(inputs, branch, coords, w).trace
            == if create in w.failing then [create]
               else [create] + extras.trace + (if extras.ok then AutoMergeRequest(inputs, w) + [StashPop] else [])
  {
    var create := CreatePullRequest(coords, inputs.title, inputs.body, branch, w.defaultBranch);
    var extras := RunCommands(w, MetadataRequests(inputs, coords, w.createdNumber));
    if create !in w.failing {
      if extras.ok {
        assert [create] + extras.trace + AutoMergeRequest(inputs, w) + [StashPop]
            == [create] + extras.trace + (AutoMergeRequest(inputs, w) + [StashPop]);
      } else {
        assert [create] + extras.trace + [] == [create] + extras.trace;
      }
    }
  }

  /** What follows the metadata requests of a creation: the auto-merge
      mutation when its input is set, then the stash pop. */
  lemma CreationTailRequests(inputs: ActionInputs, w: World, ok: bool)
    ensures var tail := if ok then AutoMergeRequest(inputs, w) + [StashPop] else [];
            (forall i :: 0 <= i < |tail| ==> !tail[i].RequestReviewers?)
            && AutoMergeRequestsAre(tail, ExpectedAutoMerge(inputs, w), inputs.autoMerge != "")
  {
  }

  /** The requests of a trace made of a creation, requests that follow
      both rules, and a tail that sends no reviewers request. */
  lemma CreationRequestsCombine(t: seq<Action>, create: Action, extras: seq<Action>, tail: seq<Action>,
                                reviewers: Action, autoMerge: Action, allowed: bool)
    requires t == [create] + extras + tail && create.CreatePullRequest?
    requires ReviewersRequestsAre(extras, reviewers) && forall i :: 0 <= i < |extras| ==> !extras[i].EnableAutoMerge?
    requires (forall i :: 0 <= i < |tail| ==> !tail[i].RequestReviewers?) && AutoMergeRequestsAre(tail, autoMerge, allowed)
    ensures ReviewersRequestsAre(t, reviewers) && AutoMergeRequestsAre(t, autoMerge, allowed)
  {
    ReviewersRequestsAround([create], extras, tail, reviewers);
    AutoMergeRequestsAround([create], extras, tail, autoMerge, allowed);
  }

  /** The decorations of a created pull request: one reviewers request at
      most, and the auto-merge mutation only when its input is set. */
  lemma CreateAndDecorateRequests(inputs: ActionInputs, branch: string, coords: Coordinates, w: World)
    ensures var c := CreateAndDecorate(inputs, branch, coords, w);
            ReviewersRequestsAre(c.trace, ExpectedReviewers(inputs, coords, w))
            && AutoMergeRequestsAre(c.trace, ExpectedAutoMerge(inputs, w), inputs.autoMerge != "")
  {
    var create := CreatePullRequest(coords, inputs.title, inputs.body, branch, w.defaultBranch);
    CreateAndDecorateShape(inputs, branch, coords, w);
    if create !in w.failing {
      var extras := RunCommands(w, MetadataRequests(inputs, coords, w.createdNumber));
      MetadataMadeRequests(inputs, coords, w);
      CreationTailRequests(inputs, w, extras.ok);
      CreationRequestsCombine(CreateAndDecorate(inputs, branch, coords, w).trace, create, extras.trace,
                              if extras.ok then AutoMergeRequest(inputs, w) + [StashPop] else [],
                              ExpectedReviewers(inputs, coords, w), ExpectedAutoMerge(inputs, w), inputs.autoMerge != "");
    }
  }

  /** Within a creation, decorations follow the creation request and
      the result is "created". */
  lemma CreateAndDecorateDecorationsFollow(inputs: ActionInputs, branch: string, coords: Coordinates, w: World)
    ensures var c := CreateAndDecorate(inputs, branch, coords, w);
            0 < |c.trace| && c.trace[0] == CreatePullRequest(coords, inputs.title, inputs.body, branch, w.defaultBranch)
            && forall i :: 0 <= i < |c.trace| && IsDecoration(c.trace[i])
                 ==> 0 < i && c.result == Some(Created(w.createdNumber))
  {
    CreateAndDecorateOutcome(inputs, branch, coords, w);
  }

  /** The shape of a publication: the creation, possibly after the
      search, or the search and the update alone. */
  lemma PublishShape(inputs: ActionInputs, branch: string, coords: Coordinates, w: World, remoteBranchExists: bool)
    ensures var p := Publish(inputs, branch, coords, w, remoteBranchExists);
            var c := CreateAndDecorate(inputs, branch, coords, w);
            var search := SearchOpenPullRequests(coords, branch);
            (!remoteBranchExists ==> p == c)
            && (remoteBranchExists && search !in w.failing && w.searchTotalCount <= 0
                ==> p.trace == [search] + c.trace && p.result == c.result && p.failed == c.failed)
            && (remoteBranchExists && (search in w.failing || w.searchTotalCount > 0)
                ==> p.result != Some(Created(w.createdNumber))
                    && forall i :: 0 <= i < |p.trace| ==> p.trace[i].SearchOpenPullRequests? || p.trace[i].UpdatePullRequest?)
  {
  }

  /** Decorations come only after the pull request was created, and then
      the result is "created". */
  lemma PublishDecorationsFollowCreation(inputs: ActionInputs, branch: string, coords: Coordinates, w: World, remoteBranchExists: bool)
    ensures var p := Publish(inputs, branch, coords, w, remoteBranchExists);
            var create := CreatePullRequest(coords, inputs.title, inputs.body, branch, w.defaultBranch);
            forall i :: 0 <= i < |p.trace| && IsDecoration(p.trace[i])
              ==> p.result == Some(Created(w.createdNumber))
                  && exists j :: 0 <= j < i && p.trace[j] == create
  {
    var c := CreateAndDecorate(inputs, branch, coords, w);
    var create := CreatePullRequest(coords, inputs.title, inputs.body, branch, w.defaultBranch);
    var search := SearchOpenPullRequests(coords, branch);
    PublishShape(inputs, branch, coords, w, remoteBranchExists);
    CreateAndDecorateDecorationsFollow(inputs, branch, coords, w);
    assert forall i :: 0 <= i < |c.trace| && IsDecoration(c.trace[i]) ==> exists j :: 0 <= j < i && c.trace[j] == create by {
      forall i | 0 <= i < |c.trace| && IsDecoration(c.trace[i])
        ensures exists j :: 0 <= j < i && c.trace[j] == create
      {
        assert c.trace[0] == create;
      }
    }
    if remoteBranchExists && search !in w.failing && w.searchTotalCount <= 0 {
      DecorationsAfterPrefix([search], c.trace, create);
    }
  }

  /** Publishing makes at most one reviewers request and sends the
      auto-merge mutation only as `ExpectedAutoMerge`. */
  lemma PublishRequests(inputs: ActionInputs, branch: string, coords: Coordinates, w: World, remoteBranchExists: bool)
    ensures var p := Publish(inputs, branch, coords, w, remoteBranchExists);
            ReviewersRequestsAre(p.trace, ExpectedReviewers(inputs, coords, w))
            && AutoMergeRequestsAre(p.trace, ExpectedAutoMerge(inputs, w), inputs.autoMerge != "")
  {
    var c := CreateAndDecorate(inputs, branch, coords, w);
    var search := SearchOpenPullRequests(coords, branch);
    PublishShape(inputs, branch, coords, w, remoteBranchExists);
    CreateAndDecorateRequests(inputs, branch, coords, w);
    if remoteBranchExists && search !in w.failing && w.searchTotalCount <= 0 {
      ReviewersRequestsAround([search], c.trace, [], ExpectedReviewers(inputs, coords, w));
      AutoMergeRequestsAround([search], c.trace, [], ExpectedAutoMerge(inputs, w), inputs.autoMerge != "");
      assert [search] + c.trace + [] == [search] + c.trace;
    }
  }

  // ---------------------------------------------------------------------
  // Whole runs
  // ---------------------------------------------------------------------

  /** The run gets past the local stages: the environment and the
      `auto-merge` input are accepted, the repository is read, changes
      are found, committed and rebased. */
  predicate ReachesDelivery(inputs: ActionInputs, env: Env, w: World)
  {
    HasEnvironment(env) && IsValidAutoMerge(inputs.autoMerge)
    && Prepare(inputs, Coords(env, inputs), w).ok && HasChanges(GetLocalChanges(w.statusOutput))
    && Then(CommitChanges(inputs, w), RebaseOnDefault(Coords(env, inputs), w)).ok
  }

  /** The commands of the local stages of a run. */
  function LocalTrace(inputs: ActionInputs, env: Env, w: World): seq<Action>
  {
    if !HasEnvironment(env) || !IsValidAutoMerge(inputs.autoMerge) then []
    else
      var prepare := Prepare(inputs, Coords(env, inputs), w);
      if !prepare.ok || !HasChanges(GetLocalChanges(w.statusOutput)) then prepare.trace
      else prepare.trace + Then(CommitChanges(inputs, w), RebaseOnDefault(Coords(env, inputs), w)).trace
  }

  /** What the local stages may issue. */
  function LocalActions(inputs: ActionInputs, env: Env, w: World): set<Action>
  {
    PrepareActions(inputs, Coords(env, inputs)) + CommitActions(inputs, w) + RebaseActions(Coords(env, inputs), w)
  }

  lemma LocalTraceSteps(inputs: ActionInputs, env: Env, w: World)
    ensures Within(LocalTrace(inputs, env, w), LocalActions(inputs, env, w))
  {
    var coords := Coords(env, inputs);
    PrepareSteps(inputs, coords, w);
    CommitChangesSteps(inputs, w);
    RebaseOnDefaultSteps(coords, w);
  }

  lemma PrepareActionsStayLocal(inputs: ActionInputs, coords: Coordinates)
    ensures forall a :: a in PrepareActions(inputs, coords) ==> !IsPublishing(a) && !a.ForcePush? && !IsMutation(a)
  {
  }

  /** The commit stage writes git settings only from the author input,
      and adds and commits only once the identity is settled. */
  lemma IdentitySettingsAreSettings(author: string, w: World)
    ensures forall a :: a in IdentitySettings(author, w) ==> a.SetGlobalConfig?
  {
  }

  lemma CommitActionsStayLocal(inputs: ActionInputs, w: World)
    ensures forall a :: a in CommitActions(inputs, w)
              ==> !IsPublishing(a) && !a.ForcePush? && !a.RebaseTheirs? && !a.Fetch?
                  && (a.SetGlobalConfig? ==> a in IdentitySettings(inputs.author, w))
                  && (a.Commit? ==> ConfigureIdentity(inputs.author, w).ok)
  {
    IdentitySettingsAreSettings(inputs.author, w);
  }

  /** The rebase stage fetches and rebases onto the default branch, and
      only when the current branch is another one. */
  lemma RebaseActionsStayLocal(coords: Coordinates, w: World)
    ensures forall a :: a in RebaseActions(coords, w)
              ==> !IsPublishing(a) && !a.ForcePush? && !a.SetGlobalConfig? && !a.Commit?
                  && (a.RebaseTheirs? ==> a == RebaseTheirs(w.defaultBranch) && w.head != w.defaultBranch)
                  && (a.Fetch? ==> a == Fetch(coords, w.defaultBranch) && w.head != w.defaultBranch)
  {
  }

  /** None of the local commands is a push or a publishing request. */
  lemma LocalActionsStayLocal(inputs: ActionInputs, env: Env, w: World)
    ensures forall a :: a in LocalActions(inputs, env, w) ==> !IsPublishing(a) && !a.ForcePush?
  {
    PrepareActionsStayLocal(inputs, Coords(env, inputs));
    CommitActionsStayLocal(inputs, w);
    RebaseActionsStayLocal(Coords(env, inputs), w);
  }

  /** `checkOutRemoteBranch` neither configures, commits, rebases, pushes
      nor publishes. */
  lemma RemoteActionsStayLocal(branch: string, visible: Option<Coordinates>, w: World)
    ensures forall a :: a in RemoteActions(branch, visible, w)
              ==> !IsPublishing(a) && !a.ForcePush? && !a.SetGlobalConfig? && !a.Commit? && !a.RebaseTheirs?
                  && (a.Fetch? ==> visible.Some? && a == Fetch(visible.value, branch) && w.head != branch)
  {
  }

  function Visible(env: Env, inputs: ActionInputs, scope: Scope): Option<Coordinates>
  {
    if scope == OwnerInScope then Some(Coords(env, inputs)) else None
  }

  function RemoteCheck(inputs: ActionInputs, env: Env, w: World, scope: Scope): RemoteCheckout
  {
    CheckOutRemoteBranch(NormalizeBranch(inputs.branch), Visible(env, inputs, scope), w)
  }

  /** The run gets as far as a successful push. */
  predicate Pushed(inputs: ActionInputs, env: Env, w: World, scope: Scope)
  {
    ReachesDelivery(inputs, env, w) && RemoteCheck(inputs, env, w, scope).remoteBranchExists.Some?
    && ForcePush(Coords(env, inputs), NormalizeBranch(inputs.branch)) !in w.failing
  }

  function Published(inputs: ActionInputs, env: Env, w: World, scope: Scope): Execution
  {
    Publish(inputs, NormalizeBranch(inputs.branch), Coords(env, inputs), w,
            RemoteCheck(inputs, env, w, scope).remoteBranchExists == Some(true))
  }

  /** Everything before the push is local. */
  lemma NothingPublishedBeforePush(inputs: ActionInputs, env: Env, w: World, scope: Scope)
    ensures NoPublishing(LocalTrace(inputs, env, w) + RemoteCheck(inputs, env, w, scope).trace)
  {
    var branch := NormalizeBranch(inputs.branch);
    var visible := Visible(env, inputs, scope);
    LocalTraceSteps(inputs, env, w);
    LocalActionsStayLocal(inputs, env, w);
    CheckOutRemoteBranchOutcome(branch, visible, w);
    RemoteActionsStayLocal(branch, visible, w);
  }

  /** A run is its local stages, followed by `Deliver` exactly when they
      all complete. */
  lemma RunStages(inputs: ActionInputs, env: Env, w: World, scope: Scope)
    ensures var r := Run(inputs, env, w, scope);
            var d := Deliver(inputs, NormalizeBranch(inputs.branch), Coords(env, inputs), w, scope);
            (ReachesDelivery(inputs, env, w) ==> r == d.(trace := LocalTrace(inputs, env, w) + d.trace))
            && (!ReachesDelivery(inputs, env, w)
                ==> r.trace == LocalTrace(inputs, env, w)
                    && (r.result.None? || r.result == Some(Unchanged)) && (r.result.None? <==> r.failed))
  {
  }

  /** Delivery is `checkOutRemoteBranch`, then the push, then publishing;
      nothing is published unless the push succeeds. */
  lemma DeliverPhases(inputs: ActionInputs, env: Env, w: World, scope: Scope)
    ensures var d := Deliver(inputs, NormalizeBranch(inputs.branch), Coords(env, inputs), w, scope);
            var remote := RemoteCheck(inputs, env, w, scope);
            var push := ForcePush(Coords(env, inputs), NormalizeBranch(inputs.branch));
            var p := Published(inputs, env, w, scope);
            (remote.remoteBranchExists.Some? && push !in w.failing ==> d == p.(trace := remote.trace + [push] + p.trace))
            && (remote.remoteBranchExists.None? || push in w.failing
                ==> d.result.None? && d.failed && (d.trace == remote.trace || d.trace == remote.trace + [push]))
  {
  }

  /** A run that pushes: its local stages, `checkOutRemoteBranch`, the
      push, then publishing, whose result it reports. */
  lemma RunPushes(inputs: ActionInputs, env: Env, w: World, scope: Scope)
    requires Pushed(inputs, env, w, scope)
    ensures var r := Run(inputs, env, w, scope);
            var p := Published(inputs, env, w, scope);
            r == p.(trace := PushedPrefix(inputs, env, w, scope) + p.trace)
  {
    var local := LocalTrace(inputs, env, w);
    var remote := RemoteCheck(inputs, env, w, scope);
    var push := ForcePush(Coords(env, inputs), NormalizeBranch(inputs.branch));
    var p := Published(inputs, env, w, scope);
    RunStages(inputs, env, w, scope);
    DeliverPhases(inputs, env, w, scope);
    Regroup(local, remote.trace, [push], p.trace);
  }

  lemma Regroup(a: seq<Action>, b: seq<Action>, c: seq<Action>, d: seq<Action>)
    ensures a + (b + c + d) == a + b + c + d
  {
  }

  /** The commands of a pushing run up to and including the push. */
  function PushedPrefix(inputs: ActionInputs, env: Env, w: World, scope: Scope): seq<Action>
  {
    LocalTrace(inputs, env, w) + RemoteCheck(inputs, env, w, scope).trace
    + [ForcePush(Coords(env, inputs), NormalizeBranch(inputs.branch))]
  }

  lemma PushedPrefixQuiet(inputs: ActionInputs, env: Env, w: World, scope: Scope)
    ensures NoPublishing(PushedPrefix(inputs, env, w, scope))
  {
    var before := LocalTrace(inputs, env, w) + RemoteCheck(inputs, env, w, scope).trace;
    var prefix := PushedPrefix(inputs, env, w, scope);
    NothingPublishedBeforePush(inputs, env, w, scope);
    forall i | 0 <= i < |prefix|
      ensures !IsPublishing(prefix[i])
    {
      if i < |before| {
        assert prefix[i] == before[i];
      }
    }
  }

  /** A run that does not push publishes nothing and reports at most
      "unchanged". */
  lemma RunWithoutPush(inputs: ActionInputs, env: Env, w: World, scope: Scope)
    requires !Pushed(inputs, env, w, scope)
    ensures var r := Run(inputs, env, w, scope);
            NoPublishing(r.trace) && (r.result.None? || r.result == Some(Unchanged))
  {
    var local := LocalTrace(inputs, env, w);
    var remote := RemoteCheck(inputs, env, w, scope);
    RunStages(inputs, env, w, scope);
    if ReachesDelivery(inputs, env, w) {
      DeliverPhases(inputs, env, w, scope);
      PushedPrefixQuiet(inputs, env, w, scope);
      NothingPublishedBeforePush(inputs, env, w, scope);
      assert local + (remote.trace + [ForcePush(Coords(env, inputs), NormalizeBranch(inputs.branch))])
          == PushedPrefix(inputs, env, w, scope);
      assert local + remote.trace == LocalTrace(inputs, env, w) + RemoteCheck(inputs, env, w, scope).trace;
    } else {
      LocalTraceQuiet(inputs, env, w);
    }
  }

  lemma LocalTraceQuiet(inputs: ActionInputs, env: Env, w: World)
    ensures NoPublishing(LocalTrace(inputs, env, w))
  {
    LocalTraceSteps(inputs, env, w);
    LocalActionsStayLocal(inputs, env, w);
  }

  /** What `Deliver` issues: `checkOutRemoteBranch`'s commands, the push,
      and publishing requests. */
  lemma DeliveryActions(inputs: ActionInputs, env: Env, w: World, scope: Scope)
    ensures var d := Deliver(inputs, NormalizeBranch(inputs.branch), Coords(env, inputs), w, scope);
            forall i :: 0 <= i < |d.trace|
              ==> d.trace[i] in RemoteActions(NormalizeBranch(inputs.branch), Visible(env, inputs, scope), w)
                  || d.trace[i] == ForcePush(Coords(env, inputs), NormalizeBranch(inputs.branch))
                  || IsPublishing(d.trace[i])
  {
    var branch := NormalizeBranch(inputs.branch);
    DeliverPhases(inputs, env, w, scope);
    CheckOutRemoteBranchOutcome(branch, Visible(env, inputs, scope), w);
    var remote := RemoteCheck(inputs, env, w, scope);
    if remote.remoteBranchExists.Some? {
      PublishOutcome(inputs, branch, Coords(env, inputs), w, remote.remoteBranchExists == Some(true));
    }
  }

  /** Nothing is run at all iff an environment variable is missing or the
      `auto-merge` input is not one of the three merge methods; such a
      run fails. */
  lemma RunStopsAtOnceIff(inputs: ActionInputs, env: Env, w: World, scope: Scope)
    ensures var r := Run(inputs, env, w, scope);
            (r.trace == [] <==> !HasEnvironment(env) || !IsValidAutoMerge(inputs.autoMerge))
            && (r.trace == [] ==> r.failed && r.result.None?)
  {
    if HasEnvironment(env) && IsValidAutoMerge(inputs.autoMerge) {
      var prepare := Prepare(inputs, Coords(env, inputs), w);
      assert 0 < |prepare.trace|;
    }
  }

  /** The result is "unchanged" iff the repository could be read and
      `git status` reports nothing to commit; such a run succeeds and
      changes nothing. */
  lemma UnchangedIffNothingToCommit(inputs: ActionInputs, env: Env, w: World, scope: Scope)
    ensures var r := Run(inputs, env, w, scope);
            (r.result == Some(Unchanged)
             <==> HasEnvironment(env) && IsValidAutoMerge(inputs.autoMerge)
                  && Prepare(inputs, Coords(env, inputs), w).ok && !HasChanges(GetLocalChanges(w.statusOutput)))
            && (r.result == Some(Unchanged) ==> !r.failed && forall i :: 0 <= i < |r.trace| ==> !IsMutation(r.trace[i]))
  {
    var coords := Coords(env, inputs);
    PrepareSteps(inputs, coords, w);
    PrepareActionsStayLocal(inputs, coords);
    if Pushed(inputs, env, w, scope) {
      RunPushes(inputs, env, w, scope);
      var remote := RemoteCheck(inputs, env, w, scope);
      PublishOutcome(inputs, NormalizeBranch(inputs.branch), coords, w, remote.remoteBranchExists == Some(true));
    } else {
      RunStages(inputs, env, w, scope);
      DeliverPhases(inputs, env, w, scope);
    }
  }

  /** With no configured git user and an author input that does not
      parse, the run stops before configuring, committing, pushing or
      touching a pull request. */
  lemma MalformedAuthorStopsBeforeCommit(inputs: ActionInputs, env: Env, w: World, scope: Scope)
    requires !UserConfigured(w) && ParseAuthor(inputs.author).None?
    ensures var r := Run(inputs, env, w, scope);
            ((r.result.None? && r.failed) || r.result == Some(Unchanged))
            && forall i :: 0 <= i < |r.trace|
                 ==> !r.trace[i].SetGlobalConfig? && !r.trace[i].Commit? && !r.trace[i].ForcePush?
                     && !IsPullRequestRequest(r.trace[i])
  {
    ConfigureIdentitySteps(inputs.author, w);
    CommitChangesSteps(inputs, w);
    assert !ReachesDelivery(inputs, env, w);
    RunStages(inputs, env, w, scope);
    LocalTraceKinds(inputs, env, w);
    LocalCommitsNeedIdentity(inputs, env, w);
  }

  /** The local stages commit only once the identity is configured. */
  lemma LocalCommitsNeedIdentity(inputs: ActionInputs, env: Env, w: World)
    ensures var t := LocalTrace(inputs, env, w);
            forall i :: 0 <= i < |t| && t[i].Commit? ==> ConfigureIdentity(inputs.author, w).ok
  {
    LocalTraceSteps(inputs, env, w);
    PrepareActionsStayLocal(inputs, Coords(env, inputs));
    CommitActionsStayLocal(inputs, w);
    RebaseActionsStayLocal(Coords(env, inputs), w);
  }

  /** The local stages: settings come from the author input, rebases
      target the default branch from another branch, and every fetch is
      of the default branch. */
  lemma LocalTraceKinds(inputs: ActionInputs, env: Env, w: World)
    ensures var t := LocalTrace(inputs, env, w);
            forall i :: 0 <= i < |t|
              ==> !IsPublishing(t[i]) && !t[i].ForcePush?
                  && (t[i].SetGlobalConfig? ==> t[i] in IdentitySettings(inputs.author, w))
                  && (t[i].RebaseTheirs? ==> t[i] == RebaseTheirs(w.defaultBranch) && w.head != w.defaultBranch)
                  && (t[i].Fetch? ==> t[i] == Fetch(Coords(env, inputs), w.defaultBranch))
  {
    LocalTraceSteps(inputs, env, w);
    PrepareActionsStayLocal(inputs, Coords(env, inputs));
    CommitActionsStayLocal(inputs, w);
    RebaseActionsStayLocal(Coords(env, inputs), w);
  }

  /** After the local stages nothing configures, commits or rebases, and
      the only fetch is of the target branch. */
  lemma DeliveryKinds(inputs: ActionInputs, env: Env, w: World, scope: Scope)
    ensures var d := Deliver(inputs, NormalizeBranch(inputs.branch), Coords(env, inputs), w, scope);
            forall i :: 0 <= i < |d.trace|
              ==> !d.trace[i].SetGlobalConfig? && !d.trace[i].Commit? && !d.trace[i].RebaseTheirs?
                  && (d.trace[i].Fetch? ==> Visible(env, inputs, scope).Some? && w.head != NormalizeBranch(inputs.branch)
                                            && d.trace[i] == Fetch(Visible(env, inputs, scope).value, NormalizeBranch(inputs.branch)))
  {
    var d := Deliver(inputs, NormalizeBranch(inputs.branch), Coords(env, inputs), w, scope);
    DeliveryActions(inputs, env, w, scope);
    forall i | 0 <= i < |d.trace|
      ensures !d.trace[i].SetGlobalConfig? && !d.trace[i].Commit? && !d.trace[i].RebaseTheirs?
      ensures d.trace[i].Fetch? ==> Visible(env, inputs, scope).Some? && w.head != NormalizeBranch(inputs.branch)
                                    && d.trace[i] == Fetch(Visible(env, inputs, scope).value, NormalizeBranch(inputs.branch))
    {
      DeliveryActionKind(inputs, env, w, scope, d.trace[i]);
    }
  }

  // DeliveryKinds for one delivered action, the step its proof is made of.
  lemma DeliveryActionKind(inputs: ActionInputs, env: Env, w: World, scope: Scope, a: Action)
    requires a in RemoteActions(NormalizeBranch(inputs.branch), Visible(env, inputs, scope), w)
             || a == ForcePush(Coords(env, inputs), NormalizeBranch(inputs.branch)) || IsPublishing(a)
    ensures !a.SetGlobalConfig? && !a.Commit? && !a.RebaseTheirs?
    ensures a.Fetch? ==> Visible(env, inputs, scope).Some? && w.head != NormalizeBranch(inputs.branch)
                         && a == Fetch(Visible(env, inputs, scope).value, NormalizeBranch(inputs.branch))
  {
    RemoteActionsStayLocal(NormalizeBranch(inputs.branch), Visible(env, inputs, scope), w);
  }

  /** `git config --global` is only ever given the name and e-mail parsed
      from the author input, and only when no user is configured. */
  lemma IdentityComesFromAuthor(inputs: ActionInputs, env: Env, w: World, scope: Scope)
    ensures var r := Run(inputs, env, w, scope);
            forall i :: 0 <= i < |r.trace| && r.trace[i].SetGlobalConfig?
              ==> r.trace[i] in IdentitySettings(inputs.author, w)
  {
    var r := Run(inputs, env, w, scope);
    var local := LocalTrace(inputs, env, w);
    var d := Deliver(inputs, NormalizeBranch(inputs.branch), Coords(env, inputs), w, scope);
    RunStages(inputs, env, w, scope);
    LocalTraceKinds(inputs, env, w);
    DeliveryKinds(inputs, env, w, scope);
  }

  /** Every rebase is onto the default branch from another branch, and a
      run that pushes from another branch has rebased onto it. */
  lemma RebaseOnlyOffDefaultBranch(inputs: ActionInputs, env: Env, w: World, scope: Scope)
    ensures var r := Run(inputs, env, w, scope);
            (forall i :: 0 <= i < |r.trace| && r.trace[i].RebaseTheirs?
               ==> r.trace[i] == RebaseTheirs(w.defaultBranch) && w.head != w.defaultBranch)
            && (Pushed(inputs, env, w, scope)
                ==> (RebaseTheirs(w.defaultBranch) in r.trace <==> w.head != w.defaultBranch))
  {
    var r := Run(inputs, env, w, scope);
    var local := LocalTrace(inputs, env, w);
    var d := Deliver(inputs, NormalizeBranch(inputs.branch), Coords(env, inputs), w, scope);
    RunStages(inputs, env, w, scope);
    LocalTraceKinds(inputs, env, w);
    DeliveryKinds(inputs, env, w, scope);
    if Pushed(inputs, env, w, scope) && w.head != w.defaultBranch {
      var coords := Coords(env, inputs);
      var prepare := Prepare(inputs, coords, w);
      var commit := CommitChanges(inputs, w);
      var rebase := RebaseOnDefault(coords, w);
      RebaseOnDefaultSteps(coords, w);
      assert local == prepare.trace + commit.trace + rebase.trace;
      assert RebaseTheirs(w.defaultBranch) in local;
    }
  }

  /** Every pull request request, and the final stash pop, comes after
      the push. */
  lemma PushPrecedesPublishing(inputs: ActionInputs, env: Env, w: World, scope: Scope)
    ensures var r := Run(inputs, env, w, scope);
            var push := ForcePush(Coords(env, inputs), NormalizeBranch(inputs.branch));
            forall i :: 0 <= i < |r.trace| && IsPublishing(r.trace[i]) ==> exists j :: 0 <= j < i && r.trace[j] == push
  {
    if Pushed(inputs, env, w, scope) {
      RunPushes(inputs, env, w, scope);
      PushedPrefixQuiet(inputs, env, w, scope);
      PublishingAfterQuietPrefix(PushedPrefix(inputs, env, w, scope), Published(inputs, env, w, scope).trace,
                                 ForcePush(Coords(env, inputs), NormalizeBranch(inputs.branch)));
    } else {
      RunWithoutPush(inputs, env, w, scope);
    }
  }

  /** Publishing requests after a prefix that ends with `last` and
      publishes nothing come after `last`. */
  lemma PublishingAfterQuietPrefix(prefix: seq<Action>, rest: seq<Action>, last: Action)
    requires NoPublishing(prefix) && 0 < |prefix| && prefix[|prefix| - 1] == last
    ensures var t := prefix + rest;
            forall i :: 0 <= i < |t| && IsPublishing(t[i]) ==> exists j :: 0 <= j < i && t[j] == last
  {
    var t := prefix + rest;
    forall i | 0 <= i < |t| && IsPublishing(t[i])
      ensures exists j :: 0 <= j < i && t[j] == last
    {
      assert t[|prefix| - 1] == last;
    }
  }

  /** Behind a prefix that publishes nothing, the publishing requests are
      exactly those of the rest. */
  lemma PublishingBehindQuietPrefix(prefix: seq<Action>, rest: seq<Action>)
    requires NoPublishing(prefix)
    ensures forall a :: IsPublishing(a) ==> (a in prefix + rest <==> a in rest)
  {
    forall a | IsPublishing(a)
      ensures a in prefix + rest <==> a in rest
    {
      assert a !in prefix;
    }
  }

  /** The result is "updated" iff the push succeeded, the target branch
      existed on the remote before, and the search found an open pull
      request. */
  lemma UpdatedIffOpenPullRequestFound(inputs: ActionInputs, env: Env, w: World, scope: Scope)
    ensures var r := Run(inputs, env, w, scope);
            var search := SearchOpenPullRequests(Coords(env, inputs), NormalizeBranch(inputs.branch));
            (r.result.Some? && r.result.value.Updated?)
            <==> Pushed(inputs, env, w, scope) && RemoteCheck(inputs, env, w, scope).remoteBranchExists == Some(true)
                 && search !in w.failing && w.searchTotalCount > 0 && |w.searchItemNumbers| > 0
  {
    if Pushed(inputs, env, w, scope) {
      RunPushes(inputs, env, w, scope);
      PublishOutcome(inputs, NormalizeBranch(inputs.branch), Coords(env, inputs), w,
                     RemoteCheck(inputs, env, w, scope).remoteBranchExists == Some(true));
    } else {
      RunWithoutPush(inputs, env, w, scope);
    }
  }

  /** The result is "created" iff the push succeeded, the branch was new
      on the remote or the search found nothing, and the creation
      succeeded. */
  lemma CreatedIffNoOpenPullRequest(inputs: ActionInputs, env: Env, w: World, scope: Scope)
    ensures var r := Run(inputs, env, w, scope);
            var coords := Coords(env, inputs);
            var branch := NormalizeBranch(inputs.branch);
            var search := SearchOpenPullRequests(coords, branch);
            (r.result.Some? && r.result.value.Created?)
            <==> Pushed(inputs, env, w, scope)
                 && (RemoteCheck(inputs, env, w, scope).remoteBranchExists == Some(false)
                     || (search !in w.failing && w.searchTotalCount <= 0))
                 && CreatePullRequest(coords, inputs.title, inputs.body, branch, w.defaultBranch) !in w.failing
  {
    if Pushed(inputs, env, w, scope) {
      RunPushes(inputs, env, w, scope);
      PublishOutcome(inputs, NormalizeBranch(inputs.branch), Coords(env, inputs), w,
                     RemoteCheck(inputs, env, w, scope).remoteBranchExists == Some(true));
    } else {
      RunWithoutPush(inputs, env, w, scope);
    }
  }

  /** An updated run reports the number of the first search hit, updates
      title and body unless told not to, fails only if that update fails,
      and neither creates nor decorates a pull request. */
  lemma UpdatedRun(inputs: ActionInputs, env: Env, w: World, scope: Scope)
    requires Run(inputs, env, w, scope).result.Some? && Run(inputs, env, w, scope).result.value.Updated?
    ensures var r := Run(inputs, env, w, scope);
            var coords := Coords(env, inputs);
            |w.searchItemNumbers| > 0
            && var update := UpdatePullRequest(coords, w.searchItemNumbers[0], inputs.title, inputs.body);
               r.result == Some(Updated(w.searchItemNumbers[0]))
               && SearchOpenPullRequests(coords, NormalizeBranch(inputs.branch)) in r.trace
               && (update in r.trace <==> inputs.updatePullRequestTitleAndBody != "false")
               && (r.failed <==> inputs.updatePullRequestTitleAndBody != "false" && update in w.failing)
               && forall i :: 0 <= i < |r.trace|
                    ==> !r.trace[i].CreatePullRequest? && !IsDecoration(r.trace[i]) && r.trace[i] != StashPop
  {
    UpdatedIffOpenPullRequestFound(inputs, env, w, scope);
    var prefix := PushedPrefix(inputs, env, w, scope);
    var p := Published(inputs, env, w, scope);
    RunPushes(inputs, env, w, scope);
    PushedPrefixQuiet(inputs, env, w, scope);
    PublishingBehindQuietPrefix(prefix, p.trace);
    PublishUpdates(inputs, NormalizeBranch(inputs.branch), Coords(env, inputs), w, true);
    UpdatesBehindQuietPrefix(prefix, p.trace);
  }

  /** Behind a prefix that publishes nothing, a rest made of searches
      and updates creates, decorates and pops nothing. */
  lemma UpdatesBehindQuietPrefix(prefix: seq<Action>, rest: seq<Action>)
    requires NoPublishing(prefix)
    requires forall i :: 0 <= i < |rest| ==> rest[i].SearchOpenPullRequests? || rest[i].UpdatePullRequest?
    ensures var t := prefix + rest;
            forall i :: 0 <= i < |t| ==> !t[i].CreatePullRequest? && !IsDecoration(t[i]) && t[i] != StashPop
  {
    var t := prefix + rest;
    forall i | 0 <= i < |t|
      ensures !t[i].CreatePullRequest? && !IsDecoration(t[i]) && t[i] != StashPop
    {
      if i < |prefix| {
        assert t[i] == prefix[i];
      } else {
        assert t[i] == rest[i - |prefix|];
      }
    }
  }

  /** After a push, the run reports what publishing reports, and its
      publishing requests are exactly those of publishing. */
  lemma PublishingAfterPush(inputs: ActionInputs, env: Env, w: World, scope: Scope)
    requires Pushed(inputs, env, w, scope)
    ensures var r := Run(inputs, env, w, scope);
            var p := Published(inputs, env, w, scope);
            r.result == p.result && r.failed == p.failed
            && (forall a :: IsPublishing(a) ==> (a in r.trace <==> a in p.trace))
            && (|p.trace| > 0 ==> r.trace[|r.trace| - 1] == p.trace[|p.trace| - 1])
  {
    RunPushes(inputs, env, w, scope);
    PushedPrefixQuiet(inputs, env, w, scope);
    PublishingBehindQuietPrefix(PushedPrefix(inputs, env, w, scope), Published(inputs, env, w, scope).trace);
  }

  lemma CreateAndDecorateTrace(inputs: ActionInputs, branch: string, coords: Coordinates, w: World)
    requires !CreateAndDecorate(inputs, branch, coords, w).failed
    ensures CreateAndDecorate(inputs, branch, coords, w).trace
            == [CreatePullRequest(coords, inputs.title, inputs.body, branch, w.defaultBranch)]
               + MetadataRequests(inputs, coords, w.createdNumber) + AutoMergeRequest(inputs, w) + [StashPop]
  {
    CreateAndDecorateOutcome(inputs, branch, coords, w);
  }

  /** The complete trace of a creation: labels and assignees are added,
      the reviewers request is made and the auto-merge mutation sent,
      each iff its input is set. */
  lemma DecoratedTracePresence(inputs: ActionInputs, coords: Coordinates, w: World, create: Action)
    requires create.CreatePullRequest?
    ensures var t := [create] + MetadataRequests(inputs, coords, w.createdNumber) + AutoMergeRequest(inputs, w) + [StashPop];
            (AddLabels(coords, w.createdNumber, SplitList(inputs.labels)) in t <==> inputs.labels != "")
            && (AddAssignees(coords, w.createdNumber, SplitList(inputs.assignees)) in t <==> inputs.assignees != "")
            && (ExpectedReviewers(inputs, coords, w) in t <==> inputs.reviewers != "" || inputs.teamReviewers != "")
            && (ExpectedAutoMerge(inputs, w) in t <==> inputs.autoMerge != "")
  {
    MetadataRequestsAreDecorations(inputs, coords, w.createdNumber);
    MetadataRequestsPresence(inputs, coords, w.createdNumber);
  }

  /** A creation that succeeds has added labels and assignees, made the
      reviewers request and sent the auto-merge mutation, each iff its
      input is set. */
  lemma CreateAndDecoratePresence(inputs: ActionInputs, branch: string, coords: Coordinates, w: World)
    requires !CreateAndDecorate(inputs, branch, coords, w).failed
    ensures var c := CreateAndDecorate(inputs, branch, coords, w);
            (AddLabels(coords, w.createdNumber, SplitList(inputs.labels)) in c.trace <==> inputs.labels != "")
            && (AddAssignees(coords, w.createdNumber, SplitList(inputs.assignees)) in c.trace <==> inputs.assignees != "")
            && (ExpectedReviewers(inputs, coords, w) in c.trace <==> inputs.reviewers != "" || inputs.teamReviewers != "")
            && (ExpectedAutoMerge(inputs, w) in c.trace <==> inputs.autoMerge != "")
  {
    CreateAndDecorateTrace(inputs, branch, coords, w);
    DecoratedTracePresence(inputs, coords, w, CreatePullRequest(coords, inputs.title, inputs.body, branch, w.defaultBranch));
  }

  /** Publishing that creates: the creation is issued, a search before it
      came back empty, and on success the stash pop comes last. */
  lemma PublishCreatedFacts(inputs: ActionInputs, branch: string, coords: Coordinates, w: World, remoteBranchExists: bool)
    requires Publish(inputs, branch, coords, w, remoteBranchExists).result.Some?
    requires Publish(inputs, branch, coords, w, remoteBranchExists).result.value.Created?
    ensures var p := Publish(inputs, branch, coords, w, remoteBranchExists);
            p.result == Some(Created(w.createdNumber))
            && CreatePullRequest(coords, inputs.title, inputs.body, branch, w.defaultBranch) in p.trace
            && (SearchOpenPullRequests(coords, branch) in p.trace ==> w.searchTotalCount <= 0)
  {
    var p := Publish(inputs, branch, coords, w, remoteBranchExists);
    var c := CreateAndDecorate(inputs, branch, coords, w);
    var search := SearchOpenPullRequests(coords, branch);
    var pre := if remoteBranchExists then [search] else [];
    PublishCreates(inputs, branch, coords, w, remoteBranchExists);
    CreateAndDecorateDecorationsFollow(inputs, branch, coords, w);
    assert p.trace == pre + c.trace;
    assert p.trace[|pre|] == c.trace[0];
    if !remoteBranchExists {
      CreationNeverSearches(inputs, branch, coords, w, search);
    }
  }

  /** Apart from the search, a created publication issues what the
      creation issues, and ends as it does. */
  lemma PublishCreatedTrace(inputs: ActionInputs, branch: string, coords: Coordinates, w: World, remoteBranchExists: bool)
    requires Publish(inputs, branch, coords, w, remoteBranchExists).result.Some?
    requires Publish(inputs, branch, coords, w, remoteBranchExists).result.value.Created?
    ensures var p := Publish(inputs, branch, coords, w, remoteBranchExists);
            var c := CreateAndDecorate(inputs, branch, coords, w);
            (!p.failed ==> p.trace[|p.trace| - 1] == StashPop)
            && (forall a :: a != SearchOpenPullRequests(coords, branch) ==> (a in p.trace <==> a in c.trace))
  {
    var p := Publish(inputs, branch, coords, w, remoteBranchExists);
    var c := CreateAndDecorate(inputs, branch, coords, w);
    var pre := if remoteBranchExists then [SearchOpenPullRequests(coords, branch)] else [];
    PublishCreates(inputs, branch, coords, w, remoteBranchExists);
    assert p.trace == pre + c.trace;
    if !p.failed {
      CreateAndDecorateTrace(inputs, branch, coords, w);
      assert p.trace[|p.trace| - 1] == c.trace[|c.trace| - 1];
    }
  }

  lemma CreationNeverSearches(inputs: ActionInputs, branch: string, coords: Coordinates, w: World, search: Action)
    requires search.SearchOpenPullRequests?
    ensures search !in CreateAndDecorate(inputs, branch, coords, w).trace
  {
    var create := CreatePullRequest(coords, inputs.title, inputs.body, branch, w.defaultBranch);
    if create !in w.failing {
      var metadata := MetadataRequests(inputs, coords, w.createdNumber);
      var extras := RunCommands(w, metadata);
      MetadataRequestsAreDecorations(inputs, coords, w.createdNumber);
      assert search !in metadata;
      assert search !in extras.trace by {
        assert extras.trace == metadata[..|extras.trace|];
      }
      assert search !in AutoMergeRequest(inputs, w);
    }
  }

  /** A created run reports GitHub's new number, has issued the creation,
      searched first only if the search came back empty, and, when it
      succeeds, ends with the stash pop. */
  lemma CreatedRun(inputs: ActionInputs, env: Env, w: World, scope: Scope)
    requires Run(inputs, env, w, scope).result.Some? && Run(inputs, env, w, scope).result.value.Created?
    ensures var r := Run(inputs, env, w, scope);
            var coords := Coords(env, inputs);
            var branch := NormalizeBranch(inputs.branch);
            r.result == Some(Created(w.createdNumber))
            && CreatePullRequest(coords, inputs.title, inputs.body, branch, w.defaultBranch) in r.trace
            && (SearchOpenPullRequests(coords, branch) in r.trace ==> w.searchTotalCount <= 0)
            && (!r.failed ==> r.trace[|r.trace| - 1] == StashPop)
  {
    var branch := NormalizeBranch(inputs.branch);
    var remoteBranchExists := RemoteCheck(inputs, env, w, scope).remoteBranchExists == Some(true);
    CreatedIffNoOpenPullRequest(inputs, env, w, scope);
    PublishingAfterPush(inputs, env, w, scope);
    PublishCreatedFacts(inputs, branch, Coords(env, inputs), w, remoteBranchExists);
    PublishCreatedTrace(inputs, branch, Coords(env, inputs), w, remoteBranchExists);
  }

  /** A created run that succeeds has added labels and assignees, made
      the reviewers request and sent the auto-merge mutation, each iff
      its input is set. */
  lemma CreatedRunDecorations(inputs: ActionInputs, env: Env, w: World, scope: Scope)
    requires Run(inputs, env, w, scope).result.Some? && Run(inputs, env, w, scope).result.value.Created?
    requires !Run(inputs, env, w, scope).failed
    ensures var r := Run(inputs, env, w, scope);
            var coords := Coords(env, inputs);
            (AddLabels(coords, w.createdNumber, SplitList(inputs.labels)) in r.trace <==> inputs.labels != "")
            && (AddAssignees(coords, w.createdNumber, SplitList(inputs.assignees)) in r.trace <==> inputs.assignees != "")
            && (ExpectedReviewers(inputs, coords, w) in r.trace <==> inputs.reviewers != "" || inputs.teamReviewers != "")
            && (ExpectedAutoMerge(inputs, w) in r.trace <==> inputs.autoMerge != "")
  {
    var branch := NormalizeBranch(inputs.branch);
    var remoteBranchExists := RemoteCheck(inputs, env, w, scope).remoteBranchExists == Some(true);
    CreatedIffNoOpenPullRequest(inputs, env, w, scope);
    PublishingAfterPush(inputs, env, w, scope);
    PublishCreatedTrace(inputs, branch, Coords(env, inputs), w, remoteBranchExists);
    CreateAndDecoratePresence(inputs, branch, Coords(env, inputs), w);
  }

  /** A decoration preceded by the creation request still is once
      commands without decorations are put in front. */
  lemma {:induction false} DecorationsAfterPrefix(prefix: seq<Action>, p: seq<Action>, create: Action)
    requires forall i :: 0 <= i < |prefix| ==> !IsDecoration(prefix[i])
    requires forall i :: 0 <= i < |p| && IsDecoration(p[i]) ==> exists j :: 0 <= j < i && p[j] == create
    ensures forall i :: 0 <= i < |prefix + p| && IsDecoration((prefix + p)[i])
              ==> exists j :: 0 <= j < i && (prefix + p)[j] == create
  {
    forall i | 0 <= i < |prefix + p| && IsDecoration((prefix + p)[i])
      ensures exists j :: 0 <= j < i && (prefix + p)[j] == create
    {
      assert |prefix| <= i && (prefix + p)[i] == p[i - |prefix|];
      var k :| 0 <= k < i - |prefix| && p[k] == create;
      assert (prefix + p)[|prefix| + k] == create;
    }
  }

  /** Labels, assignees, reviewers and auto-merge are only requested
      after the pull request was created, in a run reporting it. */
  lemma DecorationsFollowCreation(inputs: ActionInputs, env: Env, w: World, scope: Scope)
    ensures var r := Run(inputs, env, w, scope);
            var create := CreatePullRequest(Coords(env, inputs), inputs.title, inputs.body,
                                            NormalizeBranch(inputs.branch), w.defaultBranch);
            forall i :: 0 <= i < |r.trace| && IsDecoration(r.trace[i])
              ==> r.result == Some(Created(w.createdNumber)) && exists j :: 0 <= j < i && r.trace[j] == create
  {
    if Pushed(inputs, env, w, scope) {
      var r := Run(inputs, env, w, scope);
      var create := CreatePullRequest(Coords(env, inputs), inputs.title, inputs.body,
                                      NormalizeBranch(inputs.branch), w.defaultBranch);
      var before := LocalTrace(inputs, env, w) + RemoteCheck(inputs, env, w, scope).trace;
      var prefix := before + [ForcePush(Coords(env, inputs), NormalizeBranch(inputs.branch))];
      var p := Published(inputs, env, w, scope);
      RunPushes(inputs, env, w, scope);
      NothingPublishedBeforePush(inputs, env, w, scope);
      PublishDecorationsFollowCreation(inputs, NormalizeBranch(inputs.branch), Coords(env, inputs), w,
                                       RemoteCheck(inputs, env, w, scope).remoteBranchExists == Some(true));
      assert forall i :: 0 <= i < |prefix| ==> !IsDecoration(prefix[i]) by {
        forall i | 0 <= i < |prefix|
          ensures !IsDecoration(prefix[i])
        {
          if i < |before| {
            assert prefix[i] == before[i] && !IsPublishing(before[i]);
          }
        }
      }
      DecorationsAfterPrefix(prefix, p.trace, create);
      assert r.trace == prefix + p.trace;
    } else {
      RunWithoutPush(inputs, env, w, scope);
    }
  }

  /** A run makes at most one reviewers request, for the created pull
      request, and sends the auto-merge mutation only with a set input,
      upper-cased to one of the three GraphQL merge methods. */
  lemma RunRequests(inputs: ActionInputs, env: Env, w: World, scope: Scope)
    ensures var r := Run(inputs, env, w, scope);
            var autoMerge := ExpectedAutoMerge(inputs, w);
            ReviewersRequestsAre(r.trace, ExpectedReviewers(inputs, Coords(env, inputs), w))
            && AutoMergeRequestsAre(r.trace, autoMerge,
                                    inputs.autoMerge != "" && autoMerge.mergeMethod in ["MERGE", "SQUASH", "REBASE"])
  {
    RunReviewersRequests(inputs, env, w, scope);
    RunAutoMergeRequests(inputs, env, w, scope);
  }

  // The reviewers half of RunRequests.
  lemma RunReviewersRequests(inputs: ActionInputs, env: Env, w: World, scope: Scope)
    ensures ReviewersRequestsAre(Run(inputs, env, w, scope).trace, ExpectedReviewers(inputs, Coords(env, inputs), w))
  {
    if Pushed(inputs, env, w, scope) {
      var prefix := PushedPrefix(inputs, env, w, scope);
      var p := Published(inputs, env, w, scope);
      RunPushes(inputs, env, w, scope);
      PushedPrefixQuiet(inputs, env, w, scope);
      PublishRequests(inputs, NormalizeBranch(inputs.branch), Coords(env, inputs), w,
                      RemoteCheck(inputs, env, w, scope).remoteBranchExists == Some(true));
      ReviewersRequestsAround(prefix, p.trace, [], ExpectedReviewers(inputs, Coords(env, inputs), w));
      assert prefix + p.trace + [] == prefix + p.trace;
    } else {
      RunWithoutPush(inputs, env, w, scope);
    }
  }

  // The auto-merge half of RunRequests.
  lemma RunAutoMergeRequests(inputs: ActionInputs, env: Env, w: World, scope: Scope)
    ensures var autoMerge := ExpectedAutoMerge(inputs, w);
            AutoMergeRequestsAre(Run(inputs, env, w, scope).trace, autoMerge,
                                 inputs.autoMerge != "" && autoMerge.mergeMethod in ["MERGE", "SQUASH", "REBASE"])
  {
    if Pushed(inputs, env, w, scope) {
      var prefix := PushedPrefix(inputs, env, w, scope);
      var p := Published(inputs, env, w, scope);
      RunPushes(inputs, env, w, scope);
      PushedPrefixQuiet(inputs, env, w, scope);
      PublishRequests(inputs, NormalizeBranch(inputs.branch), Coords(env, inputs), w,
                      RemoteCheck(inputs, env, w, scope).remoteBranchExists == Some(true));
      AutoMergeRequestsAround(prefix, p.trace, [], ExpectedAutoMerge(inputs, w), inputs.autoMerge != "");
      assert prefix + p.trace + [] == prefix + p.trace;
      if inputs.autoMerge != "" {
        ExpectedAutoMergeMethod(inputs, w);
      }
    } else {
      RunWithoutPush(inputs, env, w, scope);
    }
  }

  /** An accepted, set `auto-merge` input becomes one of the three
      GraphQL merge methods. */
  lemma ExpectedAutoMergeMethod(inputs: ActionInputs, w: World)
    requires IsValidAutoMerge(inputs.autoMerge) && inputs.autoMerge != ""
    ensures ExpectedAutoMerge(inputs, w).mergeMethod in ["MERGE", "SQUASH", "REBASE"]
  {
    MergeMethodArguments(inputs.autoMerge);
  }

  // ---------------------------------------------------------------------
  // The auto-merge mutation's failure is caught and only logged
  // (index.js:282-294).
  // ---------------------------------------------------------------------

  /** `w` with the action `a` made to fail, or made to succeed. */
  function WithOutcome(w: World, a: Action, fails: bool): World
  {
    w.(failing := if fails then w.failing + {a} else w.failing - {a})
  }

  /** A command list without `a` runs the same whether `a` fails or not. */
  lemma {:induction false} RunCommandsWithout(w: World, a: Action, commands: seq<Action>)
    requires a !in commands
    ensures RunCommands(WithOutcome(w, a, true), commands) == RunCommands(WithOutcome(w, a, false), commands)
  {
    if commands != [] {
      assert commands[0] != a;
      RunCommandsWithout(w, a, commands[1..]);
    }
  }

  lemma LocalStagesIgnoreAutoMerge(inputs: ActionInputs, coords: Coordinates, w: World, a: Action)
    requires a.EnableAutoMerge?
    ensures Prepare(inputs, coords, WithOutcome(w, a, true)) == Prepare(inputs, coords, WithOutcome(w, a, false))
    ensures CommitChanges(inputs, WithOutcome(w, a, true)) == CommitChanges(inputs, WithOutcome(w, a, false))
    ensures RebaseOnDefault(coords, WithOutcome(w, a, true)) == RebaseOnDefault(coords, WithOutcome(w, a, false))
  {
    RunCommandsWithout(w, a, [GetRepository(coords)] + ChangeDirectoryCommands(inputs.pathToCdTo) + [GitStatus]);
    CommitIgnoresAutoMerge(inputs, w, a);
    RunCommandsWithout(w, a, [RevParseHead]);
    RunCommandsWithout(w, a, [Fetch(coords, w.defaultBranch), StashIncludeUntracked, RebaseTheirs(w.defaultBranch)]);
  }

  // The commit step of LocalStagesIgnoreAutoMerge.
  lemma CommitIgnoresAutoMerge(inputs: ActionInputs, w: World, a: Action)
    requires a.EnableAutoMerge?
    ensures CommitChanges(inputs, WithOutcome(w, a, true)) == CommitChanges(inputs, WithOutcome(w, a, false))
  {
    RunCommandsWithout(w, a, [GetConfig(UserNameKey), GetConfig(UserEmailKey)]);
    if ParseAuthor(inputs.author).Some? {
      var id := ParseAuthor(inputs.author).value;
      RunCommandsWithout(w, a, [SetGlobalConfig(UserNameKey, id.name), SetGlobalConfig(UserEmailKey, id.email)]);
    }
    RunCommandsWithout(w, a, [CheckoutNewBranch(TemporaryBranch(w))]);
    RunCommandsWithout(w, a, [AddAll, Commit(inputs.commitMessage, inputs.author)]);
  }

  lemma RemoteCheckIgnoresAutoMerge(branch: string, visible: Option<Coordinates>, w: World, a: Action)
    requires a.EnableAutoMerge?
    ensures CheckOutRemoteBranch(branch, visible, WithOutcome(w, a, true))
            == CheckOutRemoteBranch(branch, visible, WithOutcome(w, a, false))
  {
    RunCommandsWithout(w, a, [RevParseHead]);
    if visible.Some? {
      RunCommandsWithout(w, a, [Fetch(visible.value, branch), ListBranches, Checkout(branch)]);
    }
  }

  lemma CreateAndDecorateIgnoresAutoMerge(inputs: ActionInputs, branch: string, coords: Coordinates, w: World, a: Action)
    requires a.EnableAutoMerge?
    ensures CreateAndDecorate(inputs, branch, coords, WithOutcome(w, a, true))
            == CreateAndDecorate(inputs, branch, coords, WithOutcome(w, a, false))
  {
    var metadata := MetadataRequests(inputs, coords, w.createdNumber);
    MetadataRequestsAreDecorations(inputs, coords, w.createdNumber);
    assert a !in metadata;
    RunCommandsWithout(w, a, metadata);
  }

  lemma PublishIgnoresAutoMerge(inputs: ActionInputs, branch: string, coords: Coordinates, w: World,
                                remoteBranchExists: bool, a: Action)
    requires a.EnableAutoMerge?
    ensures Publish(inputs, branch, coords, WithOutcome(w, a, true), remoteBranchExists)
            == Publish(inputs, branch, coords, WithOutcome(w, a, false), remoteBranchExists)
  {
    CreateAndDecorateIgnoresAutoMerge(inputs, branch, coords, w, a);
  }

  /** Whether the auto-merge mutation fails changes nothing about a run:
      not its commands, not its result, not whether it fails. */
  lemma AutoMergeFailureIgnored(inputs: ActionInputs, env: Env, w: World, scope: Scope, a: Action)
    requires a.EnableAutoMerge?
    ensures Run(inputs, env, WithOutcome(w, a, true), scope) == Run(inputs, env, WithOutcome(w, a, false), scope)
  {
    var coords := Coords(env, inputs);
    LocalStagesIgnoreAutoMerge(inputs, coords, w, a);
    DeliverIgnoresAutoMerge(inputs, NormalizeBranch(inputs.branch), coords, w, scope, a);
  }

  lemma DeliverIgnoresAutoMerge(inputs: ActionInputs, branch: string, coords: Coordinates, w: World, scope: Scope, a: Action)
    requires a.EnableAutoMerge?
    ensures Deliver(inputs, branch, coords, WithOutcome(w, a, true), scope)
            == Deliver(inputs, branch, coords, WithOutcome(w, a, false), scope)
  {
    RemoteCheckIgnoresAutoMerge(branch, if scope == OwnerInScope then Some(coords) else None, w, a);
    PublishIgnoresAutoMerge(inputs, branch, coords, w, true, a);
    PublishIgnoresAutoMerge(inputs, branch, coords, w, false, a);
  }

  // ---------------------------------------------------------------------
  // The fetch of `checkOutRemoteBranch` (index.js:355) names `owner` and
  // `repo`, which are local to `main`; building the command throws, and
  // the outer `catch` treats the branch as missing on the remote.
  // ---------------------------------------------------------------------

  /** As written, the remote branch only counts as existing when the
      runner already stands on it, so the open pull request is updated
      only then; and the only branch ever fetched is the default one. */
  lemma AsWrittenUpdatesOnlyFromTargetBranch(inputs: ActionInputs, env: Env, w: World)
    ensures var r := Run(inputs, env, w, AsWritten);
            (r.result.Some? && r.result.value.Updated? ==> w.head == NormalizeBranch(inputs.branch))
            && forall i :: 0 <= i < |r.trace| && r.trace[i].Fetch?
                 ==> r.trace[i] == Fetch(Coords(env, inputs), w.defaultBranch)
  {
    UpdatedIffOpenPullRequestFound(inputs, env, w, AsWritten);
    CheckOutRemoteBranchOutcome(NormalizeBranch(inputs.branch), None, w);
    RunStages(inputs, env, w, AsWritten);
    LocalTraceKinds(inputs, env, w);
    DeliveryKinds(inputs, env, w, AsWritten);
  }

  /** The branch a real run is on when it reads HEAD: `git checkout -b`
      of the temporary branch (index.js:102) precedes both reads, and
      neither the default nor the target branch is that branch. */
  predicate OnTemporaryBranch(inputs: ActionInputs, w: World)
  {
    w.head == TemporaryBranch(w)
    && w.defaultBranch != TemporaryBranch(w) && NormalizeBranch(inputs.branch) != TemporaryBranch(w)
  }

  /** From the temporary branch, the code as written never reports
      "updated": every run either stops, reports "unchanged" or creates. */
  lemma AsWrittenNeverUpdates(inputs: ActionInputs, env: Env, w: World)
    requires OnTemporaryBranch(inputs, w)
    ensures var r := Run(inputs, env, w, AsWritten);
            r.result.None? || r.result == Some(Unchanged) || r.result == Some(Created(w.createdNumber))
  {
    AsWrittenUpdatesOnlyFromTargetBranch(inputs, env, w);
    var r := Run(inputs, env, w, AsWritten);
    if r.result.Some? && r.result.value.Created? {
      CreatedRun(inputs, env, w, AsWritten);
    }
  }

  /** From the temporary branch, every run that pushes has rebased onto
      the default branch. */
  lemma PushingRunRebases(inputs: ActionInputs, env: Env, w: World, scope: Scope)
    requires OnTemporaryBranch(inputs, w) && Pushed(inputs, env, w, scope)
    ensures RebaseTheirs(w.defaultBranch) in Run(inputs, env, w, scope).trace
  {
    RebaseOnlyOffDefaultBranch(inputs, env, w, scope);
  }

  /** Every command succeeds, there are changes to commit, the target
      branch has an open pull request, and the runner is on another
      branch: the situation the action exists for. */
  predicate OpenPullRequestElsewhere(inputs: ActionInputs, env: Env, w: World)
  {
    w.failing == {} && HasEnvironment(env) && IsValidAutoMerge(inputs.autoMerge)
    && HasChanges(GetLocalChanges(w.statusOutput))
    && w.head != NormalizeBranch(inputs.branch)
    && w.searchTotalCount > 0 && |w.searchItemNumbers| > 0
  }

  lemma AllSucceedPushes(inputs: ActionInputs, env: Env, w: World, scope: Scope)
    requires OpenPullRequestElsewhere(inputs, env, w)
    ensures Pushed(inputs, env, w, scope)
    ensures RemoteCheck(inputs, env, w, scope).remoteBranchExists == Some(scope == OwnerInScope)
  {
    var coords := Coords(env, inputs);
    PrepareSteps(inputs, coords, w);
    ConfigureIdentitySteps(inputs.author, w);
    CommitChangesSteps(inputs, w);
    RebaseOnDefaultSteps(coords, w);
    CheckOutRemoteBranchOutcome(NormalizeBranch(inputs.branch), Visible(env, inputs, scope), w);
  }

  /** As written, that situation never searches for the open pull
      request: it force-pushes and asks GitHub for a second one. */
  lemma AsWrittenCreatesDuplicate(inputs: ActionInputs, env: Env, w: World)
    requires OpenPullRequestElsewhere(inputs, env, w)
    ensures var r := Run(inputs, env, w, AsWritten);
            var coords := Coords(env, inputs);
            var branch := NormalizeBranch(inputs.branch);
            r.result == Some(Created(w.createdNumber))
            && SearchOpenPullRequests(coords, branch) !in r.trace
            && CreatePullRequest(coords, inputs.title, inputs.body, branch, w.defaultBranch) in r.trace
  {
    AllSucceedPushes(inputs, env, w, AsWritten);
    CreatedIffNoOpenPullRequest(inputs, env, w, AsWritten);
    CreatedRun(inputs, env, w, AsWritten);
    PublishingAfterPush(inputs, env, w, AsWritten);
    PublishCreates(inputs, NormalizeBranch(inputs.branch), Coords(env, inputs), w, false);
    CreateAndDecorateOutcome(inputs, NormalizeBranch(inputs.branch), Coords(env, inputs), w);
  }

  /** With `owner` and `repo` in scope, the same situation fetches the
      target branch and updates the open pull request instead. */
  lemma InScopeUpdatesOpenPullRequest(inputs: ActionInputs, env: Env, w: World)
    requires OpenPullRequestElsewhere(inputs, env, w)
    ensures var r := Run(inputs, env, w, OwnerInScope);
            var coords := Coords(env, inputs);
            var branch := NormalizeBranch(inputs.branch);
            r.result == Some(Updated(w.searchItemNumbers[0])) && !r.failed
            && Fetch(coords, branch) in r.trace
            && forall i :: 0 <= i < |r.trace| ==> !r.trace[i].CreatePullRequest?
  {
    AllSucceedPushes(inputs, env, w, OwnerInScope);
    UpdatedIffOpenPullRequestFound(inputs, env, w, OwnerInScope);
    UpdatedRun(inputs, env, w, OwnerInScope);
    InScopeFetchesTarget(inputs, env, w);
  }

  lemma InScopeFetchesTarget(inputs: ActionInputs, env: Env, w: World)
    requires OpenPullRequestElsewhere(inputs, env, w)
    ensures Fetch(Coords(env, inputs), NormalizeBranch(inputs.branch)) in Run(inputs, env, w, OwnerInScope).trace
  {
    var coords := Coords(env, inputs);
    var branch := NormalizeBranch(inputs.branch);
    var remote := RemoteCheck(inputs, env, w, OwnerInScope);
    var prefix := PushedPrefix(inputs, env, w, OwnerInScope);
    AllSucceedPushes(inputs, env, w, OwnerInScope);
    RunPushes(inputs, env, w, OwnerInScope);
    CheckOutRemoteBranchShape(branch, Some(coords), w);
    assert remote.trace[1] == Fetch(coords, branch);
    var k := |LocalTrace(inputs, env, w)| + 1;
    assert prefix[k] == Fetch(coords, branch);
    assert (prefix + Published(inputs, env, w, OwnerInScope).trace)[k] == Fetch(coords, branch);
  }
}
