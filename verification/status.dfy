/**
 `getLocalChanges` (index.js:304-318): classifying the text `git status`
 prints.
 */
module LocalStatus {
  import opened Wrappers
  import opened Text

  /** Matched case-insensitively (the `/i` flag). */
  const CleanMarker: string := "nothing to commit, working tree clean"

  /** The three alternatives of the second pattern, matched case-sensitively. */
  const StagedMarker: string := "Changes to be committed"
  const UnstagedMarker: string := "Changes not staged"
  const UntrackedMarker: string := "Untracked files"

  /** The object `getLocalChanges` resolves to. Its early `return {}`
      leaves both fields undefined. */
  datatype LocalChanges = LocalChanges(hasUncommitedChanges: Option<bool>, hasChanges: Option<bool>)

  /** One of the three change markers occurs, in exactly this case. */
  predicate HasChangeMarker(output: string)
  {
    Contains(output, StagedMarker) || Contains(output, UnstagedMarker) || Contains(output, UntrackedMarker)
  }

  function GetLocalChanges(output: string): (r: LocalChanges)
    ensures r.hasChanges == r.hasUncommitedChanges
    ensures r.hasChanges.None? <==> ContainsIgnoringCase(output, CleanMarker)
  {
    if ContainsIgnoringCase(output, CleanMarker) then
      LocalChanges(None, None)
    else
      var hasUncommitedChanges := HasChangeMarker(output);
      LocalChanges(Some(hasUncommitedChanges), Some(hasUncommitedChanges))
  }

  /** The caller's check `if (!hasChanges)`: `undefined` and `false` both
      mean there is nothing to commit. */
  predicate HasChanges(changes: LocalChanges)
  {
    changes.hasChanges == Some(true)
  }

  /** Changes are reported iff the clean marker is absent (in any case)
      and one of the three markers is present (in exactly that case). */
  lemma HasChangesIff(output: string)
    ensures HasChanges(GetLocalChanges(output))
            <==> !ContainsIgnoringCase(output, CleanMarker) && HasChangeMarker(output)
  {
  }

  /** Once the clean marker appears, nothing else in the output can
      make the tree count as changed. */
  lemma CleanMarkerWins(before: string, clean: string, after: string)
    requires ContainsIgnoringCase(clean, CleanMarker)
    ensures !HasChanges(GetLocalChanges(before + clean + after))
  {
    ContainsIgnoringCaseInContext(before, clean, after, CleanMarker);
  }

  /** Any one of the three markers is enough when the clean marker is
      absent. */
  lemma ChangeMarkerReportsChanges(before: string, marker: string, after: string)
    requires marker == StagedMarker || marker == UnstagedMarker || marker == UntrackedMarker
    requires !ContainsIgnoringCase(before + marker + after, CleanMarker)
    ensures HasChanges(GetLocalChanges(before + marker + after))
  {
    ContainsInContext(before, marker, after);
  }

  /** The clean marker is found whatever the case of its letters. */
  lemma CleanMarkerIgnoresCase(before: string, after: string)
    ensures !HasChanges(GetLocalChanges(before + ToUpperAscii(CleanMarker) + after))
  {
    var upper := ToUpperAscii(CleanMarker);
    assert upper[0..|CleanMarker|] == upper;
    assert OccursIgnoringCaseAt(upper, CleanMarker, 0);
    CleanMarkerWins(before, upper, after);
  }

  /** The change markers are case-sensitive: a lower-case
      `untracked files` is not one. */
  lemma ChangeMarkersKeepCase()
    ensures !HasChanges(GetLocalChanges("untracked files"))
  {
    var s := "untracked files";
    assert !OccursAt(s, UntrackedMarker, 0) by {
      assert s[0] != UntrackedMarker[0];
    }
    assert !Contains(s, UntrackedMarker);
  }
}
