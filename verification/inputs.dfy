/**
 The action's input handling (index.js:44-76 and 108-113, 197, 213, 238,
 248): the branch name, the repository coordinates, the auto-merge method,
 the commit author and the comma-separated lists of labels, assignees,
 reviewers and team reviewers. Every regular expression is written out
 as the string function it amounts to.
 */
module Inputs {
  import opened Wrappers
  import opened Text

  // ---------------------------------------------------------------------
  // branch: `.replace(/^refs\/heads\//, "")`
  // ---------------------------------------------------------------------

  const RefsHeads: string := "refs/heads/"

  /** The `branch` input with one leading `refs/heads/` removed. */
  function NormalizeBranch(input: string): (branch: string)
    ensures StartsWith(input, RefsHeads) ==> RefsHeads + branch == input
    ensures !StartsWith(input, RefsHeads) ==> branch == input
  {
    if StartsWith(input, RefsHeads) then input[|RefsHeads|..] else input
  }

  /** Normalising a second time changes nothing exactly when the first
      result no longer starts with `refs/heads/`. */
  lemma NormalizeBranchIdempotentIff(input: string)
    ensures NormalizeBranch(NormalizeBranch(input)) == NormalizeBranch(input)
            <==> !StartsWith(NormalizeBranch(input), RefsHeads)
  {
    var b := NormalizeBranch(input);
    if StartsWith(b, RefsHeads) {
      assert |NormalizeBranch(b)| < |b|;
    }
  }

  /** Only one prefix is removed: `refs/heads/refs/heads/x` becomes
      `refs/heads/x`, not `x`. */
  lemma NormalizeBranchRemovesOnePrefix()
    ensures NormalizeBranch("refs/heads/refs/heads/x") == "refs/heads/x"
    ensures NormalizeBranch(NormalizeBranch("refs/heads/refs/heads/x")) == "x"
  {
    var once := NormalizeBranch("refs/heads/refs/heads/x");
    assert StartsWith("refs/heads/refs/heads/x", RefsHeads);
    assert once == "refs/heads/x";
    assert StartsWith(once, RefsHeads);
  }

  // ---------------------------------------------------------------------
  // owner and repo: `let [owner, repo] = s.split("/")`
  // ---------------------------------------------------------------------

  /** `repo` is `undefined` when the text holds no `/`. */
  datatype Coordinates = Coordinates(owner: string, repo: Option<string>)

  /** Destructuring the first two pieces of `s.split("/")`. */
  function OwnerAndRepo(s: string): Coordinates
  {
    var parts := Split(s, '/');
    Coordinates(parts[0], if |parts| > 1 then Some(parts[1]) else None)
  }

  /** `repository` overrides `GITHUB_REPOSITORY` when it is non-empty. */
  function RepositoryCoordinates(githubRepository: string, repository: string): Coordinates
  {
    if repository != "" then OwnerAndRepo(repository) else OwnerAndRepo(githubRepository)
  }

  /** The owner is the text before the first `/`; the repo is the text
      between the first and the second `/` (or to the end), and is
      undefined when there is no `/`. The source is the `repository`
      input when it is non-empty, `GITHUB_REPOSITORY` otherwise. */
  lemma CoordinatesAreSlashFields(githubRepository: string, repository: string)
    ensures var s := if repository != "" then repository else githubRepository;
            var c := RepositoryCoordinates(githubRepository, repository);
            var i := IndexOf(s, '/');
            && c.owner == s[..i]
            && (i == |s| ==> c.repo == None)
            && (i < |s| ==> c.repo == Some(s[i + 1..][..IndexOf(s[i + 1..], '/')]))
  {
    var s := if repository != "" then repository else githubRepository;
    var i := IndexOf(s, '/');
    if i < |s| {
      var rest := s[i + 1..];
      assert Split(s, '/') == [s[..i]] + Split(rest, '/');
      var j := IndexOf(rest, '/');
      if j < |rest| {
        assert Split(rest, '/') == [rest[..j]] + Split(rest[j + 1..], '/');
      } else {
        assert Split(rest, '/') == [rest];
        assert rest[..j] == rest;
      }
    }
  }

  // ---------------------------------------------------------------------
  // auto-merge: one of "merge", "squash", "rebase", or empty
  // ---------------------------------------------------------------------

  const MergeMethods: seq<string> := ["merge", "squash", "rebase"]

  /** The check at index.js:68-71: an empty value disables auto-merge. */
  predicate IsValidAutoMerge(autoMerge: string)
  {
    autoMerge == "" || autoMerge in MergeMethods
  }

  /** The `mergeMethod` variable of the GraphQL mutation,
      `autoMerge.toUpperCase()`. It is only computed for a valid method,
      whose letters are all ASCII. */
  function MergeMethodArgument(autoMerge: string): string
  {
    ToUpperAscii(autoMerge)
  }

  /** The three methods become the GraphQL enum values. */
  lemma MergeMethodArguments(autoMerge: string)
    requires autoMerge in MergeMethods
    ensures autoMerge == "merge" ==> MergeMethodArgument(autoMerge) == "MERGE"
    ensures autoMerge == "squash" ==> MergeMethodArgument(autoMerge) == "SQUASH"
    ensures autoMerge == "rebase" ==> MergeMethodArgument(autoMerge) == "REBASE"
  {
    var r := MergeMethodArgument(autoMerge);
    if autoMerge == "merge" {
      assert r[0] == 'M' && r[1] == 'E' && r[2] == 'R' && r[3] == 'G' && r[4] == 'E';
    } else if autoMerge == "squash" {
      assert r[0] == 'S' && r[1] == 'Q' && r[2] == 'U' && r[3] == 'A' && r[4] == 'S' && r[5] == 'H';
    } else {
      assert r[0] == 'R' && r[1] == 'E' && r[2] == 'B' && r[3] == 'A' && r[4] == 'S' && r[5] == 'E';
    }
  }

  // ---------------------------------------------------------------------
  // author: `author.match(/^([^<]+)\s*<([^>]+)>$/)`
  // ---------------------------------------------------------------------

  datatype Identity = Identity(name: string, email: string)

  /** The shape the pattern accepts: a name without `<`, an email
      without `>`, both non-empty. */
  predicate IsWellFormed(id: Identity)
  {
    id.name != [] && '<' !in id.name && id.email != [] && '>' !in id.email
  }

  /** The author string an identity is written as. */
  function AuthorText(id: Identity): string
  {
    id.name + "<" + id.email + ">"
  }

  /** The two capture groups of the author pattern. The greedy `[^<]+`
      runs up to the first `<`, so `\s*` always matches the empty string
      and any space before `<` stays in the name; `[^>]+>$` then needs
      the rest to be a non-empty run without `>` closed by the final
      `>`. */
  function ParseAuthor(author: string): (r: Option<Identity>)
    ensures r.Some? ==> IsWellFormed(r.value) && AuthorText(r.value) == author
  {
    var i := IndexOf(author, '<');
    if 0 < i && i + 2 < |author| && author[|author| - 1] == '>'
       && '>' !in author[i + 1..|author| - 1]
    then
      var id := Identity(author[..i], author[i + 1..|author| - 1]);
      assert '<' !in id.name by {
        forall k | 0 <= k < |id.name| ensures id.name[k] != '<' {
          assert id.name[k] == author[k];
        }
      }
      assert AuthorText(id) == author;
      Some(id)
    else
      None
  }

  /** Every well-formed identity is recognised, with exactly its name
      and email: the match succeeds iff the string has the shape. */
  lemma ParseAuthorComplete(id: Identity)
    requires IsWellFormed(id)
    ensures ParseAuthor(AuthorText(id)) == Some(id)
  {
    var s := AuthorText(id);
    var n := |id.name|;
    assert s[n] == '<';
    assert forall k :: 0 <= k < n ==> s[k] == id.name[k];
    IndexOfUnique(s, '<', n);
    assert s[..n] == id.name;
    assert s[n + 1..|s| - 1] == id.email;
  }

  /** A space before `<` belongs to the name. */
  lemma AuthorNameKeepsTrailingSpace()
    ensures ParseAuthor("Jane <j@x>") == Some(Identity("Jane ", "j@x"))
  {
    var id := Identity("Jane ", "j@x");
    assert IsWellFormed(id) by {
      assert forall k :: 0 <= k < |id.name| ==> id.name[k] != '<';
      assert forall k :: 0 <= k < |id.email| ==> id.email[k] != '>';
    }
    ParseAuthorComplete(id);
    assert AuthorText(id) == "Jane <j@x>";
  }

  // ---------------------------------------------------------------------
  // lists: `s.trim().split(/\s*,\s*/)`
  // ---------------------------------------------------------------------

  // `s.split(/\s*,\s*/)`: each match is the first comma together with
  // the whitespace on both sides of it, so a piece loses its trailing
  // whitespace and the next piece its leading whitespace.
  function SplitOnCommas(s: string): (r: seq<string>)
    ensures |r| == CountOf(s, ',') + 1
    ensures forall k :: 0 <= k < |r| ==> ',' !in r[k]
    decreases |s|
  {
    var i := IndexOf(s, ',');
    if i == |s| then
      CountOfAbsent(s, ',');
      [s]
    else
      FirstCommaSplit(s, i);
      var head := TrimEnd(s[..i]);
      var tail := SplitOnCommas(TrimStart(s[i + 1..]));
      assert forall k :: 0 < k < |tail| + 1 ==> ([head] + tail)[k] == tail[k - 1];
      [head] + tail
  }

  /** What is left around the first comma, at `i`, once the whitespace
      after it is gone. */
  lemma FirstCommaSplit(s: string, i: nat)
    requires i < |s| && i == IndexOf(s, ',')
    ensures |TrimStart(s[i + 1..])| < |s|
    ensures ',' !in TrimEnd(s[..i])
    ensures CountOf(s, ',') == 1 + CountOf(TrimStart(s[i + 1..]), ',')
  {
    assert ',' !in s[..i];
    TrimStartShape(s[i + 1..]);
    TrimEndShape(s[..i]);
    var head := TrimEnd(s[..i]);
    assert forall k :: 0 <= k < |head| ==> head[k] == s[k];
    CountOfAround(s, ',', i);
    CountOfAbsent(s[..i], ',');
    assert !IsWhitespace(',');
    CountOfTrimStart(s[i + 1..], ',');
  }

  /** The list the action sends for a labels, assignees, reviewers or
      team reviewers input. */
  function SplitList(input: string): seq<string>
  {
    SplitOnCommas(Trim(input))
  }

  function TrimEach(parts: seq<string>): (r: seq<string>)
    ensures |r| == |parts|
  {
    if parts == [] then [] else [Trim(parts[0])] + TrimEach(parts[1..])
  }

  lemma {:induction false} TrimEachElements(parts: seq<string>)
    ensures forall k :: 0 <= k < |parts| ==> TrimEach(parts)[k] == Trim(parts[k])
  {
    if parts != [] {
      TrimEachElements(parts[1..]);
    }
  }

  /** One element more than there are commas in the trimmed input, no
      comma in any element, no whitespace at either end of any element. */
  lemma SplitListShape(input: string)
    ensures |SplitList(input)| == CountOf(Trim(input), ',') + 1
    ensures forall k :: 0 <= k < |SplitList(input)| ==> ',' !in SplitList(input)[k]
    ensures forall k :: 0 <= k < |SplitList(input)| ==> IsTrimmed(SplitList(input)[k])
  {
    SplitListReference(input);
    TrimEachElements(Split(Trim(input), ','));
  }

  /** The regular-expression split is the same as splitting the trimmed
      input at every comma and trimming each piece. */
  lemma SplitListReference(input: string)
    ensures SplitList(input) == TrimEach(Split(Trim(input), ','))
  {
    var t := Trim(input);
    assert TrimStart(t) == t;
    SplitOnCommasTrimsPieces(t);
  }

  /** The induction behind `SplitListReference`: for text that does not
      end in whitespace, splitting after dropping the leading whitespace
      trims every comma-separated piece. */
  lemma {:induction false} SplitOnCommasTrimsPieces(t: string)
    requires t == [] || !IsWhitespace(t[|t| - 1])
    ensures SplitOnCommas(TrimStart(t)) == TrimEach(Split(t, ','))
    decreases |t|
  {
    TrimStartShape(t);
    var u := TrimStart(t);
    var k := IndexOf(u, ',');
    if k == |u| {
      LastPiece(t);
    } else {
      SplitOnCommasStep(u, k);
      FirstPiece(t, k);
      SplitOnCommasTrimsPieces(u[k + 1..]);
    }
  }

  /** One step of `SplitOnCommas`, at the first comma `k`. */
  lemma SplitOnCommasStep(u: string, k: nat)
    requires k < |u| && IndexOf(u, ',') == k
    ensures SplitOnCommas(u) == [TrimEnd(u[..k])] + SplitOnCommas(TrimStart(u[k + 1..]))
  {
  }

  lemma LeadingWhitespace(t: string, w: string, u: string)
    requires u == TrimStart(t) && |u| <= |t| && w == t[..|t| - |u|]
    ensures t == w + u && AllWhitespace(w) && (u == [] || !IsWhitespace(u[0]))
    ensures IndexOf(t, ',') == |w| + IndexOf(u, ',')
  {
    TrimStartShape(t);
    assert t == w + u;
    assert !IsWhitespace(',');
    IndexOfAfterWhitespace(w, u, ',');
  }

  /** Text that does not end in whitespace only loses its leading
      whitespace to `trim()`. */
  lemma TrimKeepsNonWhitespaceEnd(t: string)
    requires t == [] || !IsWhitespace(t[|t| - 1])
    ensures Trim(t) == TrimStart(t)
  {
    TrimStartShape(t);
    var u := TrimStart(t);
    if u != [] {
      assert u[|u| - 1] == t[|t| - 1];
    }
  }

  /** `SplitOnCommas` of text without a comma. */
  lemma SplitOnCommasWithout(u: string)
    requires IndexOf(u, ',') == |u|
    ensures SplitOnCommas(u) == [u]
  {
  }

  /** The piece after the last comma. */
  lemma LastPiece(t: string)
    requires t == [] || !IsWhitespace(t[|t| - 1])
    requires IndexOf(TrimStart(t), ',') == |TrimStart(t)|
    ensures SplitOnCommas(TrimStart(t)) == TrimEach(Split(t, ','))
  {
    TrimStartShape(t);
    var u := TrimStart(t);
    LeadingWhitespace(t, t[..|t| - |u|], u);
    SplitOnCommasWithout(u);
    SplitWithout(t, ',');
    TrimKeepsNonWhitespaceEnd(t);
    TrimEachCons(t, []);
  }

  /** The piece before the first comma, at `k` in the trimmed text. */
  lemma FirstPiece(t: string, k: nat)
    requires t == [] || !IsWhitespace(t[|t| - 1])
    requires k < |TrimStart(t)| && IndexOf(TrimStart(t), ',') == k
    ensures var u := TrimStart(t);
            TrimEach(Split(t, ',')) == [TrimEnd(u[..k])] + TrimEach(Split(u[k + 1..], ','))
    ensures var rest := TrimStart(t)[k + 1..];
            rest == [] || !IsWhitespace(rest[|rest| - 1])
  {
    TrimStartShape(t);
    var u := TrimStart(t);
    var w := t[..|t| - |u|];
    LeadingWhitespace(t, w, u);
    var rest := u[k + 1..];
    var piece := t[..|w| + k];
    FirstPieceSplit(t, w, u, k);
    TrimEachCons(piece, Split(rest, ','));
    PieceTrim(t, w, u, k);
    SuffixKeepsEnd(t, w, u, k);
  }

  lemma SuffixKeepsEnd(t: string, w: string, u: string, k: nat)
    requires t == w + u && k < |u|
    ensures var rest := u[k + 1..];
            rest == [] || rest[|rest| - 1] == t[|t| - 1]
  {
  }

  lemma FirstPieceSplit(t: string, w: string, u: string, k: nat)
    requires t == w + u
    requires k < |u| && IndexOf(t, ',') == |w| + k
    ensures Split(t, ',') == [t[..|w| + k]] + Split(u[k + 1..], ',')
  {
    SplitAtFirst(t, ',', |w| + k);
    assert t[|w| + k + 1..] == u[k + 1..];
  }

  lemma TrimEachCons(piece: string, pieces: seq<string>)
    ensures TrimEach([piece] + pieces) == [Trim(piece)] + TrimEach(pieces)
  {
    assert ([piece] + pieces)[1..] == pieces;
  }

  /** Trimming the piece before the first comma. */
  lemma PieceTrim(t: string, w: string, u: string, k: nat)
    requires t == w + u && AllWhitespace(w) && k <= |u| && (u == [] || !IsWhitespace(u[0]))
    ensures Trim(t[..|w| + k]) == TrimEnd(u[..k])
  {
    assert t[..|w| + k] == w + u[..k];
    TrimStartSkipsWhitespace(w, u[..k]);
    assert u[..k] == [] || u[..k][0] == u[0];
    assert TrimStart(u[..k]) == u[..k];
  }

  /** Text with no whitespace at either end is left alone by each trim. */
  lemma TrimmedUnchanged(s: string)
    requires IsTrimmed(s)
    ensures TrimStart(s) == s && TrimEnd(s) == s && Trim(s) == s
  {
  }

  /** Consecutive commas give an empty element: `a,,b` is split into
      `a`, the empty string and `b`. */
  lemma SplitListKeepsEmptyElements(a: char, b: char)
    requires !IsWhitespace(a) && !IsWhitespace(b) && a != ',' && b != ','
    ensures SplitList([a, ',', ',', b]) == [[a], [], [b]]
  {
    var s := [a, ',', ',', b];
    TrimmedUnchanged(s);
    IndexOfUnique(s, ',', 1);
    SplitOnCommasStep(s, 1);
    assert s[..1] == [a] && s[2..] == [',', b];
    TrimmedUnchanged([a]);
    TrimmedUnchanged([',', b]);
    IndexOfUnique([',', b], ',', 0);
    SplitOnCommasStep([',', b], 0);
    assert [',', b][..0] == [] && [',', b][1..] == [b];
    TrimmedUnchanged([]);
    TrimmedUnchanged([b]);
    IndexOfUnique([b], ',', 1);
    SplitOnCommasWithout([b]);
  }
}
