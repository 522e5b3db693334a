/**
 * The side panel's root store: the element changes the user has made, the repositories and the
 * selected one, the pull requests and the AI comments, with the views the panel reads and the
 * actions that update the collections in place.
 *
 * Records are values; the store is a class whose fields the actions reassign. A change's
 * `revert`, and the store's `applyStyleToElement` and `applyTextToElement`, only post messages
 * to the page and are not modelled.
 */
module Stores {
  import opened Wrappers
  import opened Json
  import opened JsMath

  // ---------------------------------------------------------------------------
  // Records

  datatype ChangeType = TextChange | StyleChange

  /** The text and styles of an element on one side of a change. */
  datatype ChangeSide = ChangeSide(textContent: Option<string>, styles: Option<Json>)

  datatype Change = Change(
    id: string, kind: ChangeType, elementId: string, elementTag: string, xpath: string, selector: string,
    timestamp: real, original: ChangeSide, modified: ChangeSide)

  datatype Repository = Repository(
    id: int, name: string, fullName: string, defaultBranch: string, isPrivate: bool)

  datatype PullRequestStatus = Creating | Processing | Analyzing | Open | Closed | Merged

  datatype PullRequest = PullRequest(
    id: string, number: real, title: string, url: string, status: PullRequestStatus, createdAt: real,
    repo: string, branch: string, websiteUrl: string, changesCount: real)

  /** The fields an update may carry; `None` is a field it leaves out. There is no `id`: the store's
      identifier attribute cannot be reassigned, so an update that changes it fails instead. */
  datatype PullRequestUpdate = PullRequestUpdate(
    number: Option<real>, title: Option<string>, url: Option<string>, status: Option<PullRequestStatus>,
    createdAt: Option<real>, repo: Option<string>, branch: Option<string>, websiteUrl: Option<string>,
    changesCount: Option<real>)

  /** An AI comment, with the overall figure of its PR score. */
  datatype AIComment = AIComment(
    id: string, changeId: string, timestamp: real, overall: real, confidence: real, provider: string,
    tokensUsed: real)

  /** The element and kind a change is about: the store keeps at most one change for each. */
  function ChangeTarget(c: Change): (string, ChangeType) {
    (c.elementId, c.kind)
  }

  function ChangeId(c: Change): string {
    c.id
  }

  function CommentChangeId(c: AIComment): string {
    c.changeId
  }

  function CommentId(c: AIComment): string {
    c.id
  }

  function PullRequestId(p: PullRequest): string {
    p.id
  }

  function RepositoryId(r: Repository): int {
    r.id
  }

  // ---------------------------------------------------------------------------
  // Searching and splicing

  /** `s.findIndex(x => key(x) === k)`: the first position whose key is `k`, or -1. */
  function FindFirst<T, K(==)>(s: seq<T>, key: T -> K, k: K): (r: int)
    ensures -1 <= r < |s|
    ensures r == -1 <==> forall i :: 0 <= i < |s| ==> key(s[i]) != k
    ensures r >= 0 ==> key(s[r]) == k && forall i :: 0 <= i < r ==> key(s[i]) != k
  {
    if |s| == 0 then -1
    else if key(s[0]) == k then 0
    else
      var r := FindFirst(s[1..], key, k);
      assert forall i :: 1 <= i < |s| ==> s[i] == s[1..][i - 1];
      if r < 0 then -1 else r + 1
  }

  /** No two elements share a key. */
  ghost predicate UniqueKeys<T, K>(s: seq<T>, key: T -> K) {
    forall i, j :: 0 <= i < j < |s| ==> key(s[i]) != key(s[j])
  }

  /** `const i = s.findIndex(...); if (i >= 0) s.splice(i, 1)`. */
  function RemoveFirst<T, K(==)>(s: seq<T>, key: T -> K, k: K): seq<T> {
    var i := FindFirst(s, key, k);
    if i < 0 then s else s[..i] + s[i + 1..]
  }

  /**
   * Removing the first element with key `k` removes exactly that element and keeps the rest in
   * order: nothing changes when there is none, and otherwise one fewer element remains, the
   * removed one being the first with that key. Distinct keys of any kind stay distinct, and when
   * keys are distinct no element with key `k` remains.
   */
  lemma {:induction false} RemoveFirstMeaning<T, K, L>(s: seq<T>, key: T -> K, k: K, other: T -> L)
    ensures FindFirst(s, key, k) < 0 ==> RemoveFirst(s, key, k) == s
    ensures FindFirst(s, key, k) >= 0 ==>
      |RemoveFirst(s, key, k)| == |s| - 1
      && multiset(RemoveFirst(s, key, k)) + multiset{s[FindFirst(s, key, k)]} == multiset(s)
    ensures UniqueKeys(s, other) ==> UniqueKeys(RemoveFirst(s, key, k), other)
    ensures UniqueKeys(s, key) ==> forall x :: x in RemoveFirst(s, key, k) ==> key(x) != k
  {
    var i := FindFirst(s, key, k);
    var r := RemoveFirst(s, key, k);
    if i >= 0 {
      assert s == s[..i] + [s[i]] + s[i + 1..];
      assert forall j :: 0 <= j < |r| ==> r[j] == s[if j < i then j else j + 1];
      if UniqueKeys(s, key) {
        forall x | x in r ensures key(x) != k {
          var j :| 0 <= j < |r| && r[j] == x;
          assert r[j] == s[if j < i then j else j + 1];
        }
      }
    }
  }

  // ---------------------------------------------------------------------------
  // Changes

  /**
   * What mobx-state-tree throws when a node that already sits in a tree is given a second parent.
   * The library's message goes on to name both paths.
   */
  const ReparentError := ErrorWith("Cannot add an object to a state tree if it is already part of the same or another state tree")

  /**
   * `addChange(change)` as written. On the replace path, `ChangeModel.create` is handed the
   * existing entry's `original`, a live node whose parent is that entry; mobx-state-tree refuses a
   * second parent and throws before anything is assigned. So every change for an element and kind
   * already present fails, and only the append path succeeds, where it agrees with `UpsertChange`.
   */
  function UpsertChangeAsWritten(changes: seq<Change>, change: Change): (r: Result<seq<Change>, Thrown>)
    ensures r.Err? <==> exists j :: 0 <= j < |changes| && ChangeTarget(changes[j]) == ChangeTarget(change)
    ensures r.Err? ==> r.error == ReparentError
    ensures r.Ok? ==> r.value == UpsertChange(changes, change)
  {
    var i := FindFirst(changes, ChangeTarget, ChangeTarget(change));
    if i >= 0 then Err(ReparentError) else Ok(changes + [change])
  }

  /**
   * The input that shows the difference: a second edit of the same element and kind. As written it
   * throws and the store keeps the first edit; the corrected upsert keeps the second edit with the
   * first one's original side.
   */
  lemma {:induction false} SecondEditThrows(first: Change, second: Change)
    requires ChangeTarget(first) == ChangeTarget(second)
    ensures UpsertChangeAsWritten([first], second) == Err(ReparentError)
    ensures UpsertChange([first], second) == [second.(original := first.original)]
  {
    assert ChangeTarget([first][0]) == ChangeTarget(second);
  }

  /**
   * `addChange(change)` as evidently intended: a change for an element and kind already present
   * replaces that entry, keeping the entry's original side (a copy of it rather than the node);
   * any other change is appended.
   */
  function UpsertChange(changes: seq<Change>, change: Change): seq<Change> {
    var i := FindFirst(changes, ChangeTarget, ChangeTarget(change));
    if i >= 0 then changes[i := change.(original := changes[i].original)] else changes + [change]
  }

  /**
   * After an upsert the new change is present, at the position of the entry it replaces (whose
   * original side it keeps) or at the end; every entry for another element or kind is where it
   * was, and the store still holds at most one change per element and kind.
   */
  lemma {:induction false} UpsertChangeMeaning(changes: seq<Change>, change: Change)
    ensures var i := FindFirst(changes, ChangeTarget, ChangeTarget(change));
      var r := UpsertChange(changes, change);
      && (i >= 0 ==> |r| == |changes| && r[i] == change.(original := changes[i].original))
      && (i < 0 ==> |r| == |changes| + 1 && r[|changes|] == change)
      && (forall j :: 0 <= j < |changes| && ChangeTarget(changes[j]) != ChangeTarget(change) ==> r[j] == changes[j])
    ensures UniqueKeys(changes, ChangeTarget) ==> UniqueKeys(UpsertChange(changes, change), ChangeTarget)
  {
    var i := FindFirst(changes, ChangeTarget, ChangeTarget(change));
    var r := UpsertChange(changes, change);
    if i < 0 {
      assert forall j :: 0 <= j < |changes| ==> r[j] == changes[j];
    }
    assert forall j :: 0 <= j < |r| ==> ChangeTarget(r[j]) == (if j < |changes| then ChangeTarget(changes[j]) else ChangeTarget(change));
  }

  // ---------------------------------------------------------------------------
  // AI comments

  /** `addAIComment(comment)`: the comment for the same change, if any, goes; the new one is appended. */
  function PutComment(comments: seq<AIComment>, comment: AIComment): seq<AIComment> {
    RemoveFirst(comments, CommentChangeId, comment.changeId) + [comment]
  }

  /**
   * After `addAIComment` the new comment is last and is the only one for its change, the other
   * comments are kept, and the store still holds at most one comment per change.
   */
  lemma {:induction false} PutCommentMeaning(comments: seq<AIComment>, comment: AIComment)
    requires UniqueKeys(comments, CommentChangeId)
    ensures var r := PutComment(comments, comment);
      && r[|r| - 1] == comment
      && UniqueKeys(r, CommentChangeId)
      && forall c :: c in comments && c.changeId != comment.changeId ==> c in r
  {
    var rest := RemoveFirst(comments, CommentChangeId, comment.changeId);
    RemoveFirstMeaning(comments, CommentChangeId, comment.changeId, CommentChangeId);
    var r := PutComment(comments, comment);
    assert forall j :: 0 <= j < |rest| ==> r[j] == rest[j];
    forall c | c in comments && c.changeId != comment.changeId ensures c in r {
      var i := FindFirst(comments, CommentChangeId, comment.changeId);
      if i >= 0 {
        assert c in multiset(rest) + multiset{comments[i]};
        assert c != comments[i];
      }
    }
  }

  // ---------------------------------------------------------------------------
  // Pull requests

  /** `Object.assign(pr, updates)`: every field the update carries replaces the PR's own. */
  function Merge(p: PullRequest, u: PullRequestUpdate): (r: PullRequest)
    ensures r.id == p.id
  {
    PullRequest(p.id, u.number.GetOr(p.number), u.title.GetOr(p.title), u.url.GetOr(p.url),
                u.status.GetOr(p.status), u.createdAt.GetOr(p.createdAt), u.repo.GetOr(p.repo),
                u.branch.GetOr(p.branch), u.websiteUrl.GetOr(p.websiteUrl), u.changesCount.GetOr(p.changesCount))
  }

  /** An update that carries no field. */
  const NoUpdate := PullRequestUpdate(None, None, None, None, None, None, None, None, None)

  /** An update without fields leaves a PR as it was; a second merge of the same update changes nothing. */
  lemma {:induction false} MergeMeaning(p: PullRequest, u: PullRequestUpdate)
    ensures Merge(p, NoUpdate) == p
    ensures Merge(Merge(p, u), u) == Merge(p, u)
  {
  }

  /** `updatePullRequest(prId, updates)`: the first PR with that id takes the update. */
  function UpdatePullRequests(prs: seq<PullRequest>, prId: string, u: PullRequestUpdate): seq<PullRequest> {
    var i := FindFirst(prs, PullRequestId, prId);
    if i < 0 then prs else prs[i := Merge(prs[i], u)]
  }

  /**
   * An update reaches only the first PR with the id: without one nothing changes, and otherwise
   * that PR is merged with the update and every other PR, and the order of ids, is untouched.
   */
  lemma {:induction false} UpdatePullRequestsMeaning(prs: seq<PullRequest>, prId: string, u: PullRequestUpdate)
    ensures (forall p :: p in prs ==> p.id != prId) ==> UpdatePullRequests(prs, prId, u) == prs
    ensures var r := UpdatePullRequests(prs, prId, u);
      && |r| == |prs|
      && (forall j :: 0 <= j < |prs| ==> r[j].id == prs[j].id)
      && forall j :: 0 <= j < |prs| ==>
           r[j] == if j == FindFirst(prs, PullRequestId, prId) then Merge(prs[j], u) else prs[j]
  {
    var i := FindFirst(prs, PullRequestId, prId);
    if forall p :: p in prs ==> p.id != prId {
      assert forall j :: 0 <= j < |prs| ==> PullRequestId(prs[j]) != prId;
    }
  }

  /** The PRs whose status is `open`, in order. */
  function OpenOnly(prs: seq<PullRequest>): (r: seq<PullRequest>)
    ensures forall p :: p in r <==> p in prs && p.status == Open
    ensures |r| <= |prs|
  {
    if |prs| == 0 then []
    else
      var rest := OpenOnly(prs[1..]);
      assert forall p :: p in prs <==> p == prs[0] || p in prs[1..];
      if prs[0].status == Open then [prs[0]] + rest else rest
  }

  /** Filtering keeps every open PR as many times as it occurs, and no other. */
  lemma {:induction false} OpenOnlyCounts(prs: seq<PullRequest>)
    ensures forall p :: multiset(OpenOnly(prs))[p] == if p.status == Open then multiset(prs)[p] else 0
  {
    if |prs| > 0 {
      OpenOnlyCounts(prs[1..]);
      assert prs == [prs[0]] + prs[1..];
      assert multiset(prs) == multiset{prs[0]} + multiset(prs[1..]);
      if prs[0].status == Open {
        assert OpenOnly(prs) == [prs[0]] + OpenOnly(prs[1..]);
        assert multiset(OpenOnly(prs)) == multiset{prs[0]} + multiset(OpenOnly(prs[1..]));
      } else {
        assert OpenOnly(prs) == OpenOnly(prs[1..]);
      }
    }
  }

  lemma {:induction false} OpenOnlyOfParts(prs: seq<PullRequest>)
    ensures forall a, b :: prs == a + b ==> OpenOnly(prs) == OpenOnly(a) + OpenOnly(b)
  {
    forall a, b | prs == a + b
      ensures OpenOnly(prs) == OpenOnly(a) + OpenOnly(b)
    {
      OpenOnlyAppend(a, b);
    }
  }

  /** Filtering keeps order: the open PRs of a concatenation are those of each part, in turn. */
  lemma {:induction false} OpenOnlyAppend(a: seq<PullRequest>, b: seq<PullRequest>)
    ensures OpenOnly(a + b) == OpenOnly(a) + OpenOnly(b)
  {
    if |a| == 0 {
      assert a + b == b;
    } else {
      var s := a + b;
      assert s[0] == a[0] && s[1..] == a[1..] + b;
      OpenOnlyAppend(a[1..], b);
      if a[0].status == Open {
        assert OpenOnly(s) == [a[0]] + OpenOnly(a[1..] + b);
        assert OpenOnly(a) == [a[0]] + OpenOnly(a[1..]);
      } else {
        assert OpenOnly(s) == OpenOnly(a[1..] + b);
        assert OpenOnly(a) == OpenOnly(a[1..]);
      }
    }
  }

  // ---------------------------------------------------------------------------
  // The PR score average

  function OverallSum(comments: seq<AIComment>): real {
    if |comments| == 0 then 0.0 else OverallSum(comments[..|comments| - 1]) + comments[|comments| - 1].overall
  }

  /** `averagePRScore`: 0 without comments, else the rounded mean of the overall scores. */
  function AverageScore(comments: seq<AIComment>): int {
    if |comments| == 0 then 0 else Round(OverallSum(comments) / |comments| as real)
  }

  lemma {:induction false} OverallSumWithin(comments: seq<AIComment>, lo: real, hi: real)
    requires forall i :: 0 <= i < |comments| ==> lo <= comments[i].overall <= hi
    ensures |comments| as real * lo <= OverallSum(comments) <= |comments| as real * hi
  {
    if |comments| > 0 {
      var init := comments[..|comments| - 1];
      OverallSumWithin(init, lo, hi);
      SumStep(|init| as real, |comments| as real, lo, hi, OverallSum(init), comments[|comments| - 1].overall);
    }
  }

  /** Adding one more value within [lo, hi] to a total of `n` such values. */
  lemma {:induction false} SumStep(n: real, m: real, lo: real, hi: real, total: real, x: real)
    ensures m == n + 1.0 && n * lo <= total <= n * hi && lo <= x <= hi ==> m * lo <= total + x <= m * hi
  {
    if m == n + 1.0 {
      assert m * lo == n * lo + lo && m * hi == n * hi + hi;
    }
  }

  /** A quotient by a positive count of a total between count * lo and count * hi lies in [lo, hi]. */
  lemma {:induction false} MeanWithin(total: real, n: real, lo: real, hi: real)
    requires n > 0.0 && n * lo <= total <= n * hi
    ensures lo <= total / n <= hi
  {
    var m := total / n;
    assert (m - lo) * n == total - n * lo;
    assert (hi - m) * n == n * hi - total;
  }

  /** When every overall score lies between two integers, so does the average. */
  lemma {:induction false} AverageScoreWithin(comments: seq<AIComment>, lo: int, hi: int)
    requires lo <= 0 <= hi
    requires forall c :: c in comments ==> lo as real <= c.overall <= hi as real
    ensures lo <= AverageScore(comments) <= hi
  {
    if |comments| > 0 {
      OverallSumWithin(comments, lo as real, hi as real);
      MeanWithin(OverallSum(comments), |comments| as real, lo as real, hi as real);
      RoundWithin(OverallSum(comments) / |comments| as real, lo, hi);
    }
  }

  /** Scores on the 0-100 scale average to a score on that scale. */
  lemma {:induction false} PercentAverage(comments: seq<AIComment>)
    ensures (forall c :: c in comments ==> 0.0 <= c.overall <= 100.0) ==> 0 <= AverageScore(comments) <= 100
  {
    if forall c :: c in comments ==> 0.0 <= c.overall <= 100.0 {
      AverageScoreWithin(comments, 0, 100);
    }
  }

  /** Comments that all score the same average to that score, rounded. */
  lemma {:induction false} AverageOfEqualScores(comments: seq<AIComment>, v: real)
    requires |comments| > 0
    requires forall c :: c in comments ==> c.overall == v
    ensures AverageScore(comments) == Round(v)
  {
    OverallSumWithin(comments, v, v);
    MeanWithin(OverallSum(comments), |comments| as real, v, v);
  }

  // ---------------------------------------------------------------------------
  // The store

  /** Everything the store holds, as one value. */
  datatype StoreState = StoreState(
    changes: seq<Change>,
    repositories: seq<Repository>,
    currentRepo: Option<int>,
    currentBranch: Option<string>,
    pullRequests: seq<PullRequest>,
    aiComments: seq<AIComment>)

  /**
   * `setCurrentRepo(repoId)`: a non-zero id of a known repository selects it and its default
   * branch; another non-zero id changes nothing; an absent or zero id clears the repository and
   * keeps the branch.
   */
  function SelectRepo(s: StoreState, repoId: Option<int>): StoreState {
    if repoId.Some? && repoId.value != 0 then
      var i := FindFirst(s.repositories, RepositoryId, repoId.value);
      if i >= 0 then s.(currentRepo := Some(repoId.value), currentBranch := Some(s.repositories[i].defaultBranch))
      else s
    else s.(currentRepo := None)
  }

  /** The three outcomes of `setCurrentRepo`, in terms of the repositories the store knows. */
  lemma {:induction false} SelectRepoMeaning(s: StoreState, repoId: Option<int>)
    ensures repoId.None? || repoId == Some(0) ==> SelectRepo(s, repoId) == s.(currentRepo := None)
    ensures repoId.Some? && repoId.value != 0 && (forall r :: r in s.repositories ==> r.id != repoId.value)
      ==> SelectRepo(s, repoId) == s
    ensures forall i :: (0 <= i < |s.repositories| && repoId == Some(s.repositories[i].id) && repoId != Some(0)
                         && (forall j :: 0 <= j < i ==> s.repositories[j].id != s.repositories[i].id)) ==>
      SelectRepo(s, repoId) == s.(currentRepo := repoId, currentBranch := Some(s.repositories[i].defaultBranch))
  {
    if repoId.Some? && repoId.value != 0 {
      var i := FindFirst(s.repositories, RepositoryId, repoId.value);
      if forall r :: r in s.repositories ==> r.id != repoId.value {
        assert forall j :: 0 <= j < |s.repositories| ==> RepositoryId(s.repositories[j]) != repoId.value;
      }
      forall k | 0 <= k < |s.repositories| && repoId == Some(s.repositories[k].id)
        && (forall j :: 0 <= j < k ==> s.repositories[j].id != s.repositories[k].id)
        ensures i == k
      {
        assert RepositoryId(s.repositories[k]) == repoId.value;
      }
    }
  }

  class RootStore {
    var changes: seq<Change>
    var repositories: seq<Repository>
    var currentRepo: Option<int>
    var currentBranch: Option<string>
    var pullRequests: seq<PullRequest>
    var aiComments: seq<AIComment>

    function State(): StoreState
      reads this
    {
      StoreState(changes, repositories, currentRepo, currentBranch, pullRequests, aiComments)
    }

    /** At most one change per element and kind, and at most one AI comment per change. */
    ghost predicate Valid()
      reads this
    {
      UniqueKeys(changes, ChangeTarget) && UniqueKeys(aiComments, CommentChangeId)
    }

    constructor()
      ensures State() == StoreState([], [], None, None, [], [])
      ensures Valid()
    {
      changes := [];
      repositories := [];
      currentRepo := None;
      currentBranch := None;
      pullRequests := [];
      aiComments := [];
    }

    // Views

    /** `changesCount`. */
    function ChangesCount(): (n: nat)
      reads this
      ensures n == |changes|
    {
      |changes|
    }

    /** `hasChanges`. */
    function HasChanges(): (b: bool)
      reads this
      ensures b <==> ChangesCount() != 0
    {
      |changes| > 0
    }

    /** `openPullRequests`: exactly the PRs whose status is open. */
    function OpenPullRequests(): (r: seq<PullRequest>)
      reads this
      ensures forall p :: p in r <==> p in pullRequests && p.status == Open
      ensures forall p :: multiset(r)[p] == if p.status == Open then multiset(pullRequests)[p] else 0
      ensures forall a, b :: pullRequests == a + b ==> r == OpenOnly(a) + OpenOnly(b)
    {
      OpenOnlyCounts(pullRequests);
      OpenOnlyOfParts(pullRequests);
      OpenOnly(pullRequests)
    }

    /** `averagePRScore`. */
    function AveragePRScore(): (r: int)
      reads this
      ensures |aiComments| == 0 ==> r == 0
      ensures (forall c :: c in aiComments ==> 0.0 <= c.overall <= 100.0) ==> 0 <= r <= 100
    {
      PercentAverage(aiComments);
      AverageScore(aiComments)
    }

    // Actions

    /** `addChange(change)` as written: a second change for an element and kind throws and changes nothing. */
    method AddChangeAsWritten(change: Change) returns (thrown: Option<Thrown>)
      modifies this
      ensures thrown.Some? <==> UpsertChangeAsWritten(old(changes), change).Err?
      ensures thrown.Some? ==> thrown.value == ReparentError && State() == old(State())
      ensures thrown.None? ==> State() == old(State()).(changes := UpsertChange(old(changes), change))
      ensures old(Valid()) ==> Valid()
    {
      var i := FindFirst(changes, ChangeTarget, ChangeTarget(change));
      UpsertChangeMeaning(changes, change);
      if i >= 0 {
        return Some(ReparentError);
      }
      changes := changes + [change];
      thrown := None;
    }

    /** `addChange(change)`, with the replace path that keeps the entry's original side. */
    method AddChange(change: Change)
      modifies this
      ensures State() == old(State()).(changes := UpsertChange(old(changes), change))
      ensures old(Valid()) ==> Valid()
    {
      var i := FindFirst(changes, ChangeTarget, ChangeTarget(change));
      UpsertChangeMeaning(changes, change);
      if i >= 0 {
        changes := changes[i := change.(original := changes[i].original)];
      } else {
        changes := changes + [change];
      }
    }

    /** `removeChange(changeId)`. */
    method RemoveChange(changeId: string)
      modifies this
      ensures State() == old(State()).(changes := RemoveFirst(old(changes), ChangeId, changeId))
      ensures old(Valid()) ==> Valid()
    {
      RemoveFirstMeaning(changes, ChangeId, changeId, ChangeTarget);
      var i := FindFirst(changes, ChangeId, changeId);
      if i >= 0 {
        changes := changes[..i] + changes[i + 1..];
      }
    }

    /** `setRepositories(repos)`. */
    method SetRepositories(repos: seq<Repository>)
      modifies this
      ensures State() == old(State()).(repositories := repos)
      ensures old(Valid()) ==> Valid()
    {
      repositories := repos;
    }

    /** `setCurrentRepo(repoId)`; `None` is `undefined`. */
    method SetCurrentRepo(repoId: Option<int>)
      modifies this
      ensures State() == SelectRepo(old(State()), repoId)
      ensures old(Valid()) ==> Valid()
    {
      if repoId.Some? && repoId.value != 0 {
        var i := FindFirst(repositories, RepositoryId, repoId.value);
        if i >= 0 {
          currentRepo := Some(repositories[i].id);
          currentBranch := Some(repositories[i].defaultBranch);
        }
      } else {
        currentRepo := None;
      }
    }

    /** `addPullRequest(pr)`: the new PR goes first. */
    method AddPullRequest(pr: PullRequest)
      modifies this
      ensures State() == old(State()).(pullRequests := [pr] + old(pullRequests))
      ensures old(Valid()) ==> Valid()
    {
      pullRequests := [pr] + pullRequests;
    }

    /** `updatePullRequest(prId, updates)`. */
    method UpdatePullRequest(prId: string, updates: PullRequestUpdate)
      modifies this
      ensures State() == old(State()).(pullRequests := UpdatePullRequests(old(pullRequests), prId, updates))
      ensures old(Valid()) ==> Valid()
    {
      var i := FindFirst(pullRequests, PullRequestId, prId);
      if i >= 0 {
        pullRequests := pullRequests[i := Merge(pullRequests[i], updates)];
      }
    }

    /** `addAIComment(comment)`. */
    method AddAIComment(comment: AIComment)
      modifies this
      ensures State() == old(State()).(aiComments := PutComment(old(aiComments), comment))
      ensures old(Valid()) ==> Valid()
    {
      if Valid() {
        PutCommentMeaning(aiComments, comment);
      }
      var i := FindFirst(aiComments, CommentChangeId, comment.changeId);
      if i >= 0 {
        aiComments := aiComments[..i] + aiComments[i + 1..];
      }
      aiComments := aiComments + [comment];
    }

    /** `removeAIComment(commentId)`. */
    method RemoveAIComment(commentId: string)
      modifies this
      ensures State() == old(State()).(aiComments := RemoveFirst(old(aiComments), CommentId, commentId))
      ensures old(Valid()) ==> Valid()
    {
      RemoveFirstMeaning(aiComments, CommentId, commentId, CommentChangeId);
      var i := FindFirst(aiComments, CommentId, commentId);
      if i >= 0 {
        aiComments := aiComments[..i] + aiComments[i + 1..];
      }
    }
  }
}
