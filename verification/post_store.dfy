/**
 * The post store of contexts/posts-context.tsx as a value with pure transitions:
 * counting and filtering by status, shallow-merge update by id, prepending a fresh
 * draft, and the completion that fills a generated draft in.  Ids and timestamps the
 * source takes from the clock are parameters.
 */
module PostStore {
  import opened Wrappers
  import opened Posts
  import opened PostTabs

  function TabStatus(tab: PostTab): PostStatus {
    match tab
    case PublishedTab => Published
    case DraftTab => Draft
    case ArchivedTab => Archived
  }

  /** Positions of the posts that have a given status: the independent account of a filter. */
  ghost function StatusIndices(posts: seq<Post>, status: PostStatus): set<int> {
    set i | 0 <= i < |posts| && posts[i].status == status
  }

  lemma StatusIndicesSnoc(posts: seq<Post>, status: PostStatus)
    requires |posts| > 0
    ensures var n := |posts| - 1;
      StatusIndices(posts, status)
      == StatusIndices(posts[..n], status) + (if posts[n].status == status then {n} else {})
  {
    var n := |posts| - 1;
    forall i | 0 <= i < n
      ensures posts[..n][i] == posts[i]
    {
    }
  }

  /** `posts.filter(post => post.status === status)`. */
  function FilterPostsByStatus(posts: seq<Post>, tab: PostTab): (r: seq<Post>)
    ensures forall k :: 0 <= k < |r| ==> r[k].status == TabStatus(tab)
    ensures |r| <= |posts|
    decreases |posts|
  {
    if |posts| == 0 then []
    else
      var n := |posts| - 1;
      FilterPostsByStatus(posts[..n], tab) + (if posts[n].status == TabStatus(tab) then [posts[n]] else [])
  }

  /** The filter keeps one post for each position holding the tab's status. */
  lemma {:induction false} FilterLengthIsStatusPositions(posts: seq<Post>, tab: PostTab)
    ensures |FilterPostsByStatus(posts, tab)| == |StatusIndices(posts, TabStatus(tab))|
    decreases |posts|
  {
    if |posts| > 0 {
      StatusIndicesSnoc(posts, TabStatus(tab));
      FilterLengthIsStatusPositions(posts[..|posts| - 1], tab);
    }
  }

  /** Every post with the tab's status is in the filtered list. */
  lemma {:induction false} FilterKeepsEveryMatch(posts: seq<Post>, tab: PostTab)
    ensures forall i :: 0 <= i < |posts| && posts[i].status == TabStatus(tab) ==> posts[i] in FilterPostsByStatus(posts, tab)
    decreases |posts|
  {
    if |posts| > 0 {
      var n := |posts| - 1;
      FilterKeepsEveryMatch(posts[..n], tab);
      assert forall i :: 0 <= i < n ==> posts[..n][i] == posts[i];
    }
  }

  /** One list is an order-preserving selection from another, witnessed by increasing positions. */
  ghost predicate IsEmbedding(positions: seq<int>, sub: seq<Post>, posts: seq<Post>) {
    && |positions| == |sub|
    && (forall k :: 0 <= k < |positions| ==> 0 <= positions[k] < |posts| && sub[k] == posts[positions[k]])
    && (forall k :: 0 < k < |positions| ==> positions[k - 1] < positions[k])
  }

  ghost predicate IsSubsequence(sub: seq<Post>, posts: seq<Post>) {
    exists positions :: IsEmbedding(positions, sub, posts)
  }

  lemma EmbeddingWidens(positions: seq<int>, sub: seq<Post>, posts: seq<Post>, n: nat)
    requires n <= |posts|
    requires IsEmbedding(positions, sub, posts[..n])
    ensures IsEmbedding(positions, sub, posts)
  {
  }

  lemma EmbeddingSnoc(positions: seq<int>, sub: seq<Post>, posts: seq<Post>)
    requires |posts| > 0
    requires IsEmbedding(positions, sub, posts[..|posts| - 1])
    ensures IsEmbedding(positions + [|posts| - 1], sub + [posts[|posts| - 1]], posts)
  {
    EmbeddingWidens(positions, sub, posts, |posts| - 1);
  }

  /** The filtered view keeps the posts in their original order. */
  lemma {:induction false} FilterIsSubsequence(posts: seq<Post>, tab: PostTab)
    ensures IsSubsequence(FilterPostsByStatus(posts, tab), posts)
    decreases |posts|
  {
    if |posts| == 0 {
      assert IsEmbedding([], [], posts);
    } else {
      var n := |posts| - 1;
      FilterIsSubsequence(posts[..n], tab);
      var sub := FilterPostsByStatus(posts[..n], tab);
      var positions :| IsEmbedding(positions, sub, posts[..n]);
      if posts[n].status == TabStatus(tab) {
        EmbeddingSnoc(positions, sub, posts);
        assert IsEmbedding(positions + [n], FilterPostsByStatus(posts, tab), posts);
      } else {
        EmbeddingWidens(positions, sub, posts, n);
        assert IsEmbedding(positions, FilterPostsByStatus(posts, tab), posts);
      }
    }
  }

  lemma {:induction false} FilterAppend(a: seq<Post>, b: seq<Post>, tab: PostTab)
    ensures FilterPostsByStatus(a + b, tab) == FilterPostsByStatus(a, tab) + FilterPostsByStatus(b, tab)
    decreases |b|
  {
    if |b| == 0 {
      assert a + b == a;
    } else {
      var n := |b| - 1;
      assert (a + b)[..|a + b| - 1] == a + b[..n];
      FilterAppend(a, b[..n], tab);
    }
  }

  /** `calculatePostCounts`: a left fold over the posts that counts the three tab statuses. */
  function CalculatePostCounts(posts: seq<Post>): (c: PostCounts)
    ensures c.published + c.draft + c.archived <= |posts|
    decreases |posts|
  {
    if |posts| == 0 then PostCounts(0, 0, 0)
    else
      var counts := CalculatePostCounts(posts[..|posts| - 1]);
      match posts[|posts| - 1].status
      case Published => counts.(published := counts.published + 1)
      case Draft => counts.(draft := counts.draft + 1)
      case Archived => counts.(archived := counts.archived + 1)
      case Scheduled => counts
  }

  /** Each count is the length of the matching filtered view, so counts and views always agree. */
  lemma {:induction false} CountsMatchFilter(posts: seq<Post>)
    ensures var c := CalculatePostCounts(posts);
      && c.published == |FilterPostsByStatus(posts, PublishedTab)|
      && c.draft == |FilterPostsByStatus(posts, DraftTab)|
      && c.archived == |FilterPostsByStatus(posts, ArchivedTab)|
    decreases |posts|
  {
    if |posts| > 0 {
      CountsMatchFilter(posts[..|posts| - 1]);
    }
  }

  /** The counts depend on the statuses alone, position by position. */
  lemma {:induction false} SameStatusesSameCounts(a: seq<Post>, b: seq<Post>)
    requires |a| == |b|
    requires forall i :: 0 <= i < |a| ==> a[i].status == b[i].status
    ensures CalculatePostCounts(a) == CalculatePostCounts(b)
    decreases |a|
  {
    if |a| > 0 {
      var n := |a| - 1;
      assert forall i :: 0 <= i < n ==> a[..n][i].status == b[..n][i].status;
      SameStatusesSameCounts(a[..n], b[..n]);
    }
  }

  /** `Partial<Post>`: a field is overwritten exactly when the patch carries it. */
  datatype PostPatch = PostPatch(
    id: Option<string>,
    imageUrl: Option<Option<string>>,
    images: Option<Option<seq<string>>>,
    content: Option<string>,
    hashtags: Option<Option<string>>,
    status: Option<PostStatus>,
    reviewStatus: Option<ReviewStatus>,
    createdAt: Option<string>,
    scheduledAt: Option<Option<string>>,
    likes: Option<Option<int>>,
    comments: Option<Option<int>>,
    views: Option<Option<int>>,
    isGenerating: Option<Option<bool>>,
    originalDescription: Option<Option<string>>)

  const EmptyPatch := PostPatch(None, None, None, None, None, None, None, None, None, None, None, None, None, None)

  /** `r` takes each field the patch carries from the patch and every other field from `p`. */
  ghost predicate Merged(p: Post, patch: PostPatch, r: Post) {
    && (if patch.id.Some? then r.id == patch.id.value else r.id == p.id)
    && (if patch.imageUrl.Some? then r.imageUrl == patch.imageUrl.value else r.imageUrl == p.imageUrl)
    && (if patch.images.Some? then r.images == patch.images.value else r.images == p.images)
    && (if patch.content.Some? then r.content == patch.content.value else r.content == p.content)
    && (if patch.hashtags.Some? then r.hashtags == patch.hashtags.value else r.hashtags == p.hashtags)
    && (if patch.status.Some? then r.status == patch.status.value else r.status == p.status)
    && (if patch.reviewStatus.Some? then r.reviewStatus == patch.reviewStatus.value else r.reviewStatus == p.reviewStatus)
    && (if patch.createdAt.Some? then r.createdAt == patch.createdAt.value else r.createdAt == p.createdAt)
    && (if patch.scheduledAt.Some? then r.scheduledAt == patch.scheduledAt.value else r.scheduledAt == p.scheduledAt)
    && (if patch.likes.Some? then r.likes == patch.likes.value else r.likes == p.likes)
    && (if patch.comments.Some? then r.comments == patch.comments.value else r.comments == p.comments)
    && (if patch.views.Some? then r.views == patch.views.value else r.views == p.views)
    && (if patch.isGenerating.Some? then r.isGenerating == patch.isGenerating.value else r.isGenerating == p.isGenerating)
    && (if patch.originalDescription.Some? then r.originalDescription == patch.originalDescription.value
        else r.originalDescription == p.originalDescription)
  }

  /** `{ ...post, ...patch }`. */
  function ApplyPatch(p: Post, patch: PostPatch): (r: Post)
    ensures Merged(p, patch, r)
  {
    Post(
      Override(p.id, patch.id),
      Override(p.imageUrl, patch.imageUrl),
      Override(p.images, patch.images),
      Override(p.content, patch.content),
      Override(p.hashtags, patch.hashtags),
      Override(p.status, patch.status),
      Override(p.reviewStatus, patch.reviewStatus),
      Override(p.createdAt, patch.createdAt),
      Override(p.scheduledAt, patch.scheduledAt),
      Override(p.likes, patch.likes),
      Override(p.comments, patch.comments),
      Override(p.views, patch.views),
      Override(p.isGenerating, patch.isGenerating),
      Override(p.originalDescription, patch.originalDescription))
  }

  /** `{ ...a, ...b }` on patches: the later patch wins where both carry a field. */
  function CombinePatches(a: PostPatch, b: PostPatch): PostPatch {
    PostPatch(
      if b.id.Some? then b.id else a.id,
      if b.imageUrl.Some? then b.imageUrl else a.imageUrl,
      if b.images.Some? then b.images else a.images,
      if b.content.Some? then b.content else a.content,
      if b.hashtags.Some? then b.hashtags else a.hashtags,
      if b.status.Some? then b.status else a.status,
      if b.reviewStatus.Some? then b.reviewStatus else a.reviewStatus,
      if b.createdAt.Some? then b.createdAt else a.createdAt,
      if b.scheduledAt.Some? then b.scheduledAt else a.scheduledAt,
      if b.likes.Some? then b.likes else a.likes,
      if b.comments.Some? then b.comments else a.comments,
      if b.views.Some? then b.views else a.views,
      if b.isGenerating.Some? then b.isGenerating else a.isGenerating,
      if b.originalDescription.Some? then b.originalDescription else a.originalDescription)
  }

  /** The merge is determined field by field: only one post is merged from a post and a patch. */
  lemma MergedIsUnique(p: Post, patch: PostPatch, r1: Post, r2: Post)
    requires Merged(p, patch, r1) && Merged(p, patch, r2)
    ensures r1 == r2
  {
  }

  /** The merge laws: the empty patch changes nothing, a patch applied twice acts once, and two patches in a row act as their combination. */
  lemma PatchLaws(p: Post, a: PostPatch, b: PostPatch)
    ensures ApplyPatch(p, EmptyPatch) == p
    ensures ApplyPatch(ApplyPatch(p, a), a) == ApplyPatch(p, a)
    ensures ApplyPatch(ApplyPatch(p, a), b) == ApplyPatch(p, CombinePatches(a, b))
  {
  }

  /** `posts.map(post => post.id === postId ? { ...post, ...updates } : post)`. */
  function UpdatePost(posts: seq<Post>, postId: string, patch: PostPatch): (r: seq<Post>)
    ensures |r| == |posts|
    ensures forall i :: 0 <= i < |posts| && posts[i].id != postId ==> r[i] == posts[i]
    ensures forall i :: 0 <= i < |posts| && posts[i].id == postId ==> r[i] == ApplyPatch(posts[i], patch)
    ensures patch.id.None? ==> forall i :: 0 <= i < |posts| ==> r[i].id == posts[i].id
    ensures patch.status.None? ==> forall i :: 0 <= i < |posts| ==> r[i].status == posts[i].status
    ensures (forall i :: 0 <= i < |posts| ==> posts[i].id != postId) ==> r == posts
  {
    seq(|posts|, i requires 0 <= i < |posts| => if posts[i].id == postId then ApplyPatch(posts[i], patch) else posts[i])
  }

  /** An update that leaves the status alone leaves every count alone. */
  lemma UpdateKeepsCounts(posts: seq<Post>, postId: string, patch: PostPatch)
    requires patch.status.None?
    ensures CalculatePostCounts(UpdatePost(posts, postId, patch)) == CalculatePostCounts(posts)
  {
    SameStatusesSameCounts(UpdatePost(posts, postId, patch), posts);
  }

  /** The post `addDraftPost` creates, before generation fills it in. */
  ghost predicate IsPendingDraft(p: Post, postId: string, images: seq<string>, description: string, createdAt: string) {
    && p.id == postId
    && p.images == Some(images)
    && p.imageUrl.None?
    && p.content == ""
    && p.hashtags == Some("")
    && p.status == Draft
    && p.reviewStatus == Pending
    && p.createdAt == createdAt
    && p.scheduledAt.None?
    && p.likes.None? && p.comments.None? && p.views.None?
    && p.isGenerating == Some(true)
    && p.originalDescription == Some(description)
  }

  /**
   * `addDraftPost`: prepends a pending draft and returns its id.  The id
   * (`Date.now().toString()`) and the ISO creation time are supplied by the caller.
   */
  function AddDraftPost(posts: seq<Post>, images: seq<string>, description: string, newPostId: string, createdAt: string)
    : (r: (seq<Post>, string))
    ensures |r.0| == |posts| + 1
    ensures r.0[1..] == posts
    ensures r.1 == newPostId
    ensures IsPendingDraft(r.0[0], newPostId, images, description, createdAt)
  {
    var newPost := Post(newPostId, None, Some(images), "", Some(""), Draft, Pending, createdAt,
                        None, None, None, None, Some(true), Some(description));
    ([newPost] + posts, newPostId)
  }

  /** A new draft adds one to the draft count and nothing to the others. */
  lemma AddDraftCounts(posts: seq<Post>, images: seq<string>, description: string, newPostId: string, createdAt: string)
    ensures var before, after := CalculatePostCounts(posts),
                                 CalculatePostCounts(AddDraftPost(posts, images, description, newPostId, createdAt).0);
      && after.draft == before.draft + 1
      && after.published == before.published
      && after.archived == before.archived
  {
    var r := AddDraftPost(posts, images, description, newPostId, createdAt).0;
    CountsMatchFilter(posts);
    CountsMatchFilter(r);
    assert r == [r[0]] + posts;
    assert FilterPostsByStatus([r[0]], DraftTab) == [r[0]] by {
      assert [r[0]][..0] == [];
    }
    assert |FilterPostsByStatus([r[0]], PublishedTab)| == 0 by {
      assert [r[0]][..0] == [];
    }
    assert |FilterPostsByStatus([r[0]], ArchivedTab)| == 0 by {
      assert [r[0]][..0] == [];
    }
    FilterAppend([r[0]], posts, DraftTab);
    FilterAppend([r[0]], posts, PublishedTab);
    FilterAppend([r[0]], posts, ArchivedTab);
  }

  const GeneratedSuffix := "\n\nOur expert team is here to help you look and feel your best!"
  const DefaultGeneratedContent := "Check out our latest work! Our expert team is here to help you look and feel your best!"
  const GeneratedHashtags := "#beauty #selfcare #professional #transformation #confidence"

  /** The simulated model output: the description with a fixed closing line, or a stock text for an empty one. */
  function GeneratedContent(description: string): (c: string)
    ensures |c| > 0
    ensures |description| > 0 ==> |description| < |c| && c[..|description|] == description
    ensures |description| > 0 ==> c[|description|..] == GeneratedSuffix
    ensures |description| == 0 ==> c == DefaultGeneratedContent
  {
    if |description| > 0 then description + GeneratedSuffix else DefaultGeneratedContent
  }

  function GenerationPatch(description: string): PostPatch {
    EmptyPatch.(content := Some(GeneratedContent(description)),
                hashtags := Some(Some(GeneratedHashtags)),
                isGenerating := Some(Some(false)))
  }

  /**
   * The completion the source schedules three seconds after `addDraftPost`, as an
   * ordinary operation: it fills in the post with that id and touches nothing else.
   */
  function CompleteGeneration(posts: seq<Post>, postId: string, description: string): (r: seq<Post>)
    ensures |r| == |posts|
    ensures forall i :: 0 <= i < |posts| && posts[i].id != postId ==> r[i] == posts[i]
    ensures forall i :: 0 <= i < |posts| && posts[i].id == postId ==>
      r[i] == posts[i].(content := GeneratedContent(description),
                        hashtags := Some(GeneratedHashtags),
                        isGenerating := Some(false))
  {
    UpdatePost(posts, postId, GenerationPatch(description))
  }

  /** The completion never changes a status, so it never changes a count. */
  lemma CompletionKeepsCounts(posts: seq<Post>, postId: string, description: string)
    ensures CalculatePostCounts(CompleteGeneration(posts, postId, description)) == CalculatePostCounts(posts)
  {
    UpdateKeepsCounts(posts, postId, GenerationPatch(description));
  }

  /** The store: the canonical list and the tab the list view filters by. */
  datatype Store = Store(posts: seq<Post>, activeFilter: PostTab)

  /** The provider's start: the given posts, filtered by drafts exactly when there is one. */
  function InitStore(initial: seq<Post>): (s: Store)
    ensures s.posts == initial
    ensures s.activeFilter == DraftTab <==> exists i :: 0 <= i < |initial| && initial[i].status == Draft
    ensures s.activeFilter != ArchivedTab
  {
    var counts := CalculatePostCounts(initial);
    CountsMatchFilter(initial);
    FilterKeepsEveryMatch(initial, DraftTab);
    assert counts.draft > 0 ==> exists i :: 0 <= i < |initial| && initial[i].status == Draft by {
      FilterLengthIsStatusPositions(initial, DraftTab);
      if counts.draft > 0 {
        var i :| i in StatusIndices(initial, Draft);
      }
    }
    Store(initial, GetDefaultActiveTab(Some(counts)))
  }

  /** `setActiveFilter`: switching tabs selects another view and never touches the posts. */
  function SetActiveFilter(s: Store, tab: PostTab): (r: Store)
    ensures r.posts == s.posts
    ensures r.activeFilter == tab
  {
    s.(activeFilter := tab)
  }

  /** The `postCounts` memo: each tab's count is the length of that tab's view. */
  function PostCountsOf(s: Store): (counts: PostCounts)
    ensures forall tab :: CountOf(counts, tab) == |FilterPostsByStatus(s.posts, tab)|
  {
    CountsMatchFilter(s.posts);
    CalculatePostCounts(s.posts)
  }

  /** The view the list renders: the active tab's posts, as many as its count says. */
  function FilteredPosts(s: Store): (view: seq<Post>)
    ensures |view| == CountOf(PostCountsOf(s), s.activeFilter)
    ensures IsSubsequence(view, s.posts)
    ensures forall k :: 0 <= k < |view| ==> view[k].status == TabStatus(s.activeFilter)
  {
    CountsMatchFilter(s.posts);
    FilterIsSubsequence(s.posts, s.activeFilter);
    FilterPostsByStatus(s.posts, s.activeFilter)
  }

  /** A tab carries a badge exactly when switching to it would show a non-empty list. */
  lemma BadgeMeansNonEmptyView(s: Store, tab: PostTab)
    ensures ShowsBadge(Some(PostCountsOf(s)), tab) <==> |FilteredPosts(SetActiveFilter(s, tab))| > 0
  {
  }

  /** Completing the head post of a list whose other ids differ changes only that head. */
  lemma CompleteOnlyHead(head: Post, rest: seq<Post>, description: string)
    requires forall i :: 0 <= i < |rest| ==> rest[i].id != head.id
    ensures CompleteGeneration([head] + rest, head.id, description)
         == [head.(content := GeneratedContent(description),
                   hashtags := Some(GeneratedHashtags),
                   isGenerating := Some(false))] + rest
  {
    var posts := [head] + rest;
    var done := CompleteGeneration(posts, head.id, description);
    assert posts[0] == head;
    forall i | 1 <= i < |done|
      ensures done[i] == rest[i - 1]
    {
      assert posts[i] == rest[i - 1];
    }
  }

  /**
   * A draft's life: once added with an id no other post has, it is in the draft view
   * and generating; its completion fills it in, keeps the rest of the list, and the
   * draft count stays one above where it started.
   */
  lemma DraftLifecycle(s: Store, images: seq<string>, description: string, newPostId: string, createdAt: string)
    requires forall i :: 0 <= i < |s.posts| ==> s.posts[i].id != newPostId
    ensures var added := AddDraftPost(s.posts, images, description, newPostId, createdAt).0;
      var done := CompleteGeneration(added, newPostId, description);
      && added[0] in FilteredPosts(Store(added, DraftTab))
      && added[0].isGenerating == Some(true) && added[0].content == ""
      && done[0].id == newPostId
      && done[0].isGenerating == Some(false)
      && done[0].status == Draft
      && done[0].content == GeneratedContent(description)
      && done[1..] == s.posts
      && CalculatePostCounts(done).draft == CalculatePostCounts(s.posts).draft + 1
  {
    var added := AddDraftPost(s.posts, images, description, newPostId, createdAt).0;
    AddDraftCounts(s.posts, images, description, newPostId, createdAt);
    CompletionKeepsCounts(added, newPostId, description);
    FilterKeepsEveryMatch(added, DraftTab);
    assert added == [added[0]] + s.posts;
    CompleteOnlyHead(added[0], s.posts, description);
  }
}
