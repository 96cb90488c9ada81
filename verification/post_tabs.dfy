/** The status tabs of components/post/posts-tabs/index.tsx: their counts and the default choice. */
module PostTabs {
  import opened Wrappers

  /** The three statuses a user can filter by; scheduled posts have no tab. */
  datatype PostTab = PublishedTab | DraftTab | ArchivedTab

  datatype PostCounts = PostCounts(published: nat, draft: nat, archived: nat)

  function CountOf(counts: PostCounts, tab: PostTab): nat {
    match tab
    case PublishedTab => counts.published
    case DraftTab => counts.draft
    case ArchivedTab => counts.archived
  }

  /** Drafts first when there are any, published otherwise; archived is never the default. */
  function GetDefaultActiveTab(counts: Option<PostCounts>): (tab: PostTab)
    ensures tab == DraftTab <==> counts.Some? && counts.value.draft > 0
    ensures tab == PublishedTab <==> counts.None? || counts.value.draft == 0
    ensures tab != ArchivedTab
  {
    if counts.Some? && counts.value.draft != 0 && counts.value.draft > 0 then DraftTab
    else PublishedTab
  }

  /** Only the draft count matters to the default. */
  lemma DefaultDependsOnlyOnDrafts(a: PostCounts, b: PostCounts)
    requires a.draft == b.draft
    ensures GetDefaultActiveTab(Some(a)) == GetDefaultActiveTab(Some(b))
  {
  }

  /** The number shown on a tab: its count, or 0 when no counts are given. */
  function TabCount(counts: Option<PostCounts>, tab: PostTab): (n: nat)
    ensures counts.None? ==> n == 0
    ensures counts.Some? ==> n == CountOf(counts.value, tab)
  {
    if counts.Some? then CountOf(counts.value, tab) else 0
  }

  /** A tab carries a badge exactly when it has posts. */
  function ShowsBadge(counts: Option<PostCounts>, tab: PostTab): (shown: bool)
    ensures shown <==> counts.Some? && CountOf(counts.value, tab) > 0
  {
    TabCount(counts, tab) > 0
  }
}
