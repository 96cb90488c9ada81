/**
 * The view decisions of components/post/post-item/index.tsx: which toggle the text
 * shows, which date label is used, when engagement and the draft actions appear, which
 * media is shown, and when the loader replaces the text.
 */
module PostItem {
  import opened Wrappers
  import opened Posts
  import opened TextDisplay
  import RelativeDate
  import PostStore
  import PostTabs

  const CharacterLimit := 125

  datatype Toggle = NoToggle | LessToggle | MoreToggle

  /** What `PostText` renders: the visible content, hashtags when truthy, and the toggle. */
  datatype PostTextView = PostTextView(content: string, hashtags: Option<string>, toggle: Toggle)

  function PostText(content: string, hashtags: Option<string>, isExpanded: bool): (v: PostTextView)
    ensures var t := ProcessTextForDisplay(content, hashtags, CharacterLimit, isExpanded);
      && v.content == t.content
      && v.hashtags == t.hashtags
      && (v.toggle == LessToggle <==> isExpanded && t.shouldShowMore)
      && (v.toggle == MoreToggle <==> !isExpanded && t.shouldShowMore)
  {
    var textData := ProcessTextForDisplay(content, hashtags, CharacterLimit, isExpanded);
    var shownHashtags := if Truthy(textData.hashtags) then textData.hashtags else None;
    if isExpanded || !textData.shouldShowMore then
      PostTextView(textData.content, shownHashtags, if textData.shouldShowMore then LessToggle else NoToggle)
    else
      PostTextView(textData.content, shownHashtags, MoreToggle)
  }

  /**
   * A collapsed post never offers "less"; with "... more" it shows at most 125 characters,
   * and without it the whole text (which may exceed 125 by up to 35 hashtag characters).
   */
  lemma CollapsedTextHidesOnlyBehindMore(content: string, hashtags: Option<string>)
    ensures var v := PostText(content, hashtags, false);
      var shown := DisplayText(ProcessTextForDisplay(content, hashtags, CharacterLimit, false));
      && (v.toggle == MoreToggle ==> |shown| <= CharacterLimit)
      && (v.toggle != MoreToggle ==> shown == FullText(content, hashtags))
      && v.toggle != LessToggle
  {
    CollapsedWithinLimit(content, hashtags, CharacterLimit);
    NothingHiddenWithoutToggle(content, hashtags, CharacterLimit, false);
  }

  /** Over the limit is not enough for "... more": a hashtag overflow of at most 35 characters is shown whole. */
  lemma TolerantOverflowHasNoMore(content: string, hashtags: Option<string>)
    requires |content| < CharacterLimit < |FullText(content, hashtags)| <= CharacterLimit + SmallOverflow
    ensures var v := PostText(content, hashtags, false);
      && v.toggle == NoToggle
      && v.content == content
      && v.hashtags == hashtags
  {
    SmallHashtagOverflowShown(content, hashtags, CharacterLimit);
  }

  /**
   * The date line: "Published" with the publish time for a published post that has one,
   * "Created" with the creation time otherwise.  Parsing the ISO string is a parameter.
   */
  function DateText(post: Post, nowMs: int, parse: string -> int, loc: RelativeDate.Locale): (text: string)
    ensures post.status == Published && Truthy(post.scheduledAt) ==>
      text == "Published " + RelativeDate.FormatRelativeDate(parse(post.scheduledAt.value), nowMs, false, loc)
    ensures !(post.status == Published && Truthy(post.scheduledAt)) ==>
      text == "Created " + RelativeDate.FormatRelativeDate(parse(post.createdAt), nowMs, false, loc)
  {
    if post.status == Published && Truthy(post.scheduledAt) then
      "Published " + RelativeDate.FormatRelativeDate(parse(post.scheduledAt.value), nowMs, false, loc)
    else
      "Created " + RelativeDate.FormatRelativeDate(parse(post.createdAt), nowMs, false, loc)
  }

  /** Engagement shows for published or archived posts that have likes or comments. */
  function HasEngagement(post: Post): (shown: bool)
    ensures shown <==> (post.status == Published || post.status == Archived)
                       && (post.likes.Some? || post.comments.Some?)
  {
    (post.status == Published || post.status == Archived) && (post.likes.Some? || post.comments.Some?)
  }

  /** Approve, Edit and Reject appear, and the card's own press is disabled, for drafts only. */
  function IsDraft(post: Post): (draft: bool)
    ensures draft <==> post.status == Draft
  {
    post.status == Draft
  }

  datatype Media = Carousel(images: seq<string>) | SingleImage(url: string) | NoMedia

  /** A carousel for a non-empty image list, else the single legacy image when set, else nothing. */
  function MediaFor(post: Post): (m: Media)
    ensures m.Carousel? <==> post.images.Some? && |post.images.value| > 0
    ensures m.Carousel? ==> m.images == post.images.value
    ensures m.SingleImage? <==> !(post.images.Some? && |post.images.value| > 0) && Truthy(post.imageUrl)
    ensures m.SingleImage? ==> m.url == post.imageUrl.value
  {
    if post.images.Some? && |post.images.value| > 0 then Carousel(post.images.value)
    else if Truthy(post.imageUrl) then SingleImage(post.imageUrl.value)
    else NoMedia
  }

  datatype Body = Loader | Text(view: PostTextView)

  /** The loader replaces the text exactly while the post is generating. */
  function BodyFor(post: Post, isExpanded: bool): (b: Body)
    ensures b.Loader? <==> post.isGenerating == Some(true)
    ensures b.Text? ==> b.view == PostText(post.content, post.hashtags, isExpanded)
  {
    if post.isGenerating == Some(true) then Loader else Text(PostText(post.content, post.hashtags, isExpanded))
  }

  /** Everything a rendered card decides. */
  datatype Card = Card(media: Media, body: Body, dateText: string, engagement: bool, actions: bool, pressDisabled: bool)

  function RenderPostItem(post: Post, isExpanded: bool, nowMs: int, parse: string -> int, loc: RelativeDate.Locale): (c: Card)
    ensures c.actions <==> post.status == Draft
    ensures c.pressDisabled == c.actions
    ensures c.engagement ==> !c.actions
    ensures c.body.Text? ==> c.body.view.toggle != LessToggle || isExpanded
  {
    Card(MediaFor(post), BodyFor(post, isExpanded), DateText(post, nowMs, parse, loc),
         HasEngagement(post), IsDraft(post), IsDraft(post))
  }

  /**
   * A freshly added draft renders as a loader with the draft actions, no engagement and
   * its creation date; once its generation completes, the same card shows the generated
   * text, still with the draft actions.
   */
  lemma DraftCardLifecycle(posts: seq<Post>, images: seq<string>, description: string, newPostId: string,
                           createdAt: string, nowMs: int, parse: string -> int, loc: RelativeDate.Locale)
    requires forall i :: 0 <= i < |posts| ==> posts[i].id != newPostId
    ensures var added := PostStore.AddDraftPost(posts, images, description, newPostId, createdAt).0;
      var c := RenderPostItem(added[0], false, nowMs, parse, loc);
      && c.body == Loader && c.actions && c.pressDisabled && !c.engagement
      && c.media == (if |images| > 0 then Carousel(images) else NoMedia)
      && c.dateText == "Created " + RelativeDate.FormatRelativeDate(parse(createdAt), nowMs, false, loc)
    ensures var added := PostStore.AddDraftPost(posts, images, description, newPostId, createdAt).0;
      var done := PostStore.CompleteGeneration(added, newPostId, description);
      var c := RenderPostItem(done[0], false, nowMs, parse, loc);
      && c.body == Text(PostText(PostStore.GeneratedContent(description), Some(PostStore.GeneratedHashtags), false))
      && c.actions
  {
    var s := PostStore.Store(posts, PostTabs.DraftTab);
    PostStore.DraftLifecycle(s, images, description, newPostId, createdAt);
    var added := PostStore.AddDraftPost(posts, images, description, newPostId, createdAt).0;
    PostStore.CompleteOnlyHead(added[0], posts, description);
    assert added == [added[0]] + posts;
  }
}
