/**
 * The display-text truncator of lib/helpers/text.ts: given a post's body, its optional
 * hashtag string, a character budget and the expansion flag, it decides which prefix
 * of each to show and whether a "more"/"less" toggle is offered.
 *
 * Lengths are `|s|` of `seq<char>`; the source counts UTF-16 code units.
 */
module TextDisplay {
  import opened Wrappers
  import opened Strings

  /** Hidden hashtag overflow up to this many characters is shown in full instead of behind "more". */
  const SmallOverflow := 35

  /** The result shape (`TextTruncationResult`): absent optional fields are None. */
  datatype Truncation = Truncation(
    content: string,
    hashtags: Option<string>,
    shouldShowMore: bool,
    remainingChars: Option<int>)

  /** JavaScript truthiness of a `string | null | undefined`: present and non-empty. */
  predicate Truthy(s: Option<string>) {
    s.Some? && |s.value| > 0
  }

  /** `s || undefined`: an empty or absent string becomes absent. */
  function OrUndefined(s: Option<string>): (r: Option<string>)
    ensures Truthy(s) ==> r == s
    ensures !Truthy(s) ==> r.None?
  {
    if Truthy(s) then s else None
  }

  /** `s.slice(0, end)`: a negative end counts back from the end of `s`, and the cut is clamped to `s`. */
  function SliceTo(s: string, end: int): (r: string)
    ensures IsPrefix(r, s)
    ensures 0 <= end <= |s| ==> r == s[..end]
    ensures end >= |s| ==> r == s
    ensures end < 0 ==> |r| == (if |s| + end < 0 then 0 else |s| + end)
  {
    if end < 0 then (if |s| + end < 0 then [] else s[..|s| + end])
    else if end > |s| then s
    else s[..end]
  }

  /** The text whose length is compared with the limit: the content, then a space and the hashtags if any. */
  function FullText(content: string, hashtags: Option<string>): (t: string)
    ensures IsPrefix(content, t)
    ensures Truthy(hashtags) ==> |t| == |content| + 1 + |hashtags.value|
    ensures Truthy(hashtags) ==> t == content + " " + hashtags.value
    ensures !Truthy(hashtags) ==> t == content
  {
    content + (if Truthy(hashtags) then " " + hashtags.value else "")
  }

  /** What a view renders from a result: the content, then a space and the hashtags when present. */
  function DisplayText(r: Truncation): string {
    r.content + (if r.hashtags.Some? then " " + r.hashtags.value else "")
  }

  function ProcessTextForDisplay(content: string, hashtags: Option<string>, limit: int, isExpanded: bool): (r: Truncation)
    // the shown content and hashtags are prefixes of the given ones
    ensures IsPrefix(r.content, content)
    ensures r.hashtags.Some? ==> Truthy(hashtags) && IsPrefix(r.hashtags.value, hashtags.value)
    // an absent value is never represented by an empty string
    ensures r.hashtags.Some? ==> |r.hashtags.value| > 0
    // a count of hidden characters accompanies exactly the truncated results, and is positive
    ensures r.remainingChars.Some? ==> r.shouldShowMore && !isExpanded
    ensures r.remainingChars.Some? ==> r.remainingChars.value == |FullText(content, hashtags)| - limit >= 1
  {
    var fullLength := |FullText(content, hashtags)|;
    var shouldShowMore := fullLength > limit;
    if isExpanded || !shouldShowMore then
      Truncation(content, OrUndefined(hashtags), shouldShowMore, None)
    else
      var remaining := fullLength - limit;
      if limit <= |content| then
        Truncation(SliceTo(content, limit), None, true, Some(remaining))
      else if Truthy(hashtags) && remaining <= SmallOverflow then
        Truncation(content, hashtags, false, None)
      else
        var budget := limit - |content| - 1;
        var visible := if Truthy(hashtags) then SliceTo(hashtags.value, budget) else "";
        Truncation(content, if |visible| > 0 then Some(visible) else None, true, Some(remaining))
  }

  /** When everything fits, nothing is cut and no toggle is offered, whatever the expansion flag. */
  lemma FitsIsUntouched(content: string, hashtags: Option<string>, limit: int, isExpanded: bool)
    requires |content| + (if Truthy(hashtags) then 1 + |hashtags.value| else 0) <= limit
    ensures ProcessTextForDisplay(content, hashtags, limit, isExpanded)
         == Truncation(content, OrUndefined(hashtags), false, None)
  {
  }

  /** Expanded text is never cut; the flag still reports whether the full text exceeds the limit. */
  lemma ExpandedIsUntouched(content: string, hashtags: Option<string>, limit: int)
    ensures var r := ProcessTextForDisplay(content, hashtags, limit, true);
      && r.content == content
      && r.hashtags == OrUndefined(hashtags)
      && (r.shouldShowMore <==> |FullText(content, hashtags)| > limit)
      && DisplayText(r) == FullText(content, hashtags)
  {
  }

  /** A limit inside the content keeps exactly its first `limit` characters and drops the hashtags. */
  lemma CutInsideContent(content: string, hashtags: Option<string>, limit: int)
    requires 0 <= limit <= |content|
    requires limit < |FullText(content, hashtags)|
    ensures ProcessTextForDisplay(content, hashtags, limit, false)
         == Truncation(content[..limit], None, true, Some(|FullText(content, hashtags)| - limit))
  {
  }

  /** A hashtag overflow of at most 35 characters is shown in full without a toggle. */
  lemma SmallHashtagOverflowShown(content: string, hashtags: Option<string>, limit: int)
    requires |content| < limit < |FullText(content, hashtags)|
    requires |FullText(content, hashtags)| - limit <= SmallOverflow
    ensures Truthy(hashtags)
    ensures ProcessTextForDisplay(content, hashtags, limit, false)
         == Truncation(content, hashtags, false, None)
  {
  }

  /**
   * A larger hashtag overflow keeps the content and the first `limit - |content| - 1`
   * hashtag characters (one is spent on the joining space); that budget is never
   * negative and always leaves some hashtag characters hidden.
   */
  lemma CutInsideHashtags(content: string, hashtags: Option<string>, limit: int)
    requires |content| < limit < |FullText(content, hashtags)|
    requires |FullText(content, hashtags)| - limit > SmallOverflow
    ensures Truthy(hashtags)
    ensures 0 <= limit - |content| - 1 < |hashtags.value|
    ensures var visible := hashtags.value[..limit - |content| - 1];
      ProcessTextForDisplay(content, hashtags, limit, false)
      == Truncation(content, if |visible| > 0 then Some(visible) else None, true,
                    Some(|FullText(content, hashtags)| - limit))
  {
  }

  /** Whatever is shown is the beginning of the full text. */
  lemma DisplayIsPrefixOfFullText(content: string, hashtags: Option<string>, limit: int, isExpanded: bool)
    ensures IsPrefix(DisplayText(ProcessTextForDisplay(content, hashtags, limit, isExpanded)),
                     FullText(content, hashtags))
  {
    var r := ProcessTextForDisplay(content, hashtags, limit, isExpanded);
    var full := FullText(content, hashtags);
    if r.hashtags.Some? {
      var h := r.hashtags.value;
      assert r.content == content;
      assert full == content + " " + hashtags.value;
      assert DisplayText(r) == content + " " + h;
      assert hashtags.value[..|h|] == h;
      assert full[..|DisplayText(r)|] == DisplayText(r);
    }
  }

  /**
   * Text is hidden only behind a toggle: if no "more"/"less" is offered, the full text is shown.
   */
  lemma NothingHiddenWithoutToggle(content: string, hashtags: Option<string>, limit: int, isExpanded: bool)
    ensures var r := ProcessTextForDisplay(content, hashtags, limit, isExpanded);
      !r.shouldShowMore ==> DisplayText(r) == FullText(content, hashtags)
  {
  }

  /** A collapsed, truncated result never shows more than `limit` characters. */
  lemma {:induction false} CollapsedWithinLimit(content: string, hashtags: Option<string>, limit: int)
    requires limit >= 0
    ensures var r := ProcessTextForDisplay(content, hashtags, limit, false);
      r.shouldShowMore ==> |DisplayText(r)| <= limit
  {
    var r := ProcessTextForDisplay(content, hashtags, limit, false);
    if r.shouldShowMore && |content| < limit {
      assert Truthy(hashtags);
      var budget := limit - |content| - 1;
      assert r.hashtags.Some? ==> |r.hashtags.value| == budget;
    }
  }

  /** Hashtags only, no body: a long tag string is cut after `limit - 1` characters. */
  lemma HashtagsOnlyExample()
    ensures var kept, cut := "#spa #beauty #relax", " #wellness #selfcare #luxury #treatment";
      ProcessTextForDisplay("", Some(kept + cut), 20, false)
      == Truncation("", Some(kept), true, Some(1 + |kept + cut| - 20))
  {
    var kept, cut := "#spa #beauty #relax", " #wellness #selfcare #luxury #treatment";
    assert (kept + cut)[..19] == kept;
  }

  /** "Hello world" with a long hashtag string and limit 20 keeps 8 hashtag characters. */
  lemma HelloWorldExample()
    ensures var kept, cut := "#spa #be", "auty #relax #wellness #selfcare #luxury #treatment #pamper #glow";
      ProcessTextForDisplay("Hello world", Some(kept + cut), 20, false)
      == Truncation("Hello world", Some(kept), true, Some(11 + 1 + |kept + cut| - 20))
  {
    var kept, cut := "#spa #be", "auty #relax #wellness #selfcare #luxury #treatment #pamper #glow";
    assert (kept + cut)[..8] == kept;
  }
}
