/** The post record of lib/types/common.ts. */
module Posts {
  import opened Wrappers

  datatype PostStatus = Draft | Scheduled | Published | Archived

  datatype ReviewStatus = Pending | Approved | Rejected

  /**
   * A post.  Optional fields are Option values; `hashtags` and `scheduledAt` may be
   * null or undefined in the source, and both read as None here.  Timestamps are the
   * source's ISO strings.
   */
  datatype Post = Post(
    id: string,
    imageUrl: Option<string>,
    images: Option<seq<string>>,
    content: string,
    hashtags: Option<string>,
    status: PostStatus,
    reviewStatus: ReviewStatus,
    createdAt: string,
    scheduledAt: Option<string>,
    likes: Option<int>,
    comments: Option<int>,
    views: Option<int>,
    isGenerating: Option<bool>,
    originalDescription: Option<string>)
}
