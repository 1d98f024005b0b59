/**
 * The bot's queue of scheduled posts: the record each `/add_post` appends, the
 * choice of the oldest unposted post, the pending count shown by `/status` and
 * the listing shown by `/list_posts`.
 */
module Posts {
  import opened Wrappers

  /** A point in time, as the ISO-formatted string the bot stores; compared only for equality. */
  type Timestamp = string

  /** One entry of `scheduled_posts`; `postedAt` is absent until the post is sent. */
  datatype ScheduledPost = ScheduledPost(
    content: string,
    createdAt: Timestamp,
    posted: bool,
    postedAt: Option<Timestamp>)

  /** A post records its sending time exactly when it has been sent. */
  predicate WellFormed(p: ScheduledPost) {
    p.posted <==> p.postedAt.Some?
  }

  /** Index of the oldest post not yet sent: `[p for p in posts if not p['posted']][0]`. */
  function FirstUnposted(posts: seq<ScheduledPost>): (r: Option<nat>)
    ensures r.Some? ==> r.value < |posts| && !posts[r.value].posted
    ensures r.Some? ==> forall j :: 0 <= j < r.value ==> posts[j].posted
    ensures r.None? <==> forall j :: 0 <= j < |posts| ==> posts[j].posted
  {
    if posts == [] then None
    else if !posts[0].posted then Some(0)
    else match FirstUnposted(posts[1..])
      case None => None
      case Some(i) => Some(i + 1)
  }

  /** `len([p for p in posts if not p['posted']])`. */
  function PendingCount(posts: seq<ScheduledPost>): (n: nat)
    ensures n <= |posts|
    ensures n == 0 <==> FirstUnposted(posts).None?
  {
    if posts == [] then 0
    else (if posts[0].posted then 0 else 1) + PendingCount(posts[1..])
  }

  /** The post at `i` marked as sent at `now`; the other posts as they were. */
  function MarkPosted(posts: seq<ScheduledPost>, i: nat, now: Timestamp): seq<ScheduledPost>
    requires i < |posts|
  {
    posts[i := posts[i].(posted := true, postedAt := Some(now))]
  }

  /** Marking an unsent post lowers the pending count by exactly one. */
  lemma {:induction false} MarkPostedPending(posts: seq<ScheduledPost>, i: nat, now: Timestamp)
    requires i < |posts| && !posts[i].posted
    ensures PendingCount(MarkPosted(posts, i, now)) == PendingCount(posts) - 1
  {
    var marked := MarkPosted(posts, i, now);
    if i > 0 {
      MarkPostedPending(posts[1..], i - 1, now);
      assert marked[1..] == MarkPosted(posts[1..], i - 1, now);
    } else {
      assert marked[1..] == posts[1..];
    }
  }

  /** Appending a post adds one to the pending count when it is unsent. */
  lemma {:induction false} PendingAppend(posts: seq<ScheduledPost>, p: ScheduledPost)
    ensures PendingCount(posts + [p]) == PendingCount(posts) + (if p.posted then 0 else 1)
  {
    if posts != [] {
      PendingAppend(posts[1..], p);
      assert (posts + [p])[1..] == posts[1..] + [p];
    } else {
      assert [] + [p] == [p];
    }
  }

  /** At most this many posts are listed. */
  const ListLimit: nat := 10
  /** Longer contents are cut to this many characters in a listing. */
  const PreviewLength: nat := 40

  /** `content[:40] + "..." if len(content) > 40 else content`. */
  function Preview(content: string): string {
    if |content| > PreviewLength then content[..PreviewLength] + "..." else content
  }

  /** One numbered line of `/list_posts`: the preview and whether the post was sent. */
  datatype PostLine = PostLine(number: nat, preview: string, posted: bool)

  /** The line for the post at position `k` (numbered from 1). */
  function LineFor(posts: seq<ScheduledPost>, k: nat): PostLine
    requires k < |posts|
  {
    PostLine(k + 1, Preview(posts[k].content), posts[k].posted)
  }

  /** How many posts the listing leaves out, stated as `... and N more posts`. */
  function Overflow(posts: seq<ScheduledPost>): (more: nat)
    ensures more > 0 <==> |posts| > ListLimit
  {
    if |posts| > ListLimit then |posts| - ListLimit else 0
  }

  /**
   * The lines of `/list_posts`: the first ten posts in insertion order, each with
   * its number, preview and status; every post is either listed or counted in the overflow.
   */
  function Listing(posts: seq<ScheduledPost>): (lines: seq<PostLine>)
    ensures |lines| <= ListLimit
    ensures |lines| + Overflow(posts) == |posts|
    ensures forall k :: 0 <= k < |lines| ==> lines[k] == LineFor(posts, k)
  {
    var shown := if |posts| < ListLimit then |posts| else ListLimit;
    seq(shown, k requires 0 <= k < shown => LineFor(posts, k))
  }

  /** `/list_posts`' loop over `scheduled_posts[:10]`, one line per post. */
  method ListLines(posts: seq<ScheduledPost>) returns (lines: seq<PostLine>)
    ensures lines == Listing(posts)
  {
    var shown := if |posts| < ListLimit then |posts| else ListLimit;
    lines := [];
    for i := 0 to shown
      invariant |lines| == i
      invariant forall k :: 0 <= k < i ==> lines[k] == LineFor(posts, k)
    {
      lines := lines + [LineFor(posts, i)];
    }
  }

  /** A listed preview is the whole content up to 40 characters, else its first 40 and `...`. */
  lemma PreviewMeaning(content: string)
    ensures |content| <= PreviewLength ==> Preview(content) == content
    ensures |content| > PreviewLength ==>
      |Preview(content)| == PreviewLength + 3
      && Preview(content)[..PreviewLength] == content[..PreviewLength]
      && Preview(content)[PreviewLength..] == "..."
  {
  }
}
