/**
  The plan display (frontend/src/components/CalendarView.jsx) as a
  projection from the calendar the browser received to what the page shows:
  a heading with the week number, one block per post in the order received,
  and an engagement section for the posts that carry comments.
 */
module CalendarView {
  import opened Models

  /**
    A post as the browser sees it in the response body. The renderer does
    not rely on the server always sending `comments`, so the field may be
    missing.
   */
  datatype PostData = PostData(
    day: string,
    subreddit: string,
    author: string,
    title: string,
    content: string,
    comments: Option<seq<Comment>>)

  /** The calendar as received: a week number and the posts in order. */
  datatype CalendarData = CalendarData(weekNumber: int, posts: seq<PostData>)

  /** One rendered comment: the avatar initial, the author and the text. */
  datatype CommentLine = CommentLine(initial: string, author: string, content: string)

  /** One rendered post card; `engagement` is the "Simulated Engagement" section, when shown. */
  datatype PostBlock = PostBlock(
    day: string,
    subreddit: string,
    author: string,
    title: string,
    content: string,
    engagement: Option<seq<CommentLine>>)

  /** The rendered page: the "Week N Plan" heading and the post cards. */
  datatype PlanView = PlanView(heading: int, blocks: seq<PostBlock>)

  /** The JSON body the generation service returns for a calendar: every post carries its comment list. */
  function Serialize(c: WeekCalendar): (data: CalendarData)
    ensures data.weekNumber == c.weekNumber
    ensures |data.posts| == |c.posts|
    ensures forall i :: 0 <= i < |c.posts| ==> Received(data.posts[i]) == c.posts[i]
  {
    CalendarData(c.weekNumber, seq(|c.posts|, i requires 0 <= i < |c.posts| => Sent(c.posts[i])))
  }

  /** A post as it travels in the response body. */
  function Sent(p: Post): PostData {
    PostData(p.day, p.subreddit, p.author, p.title, p.content, Some(p.comments))
  }

  /** A received post read back as a planned post; a missing comment list reads as the empty one. */
  function Received(p: PostData): Post {
    Post(p.day, p.subreddit, p.author, p.title, p.content, if p.comments.Some? then p.comments.value else [])
  }

  /** `comment.author.charAt(0)`: the first character, or the empty string for an empty author. */
  function Initial(author: string): (s: string)
    ensures |s| == if |author| == 0 then 0 else 1
    ensures s <= author
  {
    if |author| == 0 then "" else [author[0]]
  }

  /** One comment line of the engagement section. */
  function RenderComment(c: Comment): (line: CommentLine)
    ensures line.author == c.author && line.content == c.content
    ensures line.initial <= c.author && (|c.author| > 0 <==> |line.initial| == 1)
  {
    CommentLine(Initial(c.author), c.author, c.content)
  }

  /** `post.comments && post.comments.length > 0`. */
  predicate HasComments(comments: Option<seq<Comment>>) {
    comments.Some? && |comments.value| > 0
  }

  /** One post card: the header and body fields, then the engagement section with one line per comment, in order. */
  function RenderPost(p: PostData): (b: PostBlock)
    ensures b.day == p.day && b.subreddit == p.subreddit && b.author == p.author
    ensures b.title == p.title && b.content == p.content
    ensures b.engagement.Some? <==> p.comments.Some? && |p.comments.value| > 0
    ensures b.engagement.Some? ==>
      && |b.engagement.value| == |p.comments.value|
      && forall k :: 0 <= k < |p.comments.value| ==>
           && b.engagement.value[k].initial == Initial(p.comments.value[k].author)
           && b.engagement.value[k].author == p.comments.value[k].author
           && b.engagement.value[k].content == p.comments.value[k].content
  {
    var engagement :=
      if HasComments(p.comments) then
        Some(seq(|p.comments.value|, k requires 0 <= k < |p.comments.value| => RenderComment(p.comments.value[k])))
      else None;
    PostBlock(p.day, p.subreddit, p.author, p.title, p.content, engagement)
  }

  /** `CalendarView`: nothing for a missing calendar, otherwise the heading and one card per post, in the order received. */
  function Render(calendar: Option<CalendarData>): (v: Option<PlanView>)
    ensures calendar.None? <==> v.None?
    ensures calendar.Some? ==>
      && v.value.heading == calendar.value.weekNumber
      && |v.value.blocks| == |calendar.value.posts|
      && forall i :: 0 <= i < |calendar.value.posts| ==> v.value.blocks[i] == RenderPost(calendar.value.posts[i])
  {
    match calendar
    case None => None
    case Some(c) =>
      Some(PlanView(c.weekNumber, seq(|c.posts|, i requires 0 <= i < |c.posts| => RenderPost(c.posts[i]))))
  }

  /** A missing comment list and an empty one render the same card. */
  lemma AbsentLikeEmpty(p: PostData)
    ensures RenderPost(p.(comments := None)) == RenderPost(p.(comments := Some([])))
  {
  }

  /** Every card can be read back into the post it shows when its comments are top-level: the projection loses no field. */
  lemma {:induction false} CardShowsPost(p: PostData)
    requires p.comments.Some? ==> forall k :: 0 <= k < |p.comments.value| ==> p.comments.value[k].depth == 0
    ensures ShownPost(RenderPost(p)) == Received(p)
  {
    var b := RenderPost(p);
    if b.engagement.Some? {
      var shown := ShownPost(b).comments;
      assert |shown| == |p.comments.value|;
      forall k | 0 <= k < |shown|
        ensures shown[k] == p.comments.value[k]
      {
        assert shown[k] == Comment(b.engagement.value[k].author, b.engagement.value[k].content, 0);
      }
    }
  }

  /**
    The post a card shows; the page does not display a comment's depth, so it
    reads back as the top level, which every planned comment has.
   */
  function ShownPost(b: PostBlock): Post {
    var comments := if b.engagement.Some?
      then seq(|b.engagement.value|, k requires 0 <= k < |b.engagement.value| =>
        Comment(b.engagement.value[k].author, b.engagement.value[k].content, 0))
      else [];
    Post(b.day, b.subreddit, b.author, b.title, b.content, comments)
  }
}
