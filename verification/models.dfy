/**
  Record shapes shared by the generation service and the campaign editor
  (backend/models.py). Every record is an immutable value; the optional and
  defaulted fields of the Python models are spelled out here.
 */
module Models {

  /** An optional value: the `Optional[...]` of the Python models, or a JSON field that may be absent or null. */
  datatype Option<+T> = None | Some(value: T)

  /** A value or the error that stopped its computation. */
  datatype Result<+T, +E> = Ok(value: T) | Err(error: E)

  /** A target persona used to engage with posts. */
  datatype Persona = Persona(name: string, description: string)

  /** A target community; its description is optional and defaults to `None`. */
  datatype Subreddit = Subreddit(name: string, description: Option<string>)

  /** The company being promoted. */
  datatype CompanyInfo = CompanyInfo(name: string, description: string, targetAudience: string)

  /**
    The generation request. `postsPerWeek` is an unconstrained integer: the
    record itself performs no range check.
   */
  datatype InputData = InputData(
    companyInfo: CompanyInfo,
    personas: seq<Persona>,
    subreddits: seq<Subreddit>,
    queries: seq<string>,
    postsPerWeek: int)

  /** A comment on a planned post; `author` is a persona name. */
  datatype Comment = Comment(author: string, content: string, depth: int)

  /** A planned post; `day` is a weekday name and `author` a persona name. */
  datatype Post = Post(
    day: string,
    subreddit: string,
    author: string,
    title: string,
    content: string,
    comments: seq<Comment>)

  /** The generated plan for one week: a week number and the posts in order. */
  datatype WeekCalendar = WeekCalendar(weekNumber: int, posts: seq<Post>)

  /** A comment built without a depth takes the model's default, a top-level comment. */
  function CommentBy(author: string, content: string): (c: Comment)
    ensures c.author == author && c.content == content && c.depth == 0
  {
    Comment(author, content, 0)
  }
}
