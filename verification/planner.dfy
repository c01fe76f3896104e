/**
  The weekly planner (backend/planner.py, `Planner.generate_week`): for every
  day slot it chooses a subreddit that the day has not used yet when one is
  left, an author persona, a topic, the post text and up to three comments
  by the other personas.

  Every call to `random` and to the text generator becomes a field of an
  explicit `Oracle`. A `random.choice(xs)` is `xs[draw % |xs|]`, so every
  oracle is a legal one and every element of `xs` is reachable (see
  `ChooseReachesEvery`); the properties proved here hold for every oracle.
 */
module Planner {
  import opened Models
  import opened WeekSlots

  /** A generated title and body. */
  datatype PostText = PostText(title: string, content: string)

  /**
    The planner's sources of choice. Draws are indexed by the slot position
    (and, for comments, by the comment position within the slot), so each
    call of the source gets its own draw.
   */
  datatype Oracle = Oracle(
    sampleDraw: nat -> nat,                             // random.sample of the remainder days
    subredditDraw: nat -> nat,                          // random.choice of a subreddit name
    personaDraw: nat -> nat,                            // random.choice of the author persona
    queryDraw: nat -> nat,                              // random.choice of the topic
    postText: (nat, string, string, string) -> PostText, // MockLLM.generate_post_content(topic, persona, company)
    commentCountDraw: nat -> nat,                       // random.randint(1, limit)
    commenterDraw: (nat, nat) -> nat,                   // random.choice of a commenter
    commentText: (nat, nat, string, string) -> string)  // MockLLM.generate_comment(title, persona)

  /** The three lists the planner draws from. */
  datatype ChoiceList = SubredditList | PersonaList | QueryList

  /** `random.choice` of an empty list raises; the plan is then not produced. */
  datatype PlanError = EmptyChoice(list: ChoiceList)

  function Min(a: int, b: int): int {
    if a <= b then a else b
  }

  /** `random.choice(xs)` for a non-empty list: the oracle's draw picks the element. */
  function Choose<T>(xs: seq<T>, draw: nat): (x: T)
    requires |xs| > 0
    ensures x in xs
  {
    xs[draw % |xs|]
  }

  /** No element is out of the oracle's reach. */
  lemma ChooseReachesEvery<T>(xs: seq<T>, i: nat)
    requires i < |xs|
    ensures Choose(xs, i) == xs[i]
  {
  }

  /** The names of the input subreddits, in order. */
  function SubredditNames(subs: seq<Subreddit>): (names: seq<string>)
    ensures |names| == |subs|
    ensures forall i :: 0 <= i < |subs| ==> names[i] == subs[i].name
  {
    seq(|subs|, i requires 0 <= i < |subs| => subs[i].name)
  }

  /** `[name for name in names if name not in used]`. */
  function Unused(names: seq<string>, used: set<string>): (r: seq<string>)
    ensures forall x :: x in r <==> x in names && x !in used
  {
    if |names| == 0 then []
    else
      assert names == [names[0]] + names[1..];
      (if names[0] in used then [] else [names[0]]) + Unused(names[1..], used)
  }

  /** How many of the personas carry `name`. */
  function CountNamed(personas: seq<Persona>, name: string): nat {
    if |personas| == 0 then 0
    else (if personas[0].name == name then 1 else 0) + CountNamed(personas[1..], name)
  }

  /**
    `[p for p in personas if p.name != name]`: every persona with another
    name is kept as often as it occurs, and only the personas carrying `name`
    are dropped.
   */
  function OthersThan(personas: seq<Persona>, name: string): (r: seq<Persona>)
    ensures forall p :: p in r <==> p in personas && p.name != name
    ensures forall p: Persona :: p.name != name ==> multiset(r)[p] == multiset(personas)[p]
    ensures |r| + CountNamed(personas, name) == |personas|
  {
    if |personas| == 0 then []
    else
      assert personas == [personas[0]] + personas[1..];
      (if personas[0].name == name then [] else [personas[0]]) + OthersThan(personas[1..], name)
  }

  /** Some input persona carries this name. */
  predicate IsPersonaName(personas: seq<Persona>, name: string) {
    exists p :: p in personas && p.name == name
  }

  /**
    The list whose `random.choice` fails first: the subreddit is chosen before
    the author, and the author before the topic.
   */
  function FirstMissing(data: InputData): (m: Option<ChoiceList>)
    ensures m.None? <==> |data.subreddits| > 0 && |data.personas| > 0 && |data.queries| > 0
    ensures m == Some(SubredditList) <==> |data.subreddits| == 0
    ensures m == Some(PersonaList) <==> |data.subreddits| > 0 && |data.personas| == 0
    ensures m == Some(QueryList) <==> |data.subreddits| > 0 && |data.personas| > 0 && |data.queries| == 0
  {
    if |data.subreddits| == 0 then Some(SubredditList)
    else if |data.personas| == 0 then Some(PersonaList)
    else if |data.queries| == 0 then Some(QueryList)
    else None
  }

  /**
    The subreddit for one slot: one of the names the day has not used when
    there is one, otherwise any input subreddit's name.
   */
  function PickSubreddit(subs: seq<Subreddit>, used: set<string>, draw: nat): (name: string)
    requires |subs| > 0
    ensures name in SubredditNames(subs)
    ensures (exists x :: x in SubredditNames(subs) && x !in used) ==> name !in used
  {
    var available := Unused(SubredditNames(subs), used);
    if |available| == 0 then Choose(subs, draw).name
    else Choose(available, draw)
  }

  /** `random.randint(1, min(3, others)) if others else 0`. */
  function CommentCount(others: nat, draw: nat): (count: nat)
    ensures others == 0 ==> count == 0
    ensures others > 0 ==> 1 <= count <= Min(3, others)
  {
    if others == 0 then 0 else 1 + draw % Min(3, others)
  }

  /** The comments of slot `k`, `for _ in range(count)`: each by a persona drawn from `others`, appended in drawing order. */
  function Comments(others: seq<Persona>, o: Oracle, k: nat, title: string, count: nat): (cs: seq<Comment>)
    requires count == 0 || |others| > 0
    ensures |cs| == count
    ensures forall j :: 0 <= j < count ==> exists p :: p in others && cs[j].author == p.name
    ensures forall j :: 0 <= j < count ==> cs[j].content == o.commentText(k, j, title, cs[j].author)
    ensures forall j :: 0 <= j < count ==> cs[j].depth == 0
  {
    if count == 0 then []
    else
      var commenter := Choose(others, o.commenterDraw(k, count - 1));
      Comments(others, o, k, title, count - 1) + [CommentBy(commenter.name, o.commentText(k, count - 1, title, commenter.name))]
  }

  /** Every comment is by an input persona other than the post's author, at depth 0. */
  predicate CommentsByOthers(personas: seq<Persona>, p: Post) {
    forall c :: c in p.comments ==>
      IsPersonaName(personas, c.author) && c.author != p.author && c.depth == 0
  }

  /** No comment without another persona; otherwise between one and three, and no more than there are others. */
  predicate CommentCountInRange(personas: seq<Persona>, p: Post) {
    var others := |OthersThan(personas, p.author)|;
    (others == 0 ==> |p.comments| == 0) &&
    (others > 0 ==> 1 <= |p.comments| <= Min(3, others))
  }

  /** The post text comes from the generator, given some input query as topic, the author and the company. */
  predicate TextFromOracle(data: InputData, o: Oracle, k: nat, p: Post) {
    (exists topic :: topic in data.queries &&
      PostText(p.title, p.content) == o.postText(k, topic, p.author, data.companyInfo.name)) &&
    (forall j :: 0 <= j < |p.comments| ==> p.comments[j].content == o.commentText(k, j, p.title, p.comments[j].author))
  }

  /**
    The usage tracker after the first `|chosen|` slots: it starts with an
    empty set per day, and each slot adds the subreddit it chose to its day's
    set.
   */
  function TrackerAfter(chosen: seq<string>, slots: seq<DayIndex>): (usage: seq<set<string>>)
    requires |chosen| <= |slots|
    ensures |usage| == 7
  {
    if |chosen| == 0 then seq(7, d => {})
    else
      var k := |chosen| - 1;
      var before := TrackerAfter(chosen[..k], slots);
      before[slots[k] := before[slots[k]] + {chosen[k]}]
  }

  /** The subreddits the slots of `chosen` used on `day`. */
  function UsedOn(chosen: seq<string>, slots: seq<DayIndex>, day: DayIndex): set<string>
    requires |chosen| <= |slots|
  {
    set j | 0 <= j < |chosen| && slots[j] == day :: chosen[j]
  }

  /** The tracker's set for a day is exactly what the earlier slots of that day used. */
  lemma {:induction false} TrackerMeaning(chosen: seq<string>, slots: seq<DayIndex>, day: DayIndex)
    requires |chosen| <= |slots|
    ensures TrackerAfter(chosen, slots)[day] == UsedOn(chosen, slots, day)
    decreases |chosen|
  {
    if |chosen| > 0 {
      var k := |chosen| - 1;
      TrackerMeaning(chosen[..k], slots, day);
      if slots[k] == day {
        assert UsedOn(chosen, slots, day) == UsedOn(chosen[..k], slots, day) + {chosen[k]};
      } else {
        assert UsedOn(chosen, slots, day) == UsedOn(chosen[..k], slots, day);
      }
    }
  }

  /** The subreddit of slot `i` is an input name, and a fresh one for its day whenever one is left. */
  predicate AvoidsRepeat(subs: seq<Subreddit>, slots: seq<DayIndex>, chosen: seq<string>, i: nat)
    requires i < |chosen| <= |slots|
  {
    var used := UsedOn(chosen[..i], slots, slots[i]);
    && chosen[i] in SubredditNames(subs)
    && ((exists x :: x in SubredditNames(subs) && x !in used) ==> chosen[i] !in used)
  }

  /**
    The subreddit half of the loop of `generate_week`, from slot `|done|` on:
    each slot picks with the tracker's set for its day, then records the pick
    there.
   */
  function ChooseSubreddits(subs: seq<Subreddit>, o: Oracle, slots: seq<DayIndex>, usage: seq<set<string>>, done: seq<string>): (chosen: seq<string>)
    requires |subs| > 0
    requires |done| <= |slots|
    requires usage == TrackerAfter(done, slots)
    ensures |chosen| == |slots|
    ensures chosen[..|done|] == done
    decreases |slots| - |done|
  {
    if |done| == |slots| then done
    else
      var k := |done|;
      var day := slots[k];
      var name := PickSubreddit(subs, usage[day], o.subredditDraw(k));
      var next := done + [name];
      assert next[..k] == done;
      var chosen := ChooseSubreddits(subs, o, slots, usage[day := usage[day] + {name}], next);
      assert chosen[..k] == chosen[..k + 1][..k] == next[..k];
      chosen
  }

  /** Every slot from `|done|` on picks a fresh name for its day whenever one is left. */
  lemma {:induction false} ChooseSubredditsAvoids(subs: seq<Subreddit>, o: Oracle, slots: seq<DayIndex>, usage: seq<set<string>>, done: seq<string>)
    requires |subs| > 0
    requires |done| <= |slots|
    requires usage == TrackerAfter(done, slots)
    ensures forall i :: |done| <= i < |slots| ==> AvoidsRepeat(subs, slots, ChooseSubreddits(subs, o, slots, usage, done), i)
    decreases |slots| - |done|
  {
    if |done| < |slots| {
      var k := |done|;
      var day := slots[k];
      var name := PickSubreddit(subs, usage[day], o.subredditDraw(k));
      var next := done + [name];
      assert next[..k] == done;
      var usage' := usage[day := usage[day] + {name}];
      var chosen := ChooseSubreddits(subs, o, slots, usage', next);
      assert chosen == ChooseSubreddits(subs, o, slots, usage, done);
      ChooseSubredditsAvoids(subs, o, slots, usage', next);
      assert chosen[..k + 1] == next;
      assert chosen[k] == name;
      assert chosen[..k] == done;
      TrackerMeaning(done, slots, day);
      assert AvoidsRepeat(subs, slots, chosen, k);
    }
  }

  /** Everything the source promises of the post for slot `k`, apart from its subreddit. */
  predicate PostFits(data: InputData, o: Oracle, k: nat, p: Post) {
    && IsPersonaName(data.personas, p.author)
    && CommentsByOthers(data.personas, p)
    && CommentCountInRange(data.personas, p)
    && TextFromOracle(data, o, k, p)
  }

  /**
    The rest of one loop iteration of `generate_week`: the post of slot `k`
    on `day`, in subreddit `sub`, with its author, topic, text and comments.
   */
  function SlotPost(data: InputData, o: Oracle, k: nat, day: DayIndex, sub: string): (p: Post)
    requires FirstMissing(data).None?
    ensures p.day == DayName(day) && p.subreddit == sub
    ensures PostFits(data, o, k, p)
  {
    var op := Choose(data.personas, o.personaDraw(k));
    var topic := Choose(data.queries, o.queryDraw(k));
    var text := o.postText(k, topic, op.name, data.companyInfo.name);
    var others := OthersThan(data.personas, op.name);
    var count := CommentCount(|others|, o.commentCountDraw(k));
    var comments := Comments(others, o, k, text.title, count);
    assert forall c :: c in comments ==> exists p :: p in others && c.author == p.name;
    Post(DayName(day), sub, op.name, text.title, text.content, comments)
  }

  /**
    The loop of `generate_week` over given day slots. It raises at its first
    slot when a list it draws from is empty, and runs no slot at all when
    there are none.
   */
  function PlanWeek(data: InputData, weekOffset: int, o: Oracle, slots: seq<DayIndex>): (r: Result<WeekCalendar, PlanError>)
    ensures r.Err? <==> |slots| > 0 && FirstMissing(data).Some?
    ensures r.Err? ==> r.error == EmptyChoice(FirstMissing(data).value)
    ensures r.Ok? ==> r.value.weekNumber == 1 + weekOffset
    ensures r.Ok? ==> |r.value.posts| == |slots|
    ensures r.Ok? ==> forall i :: 0 <= i < |slots| ==> r.value.posts[i].day == DayName(slots[i])
    ensures r.Ok? ==> forall i :: 0 <= i < |slots| ==> PostFits(data, o, i, r.value.posts[i])
  {
    if |slots| == 0 then Ok(WeekCalendar(1 + weekOffset, []))
    else
      match FirstMissing(data)
      case Some(list) => Err(EmptyChoice(list))
      case None =>
        var chosen := ChooseSubreddits(data.subreddits, o, slots, TrackerAfter([], slots), []);
        Ok(WeekCalendar(1 + weekOffset, seq(|slots|, i requires 0 <= i < |slots| => SlotPost(data, o, i, slots[i], chosen[i]))))
  }

  /** The subreddits the posts before position `i` used on slot `i`'s day. */
  function SameDayBefore(posts: seq<Post>, slots: seq<DayIndex>, i: nat): set<string>
    requires i < |posts| && i < |slots|
  {
    set j | 0 <= j < i && slots[j] == slots[i] :: posts[j].subreddit
  }

  /** A post's subreddit obeys the same rule as the name chosen for its slot. */
  lemma AvoidsRepeatForPost(subs: seq<Subreddit>, slots: seq<DayIndex>, chosen: seq<string>, posts: seq<Post>, i: nat)
    requires i < |chosen| == |posts| == |slots|
    requires forall j :: 0 <= j < |posts| ==> posts[j].subreddit == chosen[j]
    requires AvoidsRepeat(subs, slots, chosen, i)
    ensures posts[i].subreddit in SubredditNames(subs)
    ensures (exists x :: x in SubredditNames(subs) && x !in SameDayBefore(posts, slots, i)) ==>
      posts[i].subreddit !in SameDayBefore(posts, slots, i)
  {
    assert SameDayBefore(posts, slots, i) == UsedOn(chosen[..i], slots, slots[i]) by {
      assert forall j :: 0 <= j < i ==> chosen[..i][j] == chosen[j];
    }
  }

  /**
    Every post's subreddit is an input name, and it is one its day has not
    used before whenever such a name is left.
   */
  lemma PlanWeekAvoidsRepeats(data: InputData, weekOffset: int, o: Oracle, slots: seq<DayIndex>)
    requires PlanWeek(data, weekOffset, o, slots).Ok?
    ensures var posts := PlanWeek(data, weekOffset, o, slots).value.posts;
      forall i :: 0 <= i < |slots| ==>
        && posts[i].subreddit in SubredditNames(data.subreddits)
        && ((exists x :: x in SubredditNames(data.subreddits) && x !in SameDayBefore(posts, slots, i)) ==>
             posts[i].subreddit !in SameDayBefore(posts, slots, i))
  {
    if |slots| > 0 {
      var posts := PlanWeek(data, weekOffset, o, slots).value.posts;
      var e: seq<string> := [];
      var chosen := ChooseSubreddits(data.subreddits, o, slots, TrackerAfter(e, slots), e);
      assert posts == seq(|slots|, i requires 0 <= i < |slots| => SlotPost(data, o, i, slots[i], chosen[i]));
      ChooseSubredditsAvoids(data.subreddits, o, slots, TrackerAfter(e, slots), e);
      forall i | 0 <= i < |slots|
        ensures posts[i].subreddit in SubredditNames(data.subreddits)
        ensures (exists x :: x in SubredditNames(data.subreddits) && x !in SameDayBefore(posts, slots, i)) ==>
             posts[i].subreddit !in SameDayBefore(posts, slots, i)
      {
        AvoidsRepeatForPost(data.subreddits, slots, chosen, posts, i);
      }
    }
  }

  /** `generate_week(data, week_offset)`: the week's plan for the slots the draws give. */
  function GenerateWeek(data: InputData, weekOffset: int, o: Oracle): (r: Result<WeekCalendar, PlanError>)
    ensures r.Err? <==> |Slots(data.postsPerWeek, o.sampleDraw)| > 0 && FirstMissing(data).Some?
    ensures r.Err? ==> r.error == EmptyChoice(FirstMissing(data).value)
    ensures r.Ok? ==> r.value.weekNumber == 1 + weekOffset
    ensures r.Ok? ==> |r.value.posts| == |Slots(data.postsPerWeek, o.sampleDraw)|
    ensures r.Ok? ==> forall i :: 0 <= i < |r.value.posts| ==>
      r.value.posts[i].day == DayName(Slots(data.postsPerWeek, o.sampleDraw)[i])
    ensures r.Ok? ==> forall i :: 0 <= i < |r.value.posts| ==> PostFits(data, o, i, r.value.posts[i])
  {
    PlanWeek(data, weekOffset, o, Slots(data.postsPerWeek, o.sampleDraw))
  }
}
