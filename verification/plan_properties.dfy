/**
  Properties of a generated week plan, stated on the plan itself: how many
  posts there are, in which order their days come, how the posts spread over
  the week, and when generation raises.
 */
module PlanProperties {
  import opened Models
  import opened WeekSlots
  import opened Planner

  /**
    `DAYS_OF_WEEK.index(name)`: the position of a weekday name. Python raises
    `ValueError` for any other string, so a weekday name is required; every
    slot's name is one.
   */
  function DayPosition(name: string): (i: DayIndex)
    requires name in DaysOfWeek
    ensures DaysOfWeek[i] == name
  {
    if name == "Monday" then 0
    else if name == "Tuesday" then 1
    else if name == "Wednesday" then 2
    else if name == "Thursday" then 3
    else if name == "Friday" then 4
    else if name == "Saturday" then 5
    else 6
  }

  /** Every day's name leads back to the day. */
  lemma DayPositionOfName(d: DayIndex)
    ensures DayPosition(DayName(d)) == d
  {
  }

  /** The number of posts planned on the day called `name`. */
  function PostsOn(posts: seq<Post>, name: string): (count: nat)
    ensures count <= |posts|
  {
    if |posts| == 0 then 0
    else PostsOn(posts[..|posts| - 1], name) + (if posts[|posts| - 1].day == name then 1 else 0)
  }

  /** Posts whose days follow the slots are spread over the week as the slots are. */
  lemma PostsOnFollowSlots(posts: seq<Post>, slots: seq<DayIndex>, d: DayIndex)
    requires |posts| == |slots|
    requires forall i :: 0 <= i < |posts| ==> posts[i].day == DayName(slots[i])
    ensures PostsOn(posts, DayName(d)) == multiset(slots)[d]
  {
    forall i | 0 <= i < |posts|
      ensures posts[i].day == DayName(d) <==> slots[i] == d
    {
      DayNamesDiffer(slots[i], d);
    }
    PostsOnCount(posts, slots, d, DayName(d));
  }

  /** When a post carries `name` exactly where its slot is `d`, the posts on `name` are as many as the slots on `d`. */
  lemma {:induction false} PostsOnCount(posts: seq<Post>, slots: seq<DayIndex>, d: DayIndex, name: string)
    requires |posts| == |slots|
    requires forall i :: 0 <= i < |posts| ==> (posts[i].day == name <==> slots[i] == d)
    ensures PostsOn(posts, name) == multiset(slots)[d]
    decreases |posts|
  {
    if |posts| > 0 {
      var k := |posts| - 1;
      assert forall i :: 0 <= i < k ==> posts[..k][i] == posts[i] && slots[..k][i] == slots[i];
      PostsOnCount(posts[..k], slots[..k], d, name);
      LastOccurrence(slots, d);
    }
  }

  /** The count of a value in a list is its count before the last element, plus one if the last element is it. */
  lemma LastOccurrence(slots: seq<DayIndex>, d: DayIndex)
    requires |slots| > 0
    ensures multiset(slots)[d] == multiset(slots[..|slots| - 1])[d] + (if slots[|slots| - 1] == d then 1 else 0)
  {
    assert slots == slots[..|slots| - 1] + [slots[|slots| - 1]];
  }

  /** Different days have different names. */
  lemma DayNamesDiffer(a: DayIndex, b: DayIndex)
    ensures DayName(a) == DayName(b) <==> a == b
  {
    DayPositionOfName(a);
    DayPositionOfName(b);
  }

  /** For `n >= 0` posts per week the plan holds exactly `n` posts; a negative `n` gives `n % 7` posts. */
  lemma GeneratedPostCount(data: InputData, weekOffset: int, o: Oracle)
    ensures var n := data.postsPerWeek; var r := GenerateWeek(data, weekOffset, o);
      r.Ok? ==> (n >= 0 ==> |r.value.posts| == n) && (n < 0 ==> |r.value.posts| == n % 7)
  {
    SlotCount(data.postsPerWeek, o.sampleDraw);
  }

  /** The posts come in Monday..Sunday order, each on a weekday. */
  lemma GeneratedInWeekOrder(data: InputData, weekOffset: int, o: Oracle)
    ensures var r := GenerateWeek(data, weekOffset, o);
      r.Ok? ==>
        && (forall i :: 0 <= i < |r.value.posts| ==> r.value.posts[i].day in DaysOfWeek)
        && (forall i, j :: 0 <= i < j < |r.value.posts| ==> DayPosition(r.value.posts[i].day) <= DayPosition(r.value.posts[j].day))
  {
    if GenerateWeek(data, weekOffset, o).Ok? {
      var posts := GenerateWeek(data, weekOffset, o).value.posts;
      var slots := Slots(data.postsPerWeek, o.sampleDraw);
      forall i | 0 <= i < |posts|
        ensures DayPosition(posts[i].day) == slots[i]
      {
        DayPositionOfName(slots[i]);
      }
    }
  }

  /** Every weekday gets `n / 7` posts, or one more when the remainder sample picked it. */
  lemma GeneratedDayBalance(data: InputData, weekOffset: int, o: Oracle, d: DayIndex)
    ensures var n := data.postsPerWeek; var r := GenerateWeek(data, weekOffset, o);
      r.Ok? ==> Max0(n / 7) <= PostsOn(r.value.posts, DayName(d)) <= Max0(n / 7) + 1
  {
    if GenerateWeek(data, weekOffset, o).Ok? {
      var slots := Slots(data.postsPerWeek, o.sampleDraw);
      PostsOnFollowSlots(GenerateWeek(data, weekOffset, o).value.posts, slots, d);
      DayBalance(data.postsPerWeek, o.sampleDraw, d);
    }
  }

  /** The subreddits the posts before position `i` used on the same day. */
  function UsedEarlierThatDay(posts: seq<Post>, i: nat): set<string>
    requires i < |posts|
  {
    set j | 0 <= j < i && posts[j].day == posts[i].day :: posts[j].subreddit
  }

  /**
    Each post's subreddit is an input subreddit's name, and whenever some
    input name has not been used that day yet, the post's is one of those.
   */
  lemma GeneratedAvoidsRepeats(data: InputData, weekOffset: int, o: Oracle)
    ensures var r := GenerateWeek(data, weekOffset, o);
      r.Ok? ==> forall i :: 0 <= i < |r.value.posts| ==>
        && r.value.posts[i].subreddit in SubredditNames(data.subreddits)
        && ((exists x :: x in SubredditNames(data.subreddits) && x !in UsedEarlierThatDay(r.value.posts, i)) ==>
             r.value.posts[i].subreddit !in UsedEarlierThatDay(r.value.posts, i))
  {
    if GenerateWeek(data, weekOffset, o).Ok? {
      var slots := Slots(data.postsPerWeek, o.sampleDraw);
      var posts := GenerateWeek(data, weekOffset, o).value.posts;
      PlanWeekAvoidsRepeats(data, weekOffset, o, slots);
      forall i | 0 <= i < |posts|
        ensures UsedEarlierThatDay(posts, i) == SameDayBefore(posts, slots, i)
      {
        SameDayBySlot(posts, slots, i);
      }
    }
  }

  /** For posts whose days follow the slots, "the same day" means the same slot day. */
  lemma SameDayBySlot(posts: seq<Post>, slots: seq<DayIndex>, i: nat)
    requires i < |posts| == |slots|
    requires forall j :: 0 <= j < |posts| ==> posts[j].day == DayName(slots[j])
    ensures UsedEarlierThatDay(posts, i) == SameDayBefore(posts, slots, i)
  {
    forall j | 0 <= j < i
      ensures posts[j].day == posts[i].day <==> slots[j] == slots[i]
    {
      DayNamesDiffer(slots[j], slots[i]);
    }
  }

  /**
    With at least one post to plan, an empty subreddit, persona or query list
    makes generation raise, the subreddit list being checked first.
   */
  lemma EmptyListRaises(data: InputData, weekOffset: int, o: Oracle)
    requires data.postsPerWeek > 0
    requires |data.subreddits| == 0 || |data.personas| == 0 || |data.queries| == 0
    ensures GenerateWeek(data, weekOffset, o).Err?
    ensures |data.subreddits| == 0 ==> GenerateWeek(data, weekOffset, o).error == EmptyChoice(SubredditList)
  {
    SlotCount(data.postsPerWeek, o.sampleDraw);
  }

  /** With no post to plan nothing is drawn, so even empty lists give an empty plan. */
  lemma NoSlotsNoDraws(data: InputData, weekOffset: int, o: Oracle)
    requires data.postsPerWeek == 0
    ensures GenerateWeek(data, weekOffset, o) == Ok(WeekCalendar(1 + weekOffset, []))
  {
    SlotCount(data.postsPerWeek, o.sampleDraw);
  }
}
