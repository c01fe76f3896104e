/**
  The whole round trip for the campaign the editor starts with: the default
  draft is submitted, the generation service plans week 1 from it
  (`week_offset = 0`), and the browser renders the response.
 */
module Campaign {
  import opened Models
  import opened WeekSlots
  import opened Planner
  import PlanProperties
  import InputForm
  import CalendarView

  /** The payload the untouched editor sends. */
  function DefaultPayload(): (p: InputData)
    ensures p == InputForm.BuildPayload(InputForm.InitialDraft)
    ensures FirstMissing(p).None?
    ensures p.postsPerWeek == 5
  {
    InputForm.BuildPayload(InputForm.InitialDraft)
  }

  /** With two personas, the only possible commenter on a post is the persona that did not write it. */
  lemma TheOtherPersona(author: string)
    requires IsPersonaName(DefaultPayload().personas, author)
    ensures |OthersThan(DefaultPayload().personas, author)| == 1
    ensures author == "Growth Hacker" ==> OthersThan(DefaultPayload().personas, author)[0].name == "Skeptical Dev"
    ensures author == "Skeptical Dev" ==> OthersThan(DefaultPayload().personas, author)[0].name == "Growth Hacker"
  {
    var ps := DefaultPayload().personas;
    assert ps == [Persona("Growth Hacker", "Obsessed with scaling"), Persona("Skeptical Dev", "Hates marketing fluff")];
    assert ps[1..] == [Persona("Skeptical Dev", "Hates marketing fluff")];
    assert ps[1..][1..] == [];
    var p :| p in ps && p.name == author;
    assert author == "Growth Hacker" || author == "Skeptical Dev";
  }

  /** A post by one of the two default personas with exactly one comment, written by the other. */
  predicate AnsweredByTheOther(p: Post) {
    && (p.author == "Growth Hacker" || p.author == "Skeptical Dev")
    && |p.comments| == 1
    && p.comments[0].author != p.author
    && (p.comments[0].author == "Growth Hacker" || p.comments[0].author == "Skeptical Dev")
  }

  /** A post planned from the default payload is by one persona and carries exactly one comment, by the other. */
  lemma {:induction false} DefaultPost(o: Oracle, k: nat, p: Post)
    requires PostFits(DefaultPayload(), o, k, p)
    ensures AnsweredByTheOther(p)
  {
    var data := DefaultPayload();
    TheOtherPersona(p.author);
    assert p.comments[0] in p.comments;
    var q :| q in data.personas && q.name == p.comments[0].author;
    assert data.personas == [Persona("Growth Hacker", "Obsessed with scaling"), Persona("Skeptical Dev", "Hates marketing fluff")];
  }

  /** Posts that each fit the default payload are each by one persona and answered by the other. */
  lemma {:induction false} DefaultPosts(o: Oracle, posts: seq<Post>)
    requires forall i :: 0 <= i < |posts| ==> PostFits(DefaultPayload(), o, i, posts[i])
    ensures forall p :: p in posts ==> AnsweredByTheOther(p)
  {
    forall p | p in posts
      ensures AnsweredByTheOther(p)
    {
      var i :| 0 <= i < |posts| && posts[i] == p;
      DefaultPost(o, i, p);
    }
  }

  /** Whatever the random choices, the default campaign plans week 1 with five posts on five different days. */
  lemma DefaultCampaignWeek(o: Oracle)
    ensures GenerateWeek(DefaultPayload(), 0, o).Ok?
    ensures GenerateWeek(DefaultPayload(), 0, o).value.weekNumber == 1
    ensures |GenerateWeek(DefaultPayload(), 0, o).value.posts| == 5
    ensures forall d: DayIndex :: PlanProperties.PostsOn(GenerateWeek(DefaultPayload(), 0, o).value.posts, DayName(d)) <= 1
  {
    var data := DefaultPayload();
    PlanProperties.GeneratedPostCount(data, 0, o);
    forall d: DayIndex
      ensures PlanProperties.PostsOn(GenerateWeek(data, 0, o).value.posts, DayName(d)) <= 1
    {
      PlanProperties.GeneratedDayBalance(data, 0, o, d);
    }
  }

  /**
    Whatever the random choices, each post of the default campaign is by one
    of the two personas and draws exactly one comment, written by the other one.
   */
  lemma DefaultCampaignComments(o: Oracle)
    ensures GenerateWeek(DefaultPayload(), 0, o).Ok?
    ensures forall p :: p in GenerateWeek(DefaultPayload(), 0, o).value.posts ==> AnsweredByTheOther(p)
  {
    var data := DefaultPayload();
    assert FirstMissing(data).None?;
    DefaultPosts(o, GenerateWeek(data, 0, o).value.posts);
  }

  /** A served calendar whose posts each carry one comment renders as cards with one engagement line each. */
  lemma {:induction false} OneCommentCards(cal: WeekCalendar)
    requires forall p :: p in cal.posts ==> |p.comments| == 1
    ensures var plan := CalendarView.Render(Some(CalendarView.Serialize(cal)));
      && plan.Some?
      && plan.value.heading == cal.weekNumber
      && |plan.value.blocks| == |cal.posts|
      && forall b :: b in plan.value.blocks ==> b.engagement.Some? && |b.engagement.value| == 1
  {
    var data := CalendarView.Serialize(cal);
    var plan := CalendarView.Render(Some(data));
    forall b | b in plan.value.blocks
      ensures b.engagement.Some? && |b.engagement.value| == 1
    {
      var i :| 0 <= i < |plan.value.blocks| && plan.value.blocks[i] == b;
      assert cal.posts[i] in cal.posts;
      assert CalendarView.Received(data.posts[i]) == cal.posts[i];
    }
  }

  /** The browser shows the default campaign's plan under "Week 1" as five cards, each with an engagement section of one comment. */
  lemma DefaultCampaignRendered(o: Oracle)
    ensures var plan := CalendarView.Render(Some(CalendarView.Serialize(GenerateWeek(DefaultPayload(), 0, o).value)));
      && plan.Some?
      && plan.value.heading == 1
      && |plan.value.blocks| == 5
      && forall b :: b in plan.value.blocks ==> b.engagement.Some? && |b.engagement.value| == 1
  {
    DefaultCampaignWeek(o);
    DefaultCampaignComments(o);
    OneCommentCards(GenerateWeek(DefaultPayload(), 0, o).value);
  }
}
