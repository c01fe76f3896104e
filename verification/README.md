# Reddit Mastermind: campaign planner, editor, workflow and plan view

Reddit Mastermind plans a week of Reddit posts for a company. In the browser,
an operator edits a campaign draft: the company, personas, target subreddits,
search topics and posts per week. The browser then asks the generation
service for a week plan and shows the plan it gets back. This project models
the core of that system as immutable Dafny datatypes and pure functions, and
proves what each part promises:

- `Models` (`models.dfy`): the record shapes of the service and their defaults.
- `WeekSlots` (`slots.dfy`): the day slots of a week. There is one full pass
  over Monday..Sunday per seven posts, plus a sample of distinct remainder
  days, sorted into week order.
- `Planner` (`planner.dfy`): `generate_week`. It builds one post per slot. The
  subreddit is one the day has not used yet, when any is left. The author is
  a persona. The topic is a query. The post gets up to three comments by the
  other personas.
- `PlanProperties` (`plan_properties.dfy`): the planner's guarantees, stated on
  the finished plan. These cover the post count, week order, spread over the
  days, avoiding repeated subreddits, and the error cases.
- `SeqEdit` (`seqedit.dfy`) and `InputForm` (`input_form.dfy`): the campaign
  editor. It starts from seed values and offers index-addressed add, remove
  and update edits on its three lists. It has the company inputs, the
  posts-per-week slider and the submit payload.
- `CalendarView` (`calendar_view.dfy`): the projection from a received
  calendar to what the page shows.
- `App` (`app.dfy`): the page's workflow as a state machine. Its state is the
  received calendar, the loading flag and the mounted editor's draft. Its
  events are edits, submission, the request's resolution and "Start Over".
  The model proves its invariant over whole event traces. It also proves
  that at most one request is ever in flight.
- `Campaign` (`campaign.dfy`): the default campaign end to end, from the
  untouched editor through the planner to the rendered page.

Randomness and text generation are explicit. The planner takes an `Oracle`
whose fields stand for each call to `random` and to the mock text generator.
`random.choice(xs)` becomes `xs[draw % |xs|]`, so every oracle is a legal one.
Every planner property is proved for all oracles. Python's `//` and `%` with
divisor 7 agree with Dafny's Euclidean `/` and `%` for every integer, so a
negative `posts_per_week` is modelled exactly: `range` of a negative count
runs no pass, so a negative `n` gives `n % 7` slots. The request and the
alert are effects of the state machine, and the request's resolution is an
event.

A subreddit added in the editor carries description `''`
(frontend/src/components/InputForm.jsx:11, 23), while the service defaults a
missing description to `None` (backend/models.py:15). The editor's
subreddits therefore carry `Some("")`, and `Models.Subreddit`'s optional
description is `None` for a request that leaves the field out or sends it
as `null`.

## Model

| member | source | states |
|---|---|---|
| `WeekSlots.DayName` | backend/planner.py:8 | a slot's day name is one of the seven weekday names |
| `WeekSlots.FullWeeks` | backend/planner.py:64-69 | `n // 7` passes over the week: `7 * max(0, n // 7)` slots, each day `max(0, n // 7)` times; a negative count runs no pass |
| `WeekSlots.Sample` | backend/planner.py:73 | `random.sample`: exactly `k` elements, all from the pool, no element twice |
| `WeekSlots.Insert` | backend/planner.py:76 | inserting a slot into a sorted list keeps it sorted and adds exactly that slot |
| `WeekSlots.SortByDay` | backend/planner.py:76 | the result is sorted by day index and is a permutation of the input |
| `WeekSlots.RemainderDays` | backend/planner.py:65-73 | `n % 7` distinct remainder days; none when the remainder is zero |
| `WeekSlots.Slots` | backend/planner.py:63-76 | the slots are sorted Monday..Sunday and are exactly the full weeks plus the remainder days |
| `WeekSlots.SlotCount` | backend/planner.py:63-73 | there are `7*max(0, n//7) + n%7` slots, which is `n` for `n >= 0`; a negative `n` gives `n % 7` slots |
| `WeekSlots.DayBalance` | backend/planner.py:68-73 | each day has exactly `max(0, n//7)` slots, plus one if the remainder sample picked it, so between `max(0, n//7)` and `max(0, n//7) + 1` |
| `WeekSlots.DistinctOccursOnce` | backend/planner.py:73 | in a sample without repetition every day occurs at most once |
| `WeekSlots.SortedPermutationUnique` | backend/planner.py:76 | two sorted rearrangements of the same slots are equal, so this sort gives what Python's keyed sort gives |
| `Planner.Choose` | backend/planner.py:93 | `random.choice` returns an element of its non-empty list |
| `Planner.ChooseReachesEvery` | backend/planner.py:93 | every element of the list is a possible choice |
| `Planner.Unused` | backend/planner.py:85-88 | the available names are exactly the input names not in the day's used set |
| `Planner.OthersThan` | backend/planner.py:111-113 | the other personas are exactly those whose name differs from the author's, each kept as often as it occurs; their number, which bounds the comment count, is the number of personas minus those carrying the author's name |
| `Planner.FirstMissing` | backend/planner.py:91-101 | the list whose empty `random.choice` raises first: subreddits, then personas, then queries; none iff all three are non-empty |
| `Planner.PickSubreddit` | backend/planner.py:85-93 | the pick is an input subreddit name; if the day has an unused name, the pick is unused that day |
| `Planner.CommentCount` | backend/planner.py:113 | zero comments without another persona, otherwise between 1 and `min(3, others)` |
| `Planner.Comments` | backend/planner.py:115-118 | exactly `count` comments in drawing order, each by one of the other personas, with generated text, at depth 0 |
| `Planner.TrackerMeaning` | backend/planner.py:80-95 | the tracker's set for a day is exactly the subreddits chosen so far by slots of that day |
| `Planner.ChooseSubreddits` | backend/planner.py:82-95 | one subreddit per slot, and the picks already made are kept |
| `Planner.ChooseSubredditsAvoids` | backend/planner.py:85-95 | every slot picks an input name, and it picks a name unused that day whenever one is left |
| `Planner.SlotPost` | backend/planner.py:97-127 | a slot's post has the slot's day and subreddit, an input persona as author, generated text on an input topic, and comments in range by other personas |
| `Planner.PlanWeek` | backend/planner.py:82-130 | error iff there is a slot and a list is empty, naming that list; otherwise week `1 + offset`, one post per slot in slot order with the slot's day |
| `Planner.AvoidsRepeatForPost` | backend/planner.py:85-95 | a post's subreddit obeys the rule its slot's pick obeys, counted over the earlier posts of that day |
| `Planner.PlanWeekAvoidsRepeats` | backend/planner.py:85-95 | every post's subreddit is an input name, and is unused that day before it whenever an unused name is left |
| `Planner.GenerateWeek` | backend/planner.py:57-130 | `generate_week`: raises iff there is a slot and a list is empty; otherwise week `1 + week_offset` with one fitting post per sorted slot |
| `PlanProperties.DayPosition` | backend/planner.py:76 | `DAYS_OF_WEEK.index`: defined for the weekday names only, as Python raises for any other string, and gives the position of the name |
| `PlanProperties.DayPositionOfName` | backend/planner.py:76 | every day's name leads back to the day |
| `PlanProperties.PostsOnFollowSlots` | backend/planner.py:82-128 | posts whose days follow the slots are spread over the days as the slots are |
| `PlanProperties.PostsOnCount` | backend/planner.py:82-128 | when a post carries a day name exactly where its slot is that day, the posts on the name are as many as the slots on the day |
| `PlanProperties.DayNamesDiffer` | backend/planner.py:8 | two days have the same name iff they are the same day |
| `PlanProperties.GeneratedPostCount` | backend/planner.py:63-73 | the plan has exactly `n` posts for `n >= 0`, and `n % 7` posts for negative `n` |
| `PlanProperties.GeneratedInWeekOrder` | backend/planner.py:76-82 | every post's day is a weekday name, and the days never go backwards in week order |
| `PlanProperties.GeneratedDayBalance` | backend/planner.py:68-73 | each weekday gets between `max(0, n//7)` and `max(0, n//7) + 1` posts |
| `PlanProperties.GeneratedAvoidsRepeats` | backend/planner.py:85-95 | no post repeats a subreddit already used earlier that day while some input subreddit is still unused that day |
| `PlanProperties.SameDayBySlot` | backend/planner.py:82-95 | for posts that follow the slots, posts on the same day are exactly posts in the same slot day |
| `PlanProperties.EmptyListRaises` | backend/planner.py:91-101 | with a post to plan, an empty subreddit, persona or query list raises, and the subreddits are checked first |
| `PlanProperties.NoSlotsNoDraws` | backend/planner.py:72-82 | with zero posts per week nothing is drawn, so even empty lists give an empty week `1 + offset` |
| `SeqEdit.Append` | frontend/src/components/InputForm.jsx:15 | `[...list, x]`: the length grows by one, the old prefix is unchanged and `x` is last |
| `SeqEdit.RemoveAt` | frontend/src/components/InputForm.jsx:16 | filter by position: in range, the length drops by one, earlier elements stay and later ones shift down; out of range, nothing changes |
| `SeqEdit.ReplaceAt` | frontend/src/components/InputForm.jsx:33-37 | the length is kept, position `i` holds the new value, every other position is unchanged |
| `SeqEdit.RemoveUndoesAppend` | frontend/src/components/InputForm.jsx:15-16 | removing the element just appended restores the list |
| `SeqEdit.RemoveAtIsSplice` | frontend/src/components/InputForm.jsx:16 | the positional filter is the same as cutting out element `i` |
| `SeqEdit.ReplaceRestores` | frontend/src/components/InputForm.jsx:33-37 | writing back the old value undoes a replacement |
| `SeqEdit.ReplaceOverwrites` | frontend/src/components/InputForm.jsx:33-37 | of two replacements at one position, the second wins |
| `InputForm.InitialDraftShape` | frontend/src/components/InputForm.jsx:6-13 | the editor starts valid, with SlideForge, two personas, two subreddits, two queries and 5 posts per week |
| `InputForm.AddPersona` | frontend/src/components/InputForm.jsx:15 | one blank persona is appended; the prefix and the rest of the draft are unchanged |
| `InputForm.RemovePersona` | frontend/src/components/InputForm.jsx:16 | the positional filter on personas; nothing else in the draft changes |
| `InputForm.UpdatePersona` | frontend/src/components/InputForm.jsx:17-21 | only the named field of persona `i` changes; the length, its other field, the other personas and the rest of the draft are unchanged |
| `InputForm.AddSubreddit` | frontend/src/components/InputForm.jsx:23 | one subreddit with empty name and empty description is appended; nothing else changes |
| `InputForm.RemoveSubreddit` | frontend/src/components/InputForm.jsx:24 | the positional filter on subreddits; nothing else in the draft changes |
| `InputForm.UpdateSubreddit` | frontend/src/components/InputForm.jsx:25-29 | only the name of subreddit `i` changes; its description and all other elements stay |
| `InputForm.AddQuery` | frontend/src/components/InputForm.jsx:31 | one empty query is appended; nothing else changes |
| `InputForm.RemoveQuery` | frontend/src/components/InputForm.jsx:32 | the positional filter on queries; nothing else in the draft changes |
| `InputForm.UpdateQuery` | frontend/src/components/InputForm.jsx:33-37 | query `i` is replaced and the length kept; nothing else changes |
| `InputForm.SetCompanyName` | frontend/src/components/InputForm.jsx:75 | only the company name changes; description and target audience stay |
| `InputForm.SetCompanyDescription` | frontend/src/components/InputForm.jsx:82 | only the company description changes; name and target audience stay |
| `InputForm.SliderValue` | frontend/src/components/InputForm.jsx:187-190 | a range input's value lies in [1, 20], equals an in-range value, and is clamped to the nearer bound otherwise |
| `InputForm.SetPostsPerWeek` | frontend/src/components/InputForm.jsx:187-192 | the slider leaves posts per week in [1, 20] and changes nothing else |
| `InputForm.Apply` | frontend/src/components/InputForm.jsx:15-37 | every edit the form offers keeps posts per week in [1, 20], and only the slider changes it |
| `InputForm.BuildPayload` | frontend/src/components/InputForm.jsx:39-48 | the payload's company, personas, subreddits, queries and posts per week are the draft's |
| `InputForm.PayloadRoundTrip` | frontend/src/components/InputForm.jsx:39-48 | payload and draft are inverse views of each other: nothing is dropped or added |
| `InputForm.RemoveUndoesAdd` | frontend/src/components/InputForm.jsx:15-32 | removing the row an add just created gives back the draft, for all three lists |
| `InputForm.UpdateRestores` | frontend/src/components/InputForm.jsx:17-21 | writing a persona field's old value back undoes an update |
| `InputForm.RemoveThenAddExample` | frontend/src/components/InputForm.jsx:15-16 | removing the first of personas `[a, b]` and adding one gives `[b, blank]` |
| `CalendarView.Serialize` | backend/models.py:46-49 | the response body keeps the week number and every post, in order, with its comment list |
| `CalendarView.Initial` | frontend/src/components/CalendarView.jsx:58 | `charAt(0)`: a one-character prefix of the author, or empty for an empty author (characters as Unicode scalar values; see "Left out") |
| `CalendarView.RenderComment` | frontend/src/components/CalendarView.jsx:55-64 | a comment line shows the author's initial, the author and the content |
| `CalendarView.RenderPost` | frontend/src/components/CalendarView.jsx:30-68 | a card shows the post's fields; it has an engagement section iff comments are present and non-empty, with one line per comment, in order |
| `CalendarView.Render` | frontend/src/components/CalendarView.jsx:5-21 | nothing for a missing calendar; otherwise the week-number heading and one card per post, in the order received |
| `CalendarView.AbsentLikeEmpty` | frontend/src/components/CalendarView.jsx:49 | a missing comment list and an empty one render the same card |
| `CalendarView.CardShowsPost` | frontend/src/components/CalendarView.jsx:30-64 | a card can be read back into its post when the comments are top-level: no field is lost |
| `App.Step` | frontend/src/App.jsx:11-23 | a request goes out iff a submission passes the disabled button and the required fields, and it sets `loading` with the draft's payload; while loading, submission does nothing; success stores the response; failure keeps calendar and draft and alerts; either outcome clears `loading`; reset reseeds the editor |
| `App.View` | frontend/src/App.jsx:39-43 | the editor is shown exactly when no calendar is held, otherwise the rendering of the calendar |
| `App.StepKeepsInv` | frontend/src/App.jsx:11-43 | every enabled event keeps the invariant: editor mounted iff no calendar, loading only without calendar, slider in range |
| `App.StartInv` | frontend/src/App.jsx:7-9 | the first page load satisfies the invariant and shows the seeded editor, not generating |
| `App.RunKeepsInv` | frontend/src/App.jsx:11-43 | the invariant holds after every allowed sequence of events |
| `App.RequestsBalance` | frontend/src/App.jsx:11-22 | requests sent plus the one in flight before equal resolutions plus the one in flight after |
| `App.AtMostOneInFlight` | frontend/src/App.jsx:11-22 | from the first load, requests sent exceed resolutions by at most one, and by exactly one iff `loading` |
| `App.FailureKeepsDraft` | frontend/src/App.jsx:17-21 | submit then failure returns to exactly the same page, draft intact, after one request and one alert |
| `App.ResetReseeds` | frontend/src/App.jsx:42 | "Start Over" gives the first page again, with the seed values such as SlideForge, not the submitted draft |
| `App.SuccessShowsResponse` | frontend/src/App.jsx:15-16 | a successful response replaces the editor with the rendering of exactly that response |
| `Campaign.DefaultPayload` | frontend/src/components/InputForm.jsx:39-48 | the untouched editor sends a payload with all three lists non-empty and 5 posts per week |
| `Campaign.TheOtherPersona` | backend/planner.py:111 | with the two seed personas, the only other persona of a post's author is the remaining one |
| `Campaign.DefaultPost` | backend/planner.py:98-118 | a post planned from the default payload is by a seed persona and has one comment, by the other seed persona |
| `Campaign.DefaultPosts` | backend/planner.py:108-118 | every post planned from the default payload has that shape |
| `Campaign.DefaultCampaignWeek` | backend/planner.py:63-76 | for every oracle, the default campaign plans week 1 with 5 posts, no two on the same day |
| `Campaign.DefaultCampaignComments` | backend/planner.py:108-118 | for every oracle, each default-campaign post has exactly one comment, by the persona that did not write it |
| `Campaign.OneCommentCards` | frontend/src/components/CalendarView.jsx:49-55 | a served calendar whose posts each carry one comment renders as cards with one engagement line each |
| `Campaign.DefaultCampaignRendered` | frontend/src/components/CalendarView.jsx:11-55 | the default campaign shows under "Week 1" as 5 cards, each with one engagement line |

## Left out

- The `MockLLM` templates are left out. The title, body and comment text are the oracle's `postText` and `commentText`, uninterpreted strings. The model states only which inputs they receive.
- The probability distribution of `random` is left out. Each draw is an oracle field, and every property holds for every oracle. Draws are indexed by slot and comment position. Any sequence of draws in one random stream is such an oracle.
- `backend/main.py` is not part of this model. It is HTTP wiring that always passes `week_offset = 0`. `Planner.GenerateWeek` takes any offset, and `Campaign` uses 0.
- The request transport (`axios.post`), `console.error` and the `alert` call are left out. The request is the `App.Request` effect and the alert is `App.FailureAlert`. A request that never resolves is a trace with no `Settle` event. In such a trace the page stays loading, which `App.AtMostOneInFlight` accounts for.
- A successful response whose body is falsy is left out. The page would keep showing the editor. `App.Outcome.Succeeded` always carries a calendar.
- `CalendarView.Render` assumes that a successful response has the `WeekCalendar` shape. A body that is truthy but malformed is still stored as the calendar (frontend/src/App.jsx:16). Examples are an HTML page, a body without `posts`, or a comment without a string `author`. The page then throws while rendering, at `calendar.posts.map` (frontend/src/components/CalendarView.jsx:21) or at `charAt(0)` (frontend/src/components/CalendarView.jsx:58). It shows neither a plan nor an alert. The typed `CalendarView.CalendarData` cannot represent such a body.
- Markup, styling, animation, icons, React keys and per-card animation delays are presentation only. The model keeps the fields a card shows and the order of cards and comment lines.
- `InputForm.UpdatePersona` and `InputForm.UpdateSubreddit` use value semantics. The source shallow-copies the list and then mutates the shared element object in place. The draft the form then holds is the same.
- `InputForm.UpdatePersona`, `InputForm.UpdateSubreddit` and `InputForm.UpdateQuery` require an index inside the list. The source does not guard this: an out-of-range update throws for personas and subreddits, and extends the array for queries. The form only offers updates for rows it shows.
- `InputForm.Edit` offers only the persona-name input. The form has no input for a persona's description or for the company's target audience, so those keep their seed values. `InputForm.UpdatePersona` still models both fields of the update function.
- `InputForm.RequiredFieldsFilled` models the browser's `required` check as "non-empty". The browser's validation bubble and focus handling are left out.
- `CalendarView.Initial` takes the first Unicode scalar value of the author, because a Dafny string is a sequence of scalar values. JavaScript's `charAt(0)` takes the first UTF-16 code unit. For an author whose first character lies outside the Basic Multilingual Plane, such as "🚀x", the page shows a lone surrogate and the model shows "🚀". The two agree for every author that starts with a BMP character.
- `InputForm.SliderValue` models the range input's value as a clamp into [1, 20]. Step handling and the `parseInt` of the browser's string are left out.
