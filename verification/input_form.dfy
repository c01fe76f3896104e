/**
  The campaign editor (frontend/src/components/InputForm.jsx): a draft made
  of the company fields, three index-addressed lists (personas, subreddits,
  search queries) and the posts-per-week setting, the edits the form offers
  on it, and the request payload it submits.
 */
module InputForm {
  import opened Models
  import SeqEdit

  /** The form's state. */
  datatype Draft = Draft(
    company: CompanyInfo,
    personas: seq<Persona>,
    subreddits: seq<Subreddit>,
    queries: seq<string>,
    postsPerWeek: int)

  /** The bounds of the posts-per-week slider. */
  const MinPostsPerWeek: int := 1
  const MaxPostsPerWeek: int := 20

  /** The values the form starts with whenever it is mounted. */
  const InitialDraft: Draft := Draft(
    CompanyInfo("SlideForge", "AI Presentation Tool", "Startup founders"),
    [Persona("Growth Hacker", "Obsessed with scaling"), Persona("Skeptical Dev", "Hates marketing fluff")],
    [Subreddit("startups", Some("")), Subreddit("entrepreneur", Some(""))],
    ["AI tools for presentations", "Best pitch deck software"],
    5)

  /** What an "Add" button appends to each list. */
  const BlankPersona: Persona := Persona("", "")
  const BlankSubreddit: Subreddit := Subreddit("", Some(""))
  const BlankQuery: string := ""

  /** The invariant the form keeps: the slider's value lies within its bounds. */
  predicate Valid(d: Draft) {
    MinPostsPerWeek <= d.postsPerWeek <= MaxPostsPerWeek
  }

  /** The two fields of a persona an update can address. */
  datatype PersonaField = NameField | DescriptionField

  /** `addPersona`: one blank persona at the end; nothing else changes. */
  function AddPersona(d: Draft): (r: Draft)
    ensures |r.personas| == |d.personas| + 1
    ensures r.personas[..|d.personas|] == d.personas
    ensures r.personas[|d.personas|] == Persona("", "")
    ensures r.(personas := d.personas) == d
  {
    d.(personas := SeqEdit.Append(d.personas, BlankPersona))
  }

  /** `removePersona(index)`: the persona at `index` leaves, later ones move down; any other index changes nothing. */
  function RemovePersona(d: Draft, index: int): (r: Draft)
    ensures 0 <= index < |d.personas| ==>
      && |r.personas| == |d.personas| - 1
      && (forall j :: 0 <= j < index ==> r.personas[j] == d.personas[j])
      && (forall j :: index <= j < |r.personas| ==> r.personas[j] == d.personas[j + 1])
    ensures !(0 <= index < |d.personas|) ==> r == d
    ensures r.(personas := d.personas) == d
  {
    d.(personas := SeqEdit.RemoveAt(d.personas, index))
  }

  /** `updatePersona(index, field, value)`: only the named field of the persona at `index` changes. */
  function UpdatePersona(d: Draft, index: int, field: PersonaField, value: string): (r: Draft)
    requires 0 <= index < |d.personas|
    ensures |r.personas| == |d.personas|
    ensures r.personas[index].name == (if field == NameField then value else d.personas[index].name)
    ensures r.personas[index].description == (if field == DescriptionField then value else d.personas[index].description)
    ensures forall j :: 0 <= j < |d.personas| && j != index ==> r.personas[j] == d.personas[j]
    ensures r.(personas := d.personas) == d
  {
    var p := d.personas[index];
    var updated := match field
      case NameField => p.(name := value)
      case DescriptionField => p.(description := value);
    d.(personas := SeqEdit.ReplaceAt(d.personas, index, updated))
  }

  /** `addSubreddit`: one blank subreddit at the end; nothing else changes. */
  function AddSubreddit(d: Draft): (r: Draft)
    ensures |r.subreddits| == |d.subreddits| + 1
    ensures r.subreddits[..|d.subreddits|] == d.subreddits
    ensures r.subreddits[|d.subreddits|] == Subreddit("", Some(""))
    ensures r.(subreddits := d.subreddits) == d
  {
    d.(subreddits := SeqEdit.Append(d.subreddits, BlankSubreddit))
  }

  /** `removeSubreddit(index)`: the subreddit at `index` leaves, later ones move down; any other index changes nothing. */
  function RemoveSubreddit(d: Draft, index: int): (r: Draft)
    ensures 0 <= index < |d.subreddits| ==>
      && |r.subreddits| == |d.subreddits| - 1
      && (forall j :: 0 <= j < index ==> r.subreddits[j] == d.subreddits[j])
      && (forall j :: index <= j < |r.subreddits| ==> r.subreddits[j] == d.subreddits[j + 1])
    ensures !(0 <= index < |d.subreddits|) ==> r == d
    ensures r.(subreddits := d.subreddits) == d
  {
    d.(subreddits := SeqEdit.RemoveAt(d.subreddits, index))
  }

  /** `updateSubreddit(index, value)`: only the name of the subreddit at `index` changes; its description stays. */
  function UpdateSubreddit(d: Draft, index: int, value: string): (r: Draft)
    requires 0 <= index < |d.subreddits|
    ensures |r.subreddits| == |d.subreddits|
    ensures r.subreddits[index].name == value
    ensures r.subreddits[index].description == d.subreddits[index].description
    ensures forall j :: 0 <= j < |d.subreddits| && j != index ==> r.subreddits[j] == d.subreddits[j]
    ensures r.(subreddits := d.subreddits) == d
  {
    d.(subreddits := SeqEdit.ReplaceAt(d.subreddits, index, d.subreddits[index].(name := value)))
  }

  /** `addQuery`: one empty query at the end; nothing else changes. */
  function AddQuery(d: Draft): (r: Draft)
    ensures |r.queries| == |d.queries| + 1
    ensures r.queries[..|d.queries|] == d.queries
    ensures r.queries[|d.queries|] == ""
    ensures r.(queries := d.queries) == d
  {
    d.(queries := SeqEdit.Append(d.queries, BlankQuery))
  }

  /** `removeQuery(index)`: the query at `index` leaves, later ones move down; any other index changes nothing. */
  function RemoveQuery(d: Draft, index: int): (r: Draft)
    ensures 0 <= index < |d.queries| ==>
      && |r.queries| == |d.queries| - 1
      && (forall j :: 0 <= j < index ==> r.queries[j] == d.queries[j])
      && (forall j :: index <= j < |r.queries| ==> r.queries[j] == d.queries[j + 1])
    ensures !(0 <= index < |d.queries|) ==> r == d
    ensures r.(queries := d.queries) == d
  {
    d.(queries := SeqEdit.RemoveAt(d.queries, index))
  }

  /** `updateQuery(index, value)`: the query at `index` is replaced, the list keeps its length. */
  function UpdateQuery(d: Draft, index: int, value: string): (r: Draft)
    requires 0 <= index < |d.queries|
    ensures |r.queries| == |d.queries|
    ensures r.queries[index] == value
    ensures forall j :: 0 <= j < |d.queries| && j != index ==> r.queries[j] == d.queries[j]
    ensures r.(queries := d.queries) == d
  {
    d.(queries := SeqEdit.ReplaceAt(d.queries, index, value))
  }

  /** The company-name input: `{...company, name: value}`. */
  function SetCompanyName(d: Draft, value: string): (r: Draft)
    ensures r.company.name == value
    ensures r.company.description == d.company.description
    ensures r.company.targetAudience == d.company.targetAudience
    ensures r.(company := d.company) == d
  {
    d.(company := d.company.(name := value))
  }

  /** The company-description input: `{...company, description: value}`. */
  function SetCompanyDescription(d: Draft, value: string): (r: Draft)
    ensures r.company.description == value
    ensures r.company.name == d.company.name
    ensures r.company.targetAudience == d.company.targetAudience
    ensures r.(company := d.company) == d
  {
    d.(company := d.company.(description := value))
  }

  /** A range input's value: the browser keeps it within the slider's bounds. */
  function SliderValue(raw: int): (v: int)
    ensures MinPostsPerWeek <= v <= MaxPostsPerWeek
    ensures MinPostsPerWeek <= raw <= MaxPostsPerWeek ==> v == raw
    ensures raw < MinPostsPerWeek ==> v == MinPostsPerWeek
    ensures raw > MaxPostsPerWeek ==> v == MaxPostsPerWeek
  {
    if raw < MinPostsPerWeek then MinPostsPerWeek
    else if raw > MaxPostsPerWeek then MaxPostsPerWeek
    else raw
  }

  /** The posts-per-week slider: `setPostsPerWeek(parseInt(value))`. */
  function SetPostsPerWeek(d: Draft, raw: int): (r: Draft)
    ensures Valid(r)
    ensures MinPostsPerWeek <= raw <= MaxPostsPerWeek ==> r.postsPerWeek == raw
    ensures r.(postsPerWeek := d.postsPerWeek) == d
  {
    d.(postsPerWeek := SliderValue(raw))
  }

  /** One user action on the form; a persona row offers an input for its name only. */
  datatype Edit =
    | AddPersonaRow
    | RemovePersonaRow(index: int)
    | EditPersonaName(index: int, value: string)
    | AddSubredditRow
    | RemoveSubredditRow(index: int)
    | EditSubreddit(index: int, value: string)
    | AddQueryRow
    | RemoveQueryRow(index: int)
    | EditQuery(index: int, value: string)
    | EditCompanyName(value: string)
    | EditCompanyDescription(value: string)
    | MoveSlider(raw: int)

  /** An update addresses a row the form shows; adds, removes and field edits are always possible. */
  predicate Applicable(d: Draft, e: Edit) {
    match e
    case EditPersonaName(i, _) => 0 <= i < |d.personas|
    case EditSubreddit(i, _) => 0 <= i < |d.subreddits|
    case EditQuery(i, _) => 0 <= i < |d.queries|
    case _ => true
  }

  /** The draft after one user action. */
  function Apply(d: Draft, e: Edit): (r: Draft)
    requires Applicable(d, e)
    ensures Valid(d) ==> Valid(r)
    ensures !e.MoveSlider? ==> r.postsPerWeek == d.postsPerWeek
  {
    match e
    case AddPersonaRow => AddPersona(d)
    case RemovePersonaRow(i) => RemovePersona(d, i)
    case EditPersonaName(i, v) => UpdatePersona(d, i, NameField, v)
    case AddSubredditRow => AddSubreddit(d)
    case RemoveSubredditRow(i) => RemoveSubreddit(d, i)
    case EditSubreddit(i, v) => UpdateSubreddit(d, i, v)
    case AddQueryRow => AddQuery(d)
    case RemoveQueryRow(i) => RemoveQuery(d, i)
    case EditQuery(i, v) => UpdateQuery(d, i, v)
    case EditCompanyName(v) => SetCompanyName(d, v)
    case EditCompanyDescription(v) => SetCompanyDescription(d, v)
    case MoveSlider(raw) => SetPostsPerWeek(d, raw)
  }

  /** The browser's presence check on the two `required` company inputs. */
  predicate RequiredFieldsFilled(d: Draft) {
    |d.company.name| > 0 && |d.company.description| > 0
  }

  /**
    Whether pressing "Generate Calendar" reaches `handleSubmit`: the button is
    disabled while a request is in flight, and the browser refuses a
    submission whose required inputs are empty.
   */
  predicate CanSubmit(d: Draft, isLoading: bool) {
    !isLoading && RequiredFieldsFilled(d)
  }

  /** `handleSubmit`: the request body, a snapshot of every part of the draft. */
  function BuildPayload(d: Draft): (p: InputData)
    ensures p.companyInfo == d.company
    ensures p.personas == d.personas
    ensures p.subreddits == d.subreddits
    ensures p.queries == d.queries
    ensures p.postsPerWeek == d.postsPerWeek
  {
    InputData(d.company, d.personas, d.subreddits, d.queries, d.postsPerWeek)
  }

  /** The draft a payload was built from. */
  function DraftOf(p: InputData): Draft {
    Draft(p.companyInfo, p.personas, p.subreddits, p.queries, p.postsPerWeek)
  }

  /** The payload carries the draft exactly: nothing is dropped, nothing added. */
  lemma PayloadRoundTrip(d: Draft, p: InputData)
    ensures DraftOf(BuildPayload(d)) == d
    ensures BuildPayload(DraftOf(p)) == p
  {
  }

  /** The form starts valid, with the seed company, two personas, two subreddits, two queries and five posts a week. */
  lemma InitialDraftShape()
    ensures Valid(InitialDraft)
    ensures InitialDraft.company.name == "SlideForge"
    ensures |InitialDraft.personas| == 2 && |InitialDraft.subreddits| == 2 && |InitialDraft.queries| == 2
    ensures InitialDraft.postsPerWeek == 5
  {
  }

  /** Removing the row an add just created gives the draft back. */
  lemma {:induction false} RemoveUndoesAdd(d: Draft)
    ensures RemovePersona(AddPersona(d), |d.personas|) == d
    ensures RemoveSubreddit(AddSubreddit(d), |d.subreddits|) == d
    ensures RemoveQuery(AddQuery(d), |d.queries|) == d
  {
    SeqEdit.RemoveUndoesAppend(d.personas, BlankPersona);
    SeqEdit.RemoveUndoesAppend(d.subreddits, BlankSubreddit);
    SeqEdit.RemoveUndoesAppend(d.queries, BlankQuery);
  }

  /** Writing the old value back undoes an update. */
  lemma UpdateRestores(d: Draft, index: int, field: PersonaField, value: string)
    requires 0 <= index < |d.personas|
    ensures var prior := if field == NameField then d.personas[index].name else d.personas[index].description;
      UpdatePersona(UpdatePersona(d, index, field, value), index, field, prior) == d
  {
    var r := UpdatePersona(UpdatePersona(d, index, field, value), index, field,
      if field == NameField then d.personas[index].name else d.personas[index].description);
    assert r.personas == d.personas;
  }

  /** Removing the first of two personas and adding one leaves the second persona followed by a blank one. */
  lemma RemoveThenAddExample(d: Draft, a: Persona, b: Persona)
    requires d.personas == [a, b]
    ensures AddPersona(RemovePersona(d, 0)).personas == [b, Persona("", "")]
  {
    var removed := RemovePersona(d, 0);
    assert removed.personas == [b];
  }
}
