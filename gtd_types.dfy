/** The shared vocabulary of the client and the server: the closed string
    unions, the record shapes the API exchanges, and the three constant
    tables (contexts, someday categories, weekly-review steps). */
module GtdTypes {
  import opened Wrappers

  /** Record ids are opaque strings chosen by the document store. */
  type Id = string
  /** The authenticated caller, as the auth middleware hands it over. */
  type UserId = string
  /** Integer epoch milliseconds. */
  type Timestamp = int

  datatype Context = Home | Office | Phone | Computer | Errands | Anywhere
  datatype ProjectStatus = Active | Completed | OnHold
  datatype SomedayCategory = Personal | Work | Hobby | Learning | Other

  /** The string literal each context stands for on the wire. */
  function ContextValue(c: Context): string
  {
    match c
    case Home => "@home"
    case Office => "@office"
    case Phone => "@phone"
    case Computer => "@computer"
    case Errands => "@errands"
    case Anywhere => "@anywhere"
  }

  /** Reads a context back from its wire string; any other string is not a
      member of the union. */
  function ParseContext(s: string): (r: Option<Context>)
    ensures r.Some? ==> ContextValue(r.value) == s
  {
    if s == "@home" then Some(Home)
    else if s == "@office" then Some(Office)
    else if s == "@phone" then Some(Phone)
    else if s == "@computer" then Some(Computer)
    else if s == "@errands" then Some(Errands)
    else if s == "@anywhere" then Some(Anywhere)
    else None
  }

  function StatusValue(s: ProjectStatus): string
  {
    match s
    case Active => "active"
    case Completed => "completed"
    case OnHold => "on-hold"
  }

  function ParseStatus(s: string): (r: Option<ProjectStatus>)
    ensures r.Some? ==> StatusValue(r.value) == s
  {
    if s == "active" then Some(Active)
    else if s == "completed" then Some(Completed)
    else if s == "on-hold" then Some(OnHold)
    else None
  }

  function CategoryValue(c: SomedayCategory): string
  {
    match c
    case Personal => "personal"
    case Work => "work"
    case Hobby => "hobby"
    case Learning => "learning"
    case Other => "other"
  }

  function ParseCategory(s: string): (r: Option<SomedayCategory>)
    ensures r.Some? ==> CategoryValue(r.value) == s
  {
    if s == "personal" then Some(Personal)
    else if s == "work" then Some(Work)
    else if s == "hobby" then Some(Hobby)
    else if s == "learning" then Some(Learning)
    else if s == "other" then Some(Other)
    else None
  }

  /** Each union is closed: every member has its own wire string, and
      parsing that string gives the member back. */
  lemma UnionsRoundTrip()
    ensures forall c: Context :: ParseContext(ContextValue(c)) == Some(c)
    ensures forall s: ProjectStatus :: ParseStatus(StatusValue(s)) == Some(s)
    ensures forall c: SomedayCategory :: ParseCategory(CategoryValue(c)) == Some(c)
  {
  }

  /** `ProjectStatus` is exactly {active, completed, on-hold}. */
  lemma StatusUnionIsExactly(s: string)
    ensures ParseStatus(s).Some? <==> s in {"active", "completed", "on-hold"}
  {
  }

  datatype InboxItem = InboxItem(id: Id, content: string, createdAt: Timestamp, processed: bool)

  datatype Project = Project(id: Id, name: string, description: string, status: ProjectStatus, createdAt: Timestamp)

  datatype Action = Action(
    id: Id,
    content: string,
    projectId: Option<Id>,
    context: Context,
    dueDate: Option<Timestamp>,
    completed: bool,
    createdAt: Timestamp)

  datatype WaitingFor = WaitingFor(
    id: Id,
    content: string,
    person: string,
    projectId: Option<Id>,
    expectedDate: Option<Timestamp>,
    completed: bool,
    createdAt: Timestamp)

  datatype SomedayMaybe = SomedayMaybe(id: Id, content: string, category: SomedayCategory, createdAt: Timestamp)

  datatype ReviewProgress = ReviewProgress(lastReviewDate: Option<Timestamp>, currentStep: int, completedSteps: seq<bool>)

  /** The partial updates a client may send: every field of a record except
      `id` and `createdAt`, each either left out or supplied. */
  datatype InboxPatch = InboxPatch(content: Update<string>, processed: Update<bool>)

  datatype ProjectPatch = ProjectPatch(name: Update<string>, description: Update<string>, status: Update<ProjectStatus>)

  datatype ActionPatch = ActionPatch(
    content: Update<string>,
    projectId: Update<Option<Id>>,
    context: Update<Context>,
    dueDate: Update<Option<Timestamp>>,
    completed: Update<bool>)

  datatype WaitingForPatch = WaitingForPatch(
    content: Update<string>,
    person: Update<string>,
    projectId: Update<Option<Id>>,
    expectedDate: Update<Option<Timestamp>>,
    completed: Update<bool>)

  datatype SomedayPatch = SomedayPatch(content: Update<string>, category: Update<SomedayCategory>)

  datatype ContextInfo = ContextInfo(value: Context, labelText: string, emoji: string)

  datatype CategoryInfo = CategoryInfo(value: SomedayCategory, labelText: string)

  /** The context table the views render, in display order. */
  const Contexts: seq<ContextInfo> := [
    ContextInfo(Home, "Home", "\U{1F3E0}"),
    ContextInfo(Office, "Office", "\U{1F3E2}"),
    ContextInfo(Phone, "Phone", "\U{1F4F1}"),
    ContextInfo(Computer, "Computer", "\U{1F4BB}"),
    ContextInfo(Errands, "Errands", "\U{1F697}"),
    ContextInfo(Anywhere, "Anywhere", "\U{1F30D}")
  ]

  const SomedayCategories: seq<CategoryInfo> := [
    CategoryInfo(Personal, "Personal"),
    CategoryInfo(Work, "Work"),
    CategoryInfo(Hobby, "Hobby"),
    CategoryInfo(Learning, "Learning"),
    CategoryInfo(Other, "Other")
  ]

  /** The seven weekly-review steps, in the order they are taken. */
  const ReviewSteps: seq<string> := [
    "Clear your inbox - Process all items",
    "Review your calendar - Check upcoming events",
    "Review Next Actions - Are they still relevant?",
    "Review Projects - Update status and add new actions",
    "Review Waiting For - Follow up if needed",
    "Review Someday/Maybe - Move items to active if ready",
    "Capture new ideas - Anything on your mind?"
  ]

  function ContextValues(): (r: seq<Context>)
    ensures |r| == |Contexts|
    ensures forall i :: 0 <= i < |r| ==> r[i] == Contexts[i].value
  {
    seq(|Contexts|, i requires 0 <= i < |Contexts| => Contexts[i].value)
  }

  function CategoryValues(): (r: seq<SomedayCategory>)
    ensures |r| == |SomedayCategories|
    ensures forall i :: 0 <= i < |r| ==> r[i] == SomedayCategories[i].value
  {
    seq(|SomedayCategories|, i requires 0 <= i < |SomedayCategories| => SomedayCategories[i].value)
  }

  /** The context table has six rows, lists every context exactly once, and
      its sixth row (index 5) is `@anywhere`. */
  lemma ContextsTable()
    ensures |Contexts| == 6 && Contexts[5].value == Anywhere
    ensures forall c: Context :: c in ContextValues()
    ensures forall i, j :: 0 <= i < j < |Contexts| ==> Contexts[i].value != Contexts[j].value
  {
    var vs := ContextValues();
    assert vs == [Home, Office, Phone, Computer, Errands, Anywhere];
    forall c: Context ensures c in vs {
      match c
      case Home => assert vs[0] == c;
      case Office => assert vs[1] == c;
      case Phone => assert vs[2] == c;
      case Computer => assert vs[3] == c;
      case Errands => assert vs[4] == c;
      case Anywhere => assert vs[5] == c;
    }
  }

  /** The category table has five rows, lists every category exactly once,
      and includes `other`. */
  lemma CategoriesTable()
    ensures |SomedayCategories| == 5 && Other in CategoryValues()
    ensures forall c: SomedayCategory :: c in CategoryValues()
    ensures forall i, j :: 0 <= i < j < |SomedayCategories| ==> SomedayCategories[i].value != SomedayCategories[j].value
  {
    var vs := CategoryValues();
    assert vs == [Personal, Work, Hobby, Learning, Other];
    forall c: SomedayCategory ensures c in vs {
      match c
      case Personal => assert vs[0] == c;
      case Work => assert vs[1] == c;
      case Hobby => assert vs[2] == c;
      case Learning => assert vs[3] == c;
      case Other => assert vs[4] == c;
    }
  }
}
