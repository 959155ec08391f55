/** The HTTP requests the client store sends, one constructor per call of
    the API client, carrying the JSON body it serialises. */
module Api {
  import opened Wrappers
  import opened GtdTypes
  import InboxRoutes
  import ProjectRoutes
  import ActionRoutes
  import WaitingForRoutes
  import SomedayRoutes

  datatype ApiRequest =
    | GetInbox | GetProjects | GetActions | GetWaitingFor | GetSomedayMaybe | GetReview
    | AddInboxItem(content: string)
    | UpdateInboxItem(id: Id, inboxPatch: InboxPatch)
    | DeleteInboxItem(id: Id)
    | AddProject(name: string, description: string)
    | UpdateProject(id: Id, projectPatch: ProjectPatch)
    | DeleteProject(id: Id)
    | AddAction(content: string, context: Context, projectId: Option<Id>, dueDate: Option<Timestamp>)
    | UpdateAction(id: Id, actionPatch: ActionPatch)
    | DeleteAction(id: Id)
    | AddWaitingFor(content: string, person: string, projectId: Option<Id>, expectedDate: Option<Timestamp>)
    | UpdateWaitingFor(id: Id, waitingPatch: WaitingForPatch)
    | DeleteWaitingFor(id: Id)
    | AddSomedayMaybe(content: string, category: SomedayCategory)
    | UpdateSomedayMaybe(id: Id, somedayPatch: SomedayPatch)
    | DeleteSomedayMaybe(id: Id)
    | StartReview
    | CompleteReviewStep(step: int)
    | UpdateReview(review: ReviewProgress)

  /** The six reads of the initial load. */
  const InitialLoad: seq<ApiRequest> := [GetInbox, GetProjects, GetActions, GetWaitingFor, GetSomedayMaybe, GetReview]

  /** Every field the client serialises is present in the body, so each
      create request reaches the server with its fields supplied. The
      server accepts it exactly when the required strings are non-empty,
      and then stores what the client sent. */
  lemma CreateBodiesAccepted(content: string, person: string, name: string, description: string, context: Context,
                             category: SomedayCategory, projectId: Option<Id>, date: Option<Timestamp>)
    ensures InboxRoutes.NewFields(InboxRoutes.CreateRequest(Some(content))).Some? <==> content != ""
    ensures ProjectRoutes.NewFields(ProjectRoutes.CreateRequest(Some(name), Some(description))) ==
      if name == "" then None else Some(ProjectRoutes.ProjectFields(name, description, Active))
    ensures ActionRoutes.NewFields(ActionRoutes.CreateRequest(Some(content), Some(context), projectId, date)) ==
      if content == "" then None else Some(ActionRoutes.ActionFields(content, context, projectId, date, false))
    ensures WaitingForRoutes.NewFields(WaitingForRoutes.CreateRequest(Some(content), Some(person), projectId, date)) ==
      if content == "" || person == "" then None
      else Some(WaitingForRoutes.WaitingFields(content, person, projectId, date, Some(false)))
    ensures SomedayRoutes.NewFields(SomedayRoutes.CreateRequest(Some(content), Some(category))) ==
      if content == "" then None else Some(SomedayRoutes.SomedayFields(content, category))
  {
  }
}
