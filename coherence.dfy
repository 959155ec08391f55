/** How the client store's optimistic cache updates line up with what the
    server does with the same request: after a successful PATCH the record
    the client keeps is the record the server answers with, and a project
    delete unlinks the same records on both sides. */
module Coherence {
  import opened Wrappers
  import opened GtdTypes
  import opened DocStore
  import opened GtdStore
  import InboxRoutes
  import ProjectRoutes
  import ActionRoutes
  import WaitingForRoutes
  import SomedayRoutes

  /** Marking an inbox item processed caches what the server returns for
      the `{ processed: true }` patch. */
  lemma ProcessAgrees(d: Doc<InboxRoutes.InboxFields>)
    ensures InboxRoutes.View(d.(body := InboxRoutes.Merge(InboxPatch(Keep, Set(true)))(d.body)))
         == MarkProcessed(InboxRoutes.View(d))
  {
  }

  lemma ProjectPatchAgrees(d: Doc<ProjectRoutes.ProjectFields>, u: ProjectPatch)
    ensures ProjectRoutes.View(d.(body := ProjectRoutes.Merge(u)(d.body))) == PatchProject(ProjectRoutes.View(d), u)
  {
  }

  lemma ActionPatchAgrees(d: Doc<ActionRoutes.ActionFields>, u: ActionPatch)
    ensures ActionRoutes.View(d.(body := ActionRoutes.Merge(u)(d.body))) == PatchAction(ActionRoutes.View(d), u)
  {
  }

  /** Holds even for a stored waiting-for that has no `completed` field:
      the client reads it as not completed, as the server's view does. */
  lemma WaitingPatchAgrees(d: Doc<WaitingForRoutes.WaitingFields>, u: WaitingForPatch)
    ensures WaitingForRoutes.View(d.(body := WaitingForRoutes.Merge(u)(d.body))) == PatchWaiting(WaitingForRoutes.View(d), u)
  {
  }

  lemma SomedayPatchAgrees(d: Doc<SomedayRoutes.SomedayFields>, u: SomedayPatch)
    ensures SomedayRoutes.View(d.(body := SomedayRoutes.Merge(u)(d.body))) == PatchSomeday(SomedayRoutes.View(d), u)
  {
  }

  /** The patch a toggle sends flips the flag on the server exactly as the
      client flips its cached copy. */
  lemma ToggleAgrees(a: Doc<ActionRoutes.ActionFields>, w: Doc<WaitingForRoutes.WaitingFields>)
    ensures var v := ActionRoutes.View(a);
      ActionRoutes.View(a.(body := ActionRoutes.Merge(ActionPatch(Keep, Keep, Keep, Keep, Set(!v.completed)))(a.body)))
      == ToggleAction(v)
    ensures var v := WaitingForRoutes.View(w);
      WaitingForRoutes.View(w.(body := WaitingForRoutes.Merge(WaitingForPatch(Keep, Keep, Keep, Keep, Set(!v.completed)))(w.body)))
      == ToggleWaiting(v)
  {
  }

  /** The server's cascade and the client's cache clear the same link: a
      caller's action linked to the deleted project ends up, on both
      sides, as the same record with no project. */
  lemma UnlinkAgrees(a: Doc<ActionRoutes.ActionFields>, w: Doc<WaitingForRoutes.WaitingFields>, pid: Id)
    ensures ActionRoutes.Linked(pid)(a.body) <==> ActionRoutes.View(a).projectId == Some(pid)
    ensures ActionRoutes.View(a.(body := ActionRoutes.Unlink(a.body))) == ActionRoutes.View(a).(projectId := None)
    ensures WaitingForRoutes.Linked(pid)(w.body) <==> WaitingForRoutes.View(w).projectId == Some(pid)
    ensures WaitingForRoutes.View(w.(body := WaitingForRoutes.Unlink(w.body))) == WaitingForRoutes.View(w).(projectId := None)
  {
  }
}
