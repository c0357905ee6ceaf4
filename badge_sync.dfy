/** The app-badge rule of `useBadgeSync`: count the projects waiting with
    status "Pending" and show that count on the application badge, or clear
    the badge when there are none. The count query and the Badging API are
    parameters. */
module BadgeSync {

  /** A row of `pmp_projects`; only its status matters here. */
  datatype Project = Project(id: string, status: string)

  /** What the exact-count query filtered on `status = "Pending"` returned:
      an error, a null count, or a count over these table rows. */
  datatype CountResponse = QueryError | NullCount | Counted(projects: seq<Project>)

  /** Where the badge call would go: `navigator` is defined, and has `setAppBadge`. */
  datatype BadgeEnv = BadgeEnv(navigatorDefined: bool, badgeApi: bool)

  /** The call `applyBadge` makes. */
  datatype BadgeCall = NoCall | SetBadge(count: int) | ClearBadge

  const PendingStatus := "Pending"

  /** The number of rows whose status is exactly "Pending". */
  function CountPending(projects: seq<Project>): (r: nat)
    ensures r <= |projects|
  {
    if projects == [] then 0
    else CountPending(projects[1..]) + (if projects[0].status == PendingStatus then 1 else 0)
  }

  /** A count of rows: at most the number of rows, zero exactly when no row is
      pending, and all of them exactly when every row is. */
  lemma {:induction false} CountPendingBounds(projects: seq<Project>)
    ensures CountPending(projects) <= |projects|
    ensures CountPending(projects) == 0 <==> forall i :: 0 <= i < |projects| ==> projects[i].status != PendingStatus
    ensures CountPending(projects) == |projects| <==> forall i :: 0 <= i < |projects| ==> projects[i].status == PendingStatus
  {
    if projects != [] {
      CountPendingBounds(projects[1..]);
      assert forall i :: 1 <= i < |projects| ==> projects[i] == projects[1..][i - 1];
    }
  }

  /** `fetchPendingCount`: the count, with an error or a null count read as 0. */
  function FetchPendingCount(response: CountResponse): (count: nat)
    ensures response.Counted? ==> count == CountPending(response.projects)
    ensures !response.Counted? ==> count == 0
  {
    match response
    case QueryError => 0
    case NullCount => 0
    case Counted(projects) => CountPending(projects)
  }

  /** `applyBadge`: nothing without `navigator` or the Badging API; otherwise
      set the badge to a positive count and clear it for any other. A failed
      set or clear is caught and dropped, so the call is all there is. */
  function ApplyBadge(count: int, env: BadgeEnv): (call: BadgeCall)
    ensures call == NoCall <==> !env.navigatorDefined || !env.badgeApi
    ensures call.SetBadge? <==> env.navigatorDefined && env.badgeApi && count > 0
    ensures call.SetBadge? ==> call.count == count
    ensures call == ClearBadge <==> env.navigatorDefined && env.badgeApi && count <= 0
  {
    if !env.navigatorDefined then NoCall
    else if !env.badgeApi then NoCall
    else if count > 0 then SetBadge(count)
    else ClearBadge
  }

  /** `syncBadge`: fetch the count, then apply it. */
  function SyncBadge(response: CountResponse, env: BadgeEnv): (call: BadgeCall)
    ensures call == NoCall <==> !env.navigatorDefined || !env.badgeApi
    ensures call.SetBadge? ==> response.Counted? && 0 < call.count <= |response.projects|
    ensures !response.Counted? && env.navigatorDefined && env.badgeApi ==> call == ClearBadge
  {
    ApplyBadge(FetchPendingCount(response), env)
  }

  /** With the Badging API present, the badge shows the number of pending
      projects when there is at least one, and is cleared when there are none
      or when the count could not be read. */
  lemma SyncBadgeShowsPending(response: CountResponse, env: BadgeEnv)
    requires env.navigatorDefined && env.badgeApi
    ensures response.Counted? && (exists i :: 0 <= i < |response.projects| && response.projects[i].status == PendingStatus) ==>
      SyncBadge(response, env) == SetBadge(CountPending(response.projects))
    ensures response.Counted? && (forall i :: 0 <= i < |response.projects| ==> response.projects[i].status != PendingStatus) ==>
      SyncBadge(response, env) == ClearBadge
    ensures !response.Counted? ==> SyncBadge(response, env) == ClearBadge
  {
    if response.Counted? {
      CountPendingBounds(response.projects);
    }
  }
}
