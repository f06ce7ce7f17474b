/**
 * One row of the containers table (web/src/app/containers/containers.tsx):
 * the short id, the ports, the state badge and the actions offered for the
 * container's reported state. Only the decisions are modelled, not markup.
 */
module ContainerRows {
  import opened Wrappers
  import opened PortLinks

  /** A container as the node reports it (IContainer). */
  datatype Container = Container(id: string, name: string, state: string, status: string, ports: seq<Port>)

  /** The action buttons of a row, in the order they are shown. */
  datatype Action = Restart | Start | Stop | Delete

  /** The look of the state badge. */
  datatype BadgeVariant = DefaultBadge | DestructiveBadge

  /** The badge is destructive for an exited container and only then. */
  function BadgeVariantOf(state: string): (v: BadgeVariant)
    ensures v == DestructiveBadge <==> state == "exited"
  {
    if state == "exited" then DestructiveBadge else DefaultBadge
  }

  /**
   * The actions offered for a state: Restart while running, then Start for
   * an exited container and Stop for any other state, then Delete always.
   */
  function ActionsFor(state: string): (actions: seq<Action>)
    ensures Restart in actions <==> state == "running"
    ensures Start in actions <==> state == "exited"
    ensures Stop in actions <==> state != "exited"
    ensures Delete in actions && actions[|actions| - 1] == Delete
    ensures Restart in actions ==> actions[0] == Restart
    ensures forall i, j :: 0 <= i < j < |actions| ==> actions[i] != actions[j]
  {
    (if state == "running" then [Restart] else [])
    + (if state == "exited" then [Start] else [Stop])
    + [Delete]
  }

  /** An exited container can be started or deleted. */
  lemma ExitedActions()
    ensures ActionsFor("exited") == [Start, Delete]
  {
  }

  /** A running container can be restarted, stopped or deleted. */
  lemma RunningActions()
    ensures ActionsFor("running") == [Restart, Stop, Delete]
  {
  }

  /** `id.substring(0, 12)`: the first twelve characters, or the whole id if shorter. */
  function ShortId(id: string): (s: string)
    ensures |s| == if |id| < 12 then |id| else 12
    ensures s <= id
  {
    if |id| <= 12 then id else id[..12]
  }

  /** What a row shows. */
  datatype Row = Row(shortId: string, name: string, ports: seq<PortEntry>,
                     state: string, status: string, badge: BadgeVariant, actions: seq<Action>)

  /**
   * The row for a container: its short id, one port entry per binding, and
   * the badge and buttons its reported state calls for.
   */
  function RowOf(c: Container, containerBaseUrl: Option<string>, location: BrowserLocation): (r: Row)
    ensures r.shortId == ShortId(c.id) && r.name == c.name && r.state == c.state && r.status == c.status
    ensures r.ports == PortsHtml(c.ports, containerBaseUrl, location) && |r.ports| == |c.ports|
    ensures r.badge == BadgeVariantOf(c.state) && r.actions == ActionsFor(c.state)
    ensures r.badge == DestructiveBadge <==> c.state == "exited"
    ensures Restart in r.actions <==> c.state == "running"
    ensures Start in r.actions <==> c.state == "exited"
    ensures Stop in r.actions <==> c.state != "exited"
    ensures Delete in r.actions
  {
    Row(ShortId(c.id), c.name, PortsHtml(c.ports, containerBaseUrl, location),
        c.state, c.status, BadgeVariantOf(c.state), ActionsFor(c.state))
  }

  /** The rows for a list of containers, one per container, in order. */
  function RowsOf(items: seq<Container>, containerBaseUrl: Option<string>, location: BrowserLocation): (rows: seq<Row>)
    ensures |rows| == |items|
    ensures forall i :: 0 <= i < |items| ==> rows[i] == RowOf(items[i], containerBaseUrl, location)
  {
    if items == [] then []
    else [RowOf(items[0], containerBaseUrl, location)] + RowsOf(items[1..], containerBaseUrl, location)
  }

  /** The table body: "No data to display" when there is no item list, else the rows. */
  datatype TableBody = NoData | Rows(rows: seq<Row>)

  /**
   * The table body for `containers?.items`: the placeholder exactly when
   * the list is missing. An empty list is truthy in JavaScript, so it
   * gives an empty table, not the placeholder.
   */
  function TableBodyOf(items: Option<seq<Container>>, containerBaseUrl: Option<string>, location: BrowserLocation): (t: TableBody)
    ensures t == NoData <==> items == None
    ensures items.Some? ==> t == Rows(RowsOf(items.value, containerBaseUrl, location))
  {
    match items
    case None => NoData
    case Some(list) => Rows(RowsOf(list, containerBaseUrl, location))
  }

  /**
   * The actions and badge of a row follow the reported state alone: two
   * containers reporting the same state get the same buttons and badge.
   */
  lemma ActionsFollowState(c1: Container, c2: Container, b: Option<string>, location: BrowserLocation)
    requires c1.state == c2.state
    ensures RowOf(c1, b, location).actions == RowOf(c2, b, location).actions
    ensures RowOf(c1, b, location).badge == RowOf(c2, b, location).badge
  {
  }
}
