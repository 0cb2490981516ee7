/** The dashboard's "Active Sessions" card: one row per running session with a
    status indicator, and a per-row action menu of which at most one is open. */
module ActiveSessions {
  import opened Wrappers

  datatype Session = Session(id: string, name: string, status: string)

  datatype DotColor = Green | Amber | Gray

  /** The status indicator of a row: the dot's colour and whether it pings. */
  datatype Indicator = Indicator(dot: DotColor, ping: bool)

  function IndicatorFor(status: string): (r: Indicator)
    ensures r.dot == Green <==> status == "running"
    ensures r.dot == Amber <==> status == "pending"
    ensures r.ping <==> status == "running"
  {
    var dot := if status == "running" then Green else if status == "pending" then Amber else Gray;
    Indicator(dot, status == "running")
  }

  /** Only a green dot pings. */
  lemma PingOnlyOnGreen(status: string)
    ensures IndicatorFor(status).ping ==> IndicatorFor(status).dot == Green
  {
  }

  /** What one row shows of its menu: whether the menu is rendered and the
      button's `aria-expanded`. */
  datatype RowMenu = RowMenu(menuShown: bool, ariaExpanded: bool)

  function RowMenuFor(menuOpen: Option<string>, id: string): (r: RowMenu)
    ensures r.menuShown <==> menuOpen == Some(id)
    ensures r.ariaExpanded == r.menuShown
  {
    RowMenu(menuOpen == Some(id), menuOpen == Some(id))
  }

  /** The card body: the empty state, or the rows in list order. */
  datatype Body = EmptyState | Rows(rows: seq<(Indicator, RowMenu)>)

  function BodyFor(sessions: seq<Session>, menuOpen: Option<string>): (b: Body)
    ensures b == EmptyState <==> sessions == []
    ensures b.Rows? ==> |b.rows| == |sessions|
    ensures b.Rows? ==> forall i :: 0 <= i < |sessions| ==>
      b.rows[i] == (IndicatorFor(sessions[i].status), RowMenuFor(menuOpen, sessions[i].id))
  {
    if sessions == [] then EmptyState
    else Rows(seq(|sessions|, i requires 0 <= i < |sessions| =>
      (IndicatorFor(sessions[i].status), RowMenuFor(menuOpen, sessions[i].id))))
  }

  /** With distinct session ids, no two rows show their menus at once. */
  lemma AtMostOneMenuShown(sessions: seq<Session>, menuOpen: Option<string>, i: int, j: int)
    requires forall a, b :: 0 <= a < b < |sessions| ==> sessions[a].id != sessions[b].id
    requires 0 <= i < |sessions| && 0 <= j < |sessions|
    requires BodyFor(sessions, menuOpen).rows[i].1.menuShown && BodyFor(sessions, menuOpen).rows[j].1.menuShown
    ensures i == j
  {
  }

  /** The `menuOpen` state hook. */
  class ActiveSessionsCard {
    var menuOpen: Option<string>

    constructor ()
      ensures menuOpen == None
    {
      menuOpen := None;
    }

    /** A click on a row's menu button: close its menu if open, otherwise
        open it and so close any other. */
    method ClickMenuButton(id: string)
      modifies this
      ensures old(menuOpen) == Some(id) ==> menuOpen == None
      ensures old(menuOpen) != Some(id) ==> menuOpen == Some(id)
      ensures forall other :: other != id ==> !RowMenuFor(menuOpen, other).menuShown
    {
      menuOpen := if menuOpen == Some(id) then None else Some(id);
    }
  }
}
