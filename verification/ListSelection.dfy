/** The selection of each list tab while data arrive and keys and clicks come in. */
module ListSelection {
  import opened Prelude

  datatype Tab = Parties | Peers | Dars | Workflows

  datatype View = View(items: seq<string>, query: string, selected: Option<nat>)

  /** `matches` says whether an item fits a query. */
  datatype Lists = Lists(
    parties: View, peers: View, dars: View, feed: View, active: Tab, matches: (string, string) -> bool)

  datatype Edit = ClearQuery | PopQuery | PushQuery(c: char)

  /** `Loaded` is a successful update of a tab, `Click` a click on the row with that index. */
  datatype Event = Loaded(tab: Tab, items: seq<string>)
    | Search(edit: Edit) | Next | Previous | Click(index: nat) | Switch(tab: Tab)

  function ViewOf(lists: Lists, tab: Tab): View {
    match tab
    case Parties => lists.parties
    case Peers => lists.peers
    case Dars => lists.dars
    case Workflows => lists.feed
  }

  function WithView(lists: Lists, tab: Tab, view: View): Lists {
    match tab
    case Parties => lists.(parties := view)
    case Peers => lists.(peers := view)
    case Dars => lists.(dars := view)
    case Workflows => lists.(feed := view)
  }

  predicate Searchable(tab: Tab) {
    tab == Parties || tab == Dars
  }

  function Filter(items: seq<string>, query: string, matches: (string, string) -> bool): seq<string> {
    if items == [] then []
    else
      var before, last := Filter(items[..|items| - 1], query, matches), items[|items| - 1];
      if matches(last, query) then before + [last] else before
  }

  /** The rows that a tab shows. */
  function Shown(lists: Lists, tab: Tab): seq<string> {
    var view := ViewOf(lists, tab);
    if Searchable(tab) then Filter(view.items, view.query, lists.matches) else view.items
  }

  function Select(lists: Lists, tab: Tab, selected: Option<nat>): Lists {
    WithView(lists, tab, ViewOf(lists, tab).(selected := selected))
  }

  function FirstOf(length: nat): Option<nat> {
    if length > 0 then Some(0) else None
  }

  /** Keep the selection when it is in range, else take the first row, if any. */
  function Clamped(selected: Option<nat>, length: nat): Option<nat> {
    if selected.Some? && selected.value < length then selected else FirstOf(length)
  }

  function EditedQuery(query: string, edit: Edit): string {
    match edit
    case ClearQuery => ""
    case PopQuery => if query == "" then "" else query[..|query| - 1]
    case PushQuery(c) => query + [c]
  }

  /** The selection moved by one row down, or up, wrapping around. */
  function Moved(selected: Option<nat>, length: nat, down: bool): Option<nat>
    requires length > 0
  {
    if selected.None? then Some(0)
    else if down then Some((selected.value + 1) % length)
    else Some((selected.value + length - 1) % length)
  }

  function Handled(lists: Lists, event: Event): Lists {
    var tab := lists.active;
    var length := |Shown(lists, tab)|;
    match event
    case Loaded(loaded, items) =>
      var updated := WithView(lists, loaded, ViewOf(lists, loaded).(items := items));
      Select(updated, loaded, Clamped(ViewOf(lists, loaded).selected, |Shown(updated, loaded)|))
    case Search(edit) =>
      var view := ViewOf(lists, tab);
      var searched := if Searchable(tab)
                      then WithView(lists, tab, view.(query := EditedQuery(view.query, edit))) else lists;
      Select(searched, tab, FirstOf(|Shown(searched, tab)|))
    case Next => if length == 0 then lists else Select(lists, tab, Moved(ViewOf(lists, tab).selected, length, true))
    case Previous =>
      if length == 0 then lists else Select(lists, tab, Moved(ViewOf(lists, tab).selected, length, false))
    case Click(index) => if index >= length then lists else Select(lists, tab, Some(index))
    case Switch(other) => lists.(active := other)
  }

  function HandledAll(lists: Lists, events: seq<Event>): Lists {
    if events == [] then lists else Handled(HandledAll(lists, events[..|events| - 1]), events[|events| - 1])
  }

  const EMPTY_VIEW := View([], "", None)

  function Initial(matches: (string, string) -> bool): Lists {
    Lists(EMPTY_VIEW, EMPTY_VIEW, EMPTY_VIEW, EMPTY_VIEW, Parties, matches)
  }

  // ---------------------------------------------------------------- every run

  /** A tab has a selection exactly when it shows rows, and then a row that it shows. */
  predicate SelectionFits(lists: Lists, tab: Tab) {
    var selected := ViewOf(lists, tab).selected;
    if selected.None? then Shown(lists, tab) == [] else selected.value < |Shown(lists, tab)|
  }

  lemma EventKeepsSelection(lists: Lists, event: Event, tab: Tab)
    requires forall other :: SelectionFits(lists, other)
    ensures SelectionFits(Handled(lists, event), tab)
  {
    hide Filter, EditedQuery;
    assert SelectionFits(lists, tab);
  }

  /** Over every run of updates, searches, clicks and moves, every tab's selection fits what it shows. */
  lemma {:induction false} SelectionsFit(matches: (string, string) -> bool, events: seq<Event>, tab: Tab)
    ensures SelectionFits(HandledAll(Initial(matches), events), tab)
  {
    if events != [] {
      var n := |events| - 1;
      forall other: Tab
        ensures SelectionFits(HandledAll(Initial(matches), events[..n]), other)
      {
        SelectionsFit(matches, events[..n], other);
      }
      EventKeepsSelection(HandledAll(Initial(matches), events[..n]), events[n], tab);
    }
  }

  /** A searchable tab shows exactly the items that fit its query, in their order. */
  lemma {:induction false} FilterKeeps(items: seq<string>, query: string, matches: (string, string) -> bool)
    returns (order: seq<nat>)
    ensures |Filter(items, query, matches)| == |order|
    ensures forall k | 0 <= k < |order| ::
              && order[k] < |items| && Filter(items, query, matches)[k] == items[order[k]]
              && matches(items[order[k]], query)
    ensures forall k, m | 0 <= k < m < |order| :: order[k] < order[m]
    ensures forall i | 0 <= i < |items| && matches(items[i], query) :: i in order
  {
    order := [];
    if items != [] {
      var n := |items| - 1;
      order := FilterKeeps(items[..n], query, matches);
      if matches(items[n], query) {
        order := order + [n];
      }
    }
  }

  /** Next goes to the row below, from the last to the first; previous to the row above, from the first to the
   *  last. Nothing else changes. */
  lemma NextIsBelow(lists: Lists)
    requires SelectionFits(lists, lists.active) && Shown(lists, lists.active) != []
    ensures
      var tab, last := lists.active, |Shown(lists, lists.active)| - 1;
      var i := ViewOf(lists, tab).selected.value;
      && Handled(lists, Next) == Select(lists, tab, Some(if i == last then 0 else i + 1))
      && Handled(lists, Previous) == Select(lists, tab, Some(if i == 0 then last else i - 1))
  {
    hide Shown, Select, ViewOf;
    var length := |Shown(lists, lists.active)|;
    var i := ViewOf(lists, lists.active).selected.value;
    Reduced(i + 1, length);
    Reduced(i + length - 1, length);
  }

  function TypedKeys(text: string): seq<Event> {
    seq(|text|, i requires 0 <= i < |text| => Search(PushQuery(text[i])))
  }

  /** What is typed into the search box of a searchable tab becomes its query, letter by letter; a backspace takes
   *  the last letter back, escape all of them; and each time the first row is selected, if there is one. */
  lemma {:induction false} TypedQuery(lists: Lists, text: string)
    requires Searchable(lists.active) && text != []
    ensures
      var tab, after := lists.active, HandledAll(lists, TypedKeys(text));
      && after.active == tab && ViewOf(after, tab).query == ViewOf(lists, tab).query + text
      && ViewOf(after, tab).items == ViewOf(lists, tab).items
      && ViewOf(after, tab).selected == (if Shown(after, tab) == [] then None else Some(0))
      && ViewOf(Handled(after, Search(PopQuery)), tab).query == ViewOf(lists, tab).query + text[..|text| - 1]
      && ViewOf(Handled(after, Search(ClearQuery)), tab).query == ""
  {
    hide Filter;
    var n := |text| - 1;
    assert TypedKeys(text)[..n] == TypedKeys(text[..n]);
    if n > 0 {
      TypedQuery(lists, text[..n]);
    }
    assert ViewOf(lists, lists.active).query + text[..n] + [text[n]] == ViewOf(lists, lists.active).query + text;
  }

  /** A click on a row that is shown selects the item in it. */
  lemma ClickSelects(lists: Lists, index: nat)
    requires index < |Shown(lists, lists.active)|
    ensures SelectedItem(Handled(lists, Click(index)), lists.active) == Some(Shown(lists, lists.active)[index])
  {
    hide Filter;
  }

  /** An event touches no tab but the one it is for: the one with new data, or else the active one. */
  lemma OtherTabsStay(lists: Lists, event: Event, other: Tab)
    requires other != if event.Loaded? then event.tab else lists.active
    ensures ViewOf(Handled(lists, event), other) == ViewOf(lists, other)
  {
    hide Filter, EditedQuery;
  }

  function SelectedItem(lists: Lists, tab: Tab): Option<string> {
    var selected := ViewOf(lists, tab).selected;
    if selected.Some? && selected.value < |Shown(lists, tab)| then Some(Shown(lists, tab)[selected.value]) else None
  }

  /** New data keep the selected item if and only if the tab then shows that item at the same index, or shows
   *  too few rows and that item first: the index is kept, not the item. */
  lemma UpdateKeepsItemExactly(lists: Lists, tab: Tab, items: seq<string>)
    requires SelectedItem(lists, tab).Some?
    ensures
      var after, i := Handled(lists, Loaded(tab, items)), ViewOf(lists, tab).selected.value;
      var rows, item := Shown(after, tab), Shown(lists, tab)[i];
      SelectedItem(after, tab) == Some(item) <==> rows != [] && rows[if i < |rows| then i else 0] == item
  {
    hide Filter;
  }

  /** Rows that only grow at the end keep the selected item. */
  lemma AppendedRowsKeepItem(lists: Lists, tab: Tab, items: seq<string>)
    requires SelectedItem(lists, tab).Some?
    requires Shown(lists, tab) <= Shown(Handled(lists, Loaded(tab, items)), tab)
    ensures SelectedItem(Handled(lists, Loaded(tab, items)), tab) == SelectedItem(lists, tab)
  {
    UpdateKeepsItemExactly(lists, tab, items);
  }

  /** The same items in another order move the selection to another item. */
  lemma ReorderedRowsMoveSelection(matches: (string, string) -> bool)
    ensures
      var before := HandledAll(Initial(matches), [Switch(Peers), Loaded(Peers, ["a", "b"]), Next]);
      && SelectedItem(before, Peers) == Some("b")
      && SelectedItem(Handled(before, Loaded(Peers, ["b", "a"])), Peers) == Some("a")
  {
    var events := [Switch(Peers), Loaded(Peers, ["a", "b"]), Next];
    var s0 := Initial(matches);
    assert events[..2][..1] == [Switch(Peers)] && [Switch(Peers)][..0] == [];
    assert HandledAll(s0, [Switch(Peers)]) == Handled(HandledAll(s0, []), Switch(Peers));
    assert HandledAll(s0, events[..2]) == Handled(HandledAll(s0, [Switch(Peers)]), Loaded(Peers, ["a", "b"]));
  }

  /** Moving down and up again, or up and down, comes back to the same row. */
  lemma MovesUndo(lists: Lists)
    requires SelectionFits(lists, lists.active)
    ensures Handled(Handled(lists, Next), Previous) == lists && Handled(Handled(lists, Previous), Next) == lists
  {
    hide Shown, Select, ViewOf, Moved;
    var selected, length := ViewOf(lists, lists.active).selected, |Shown(lists, lists.active)|;
    if length > 0 {
      MovedBack(selected.value, length);
      SelectBack(lists, Moved(selected, length, true));
      SelectBack(lists, Moved(selected, length, false));
    }
  }

  lemma MovedBack(i: nat, length: nat)
    requires i < length
    ensures Moved(Moved(Some(i), length, true), length, false) == Some(i)
    ensures Moved(Moved(Some(i), length, false), length, true) == Some(i)
  {
    Rotation(i, length);
  }

  lemma SelectBack(lists: Lists, selected: Option<nat>)
    ensures var tab := lists.active;
            var moved := Select(lists, tab, selected);
            && moved.active == tab && Shown(moved, tab) == Shown(lists, tab) && ViewOf(moved, tab).selected == selected
            && Select(moved, tab, ViewOf(lists, tab).selected) == lists
  {
    hide Filter;
  }

  lemma Rotation(i: nat, length: nat)
    requires i < length
    ensures ((i + 1) % length + length - 1) % length == i && ((i + length - 1) % length + 1) % length == i
  {
    Reduced(i + 1, length);
    Reduced(i + length - 1, length);
    if i + 1 < length {
      Reduced(i + length, length);
    } else {
      Reduced(length - 1, length);
    }
    if i == 0 {
      Reduced(length, length);
    }
  }

  lemma Reduced(x: nat, length: nat)
    requires 0 < length && x < 2 * length
    ensures x % length == if x < length then x else x - length
  {
    var q := x / length;
    assert x == q * length + x % length;
    assert q >= 2 ==> q * length >= 2 * length;
  }

  // ---------------------------------------------------------------- the application's state

  /** A table's own state; the scroll offset is left to the drawing. */
  class TableState {
    var selected: Option<nat>

    constructor ()
      ensures selected.None?
    {
      selected := None;
    }
  }

  /** Keep a table's selection in range after its data change. */
  method ClampSelection(table: TableState, length: nat)
    modifies table
    ensures table.selected == Clamped(old(table.selected), length)
  {
    if table.selected.Some? && table.selected.value < length {
      return;
    }
    table.selected := if length > 0 then Some(0) else None;
  }

  datatype Update = Update(tab: Tab, items: Outcome<seq<string>>)

  /** The events that updates amount to: one that failed changes no list. */
  function EventsOf(updates: seq<Update>): seq<Event> {
    if updates == [] then []
    else
      var last := updates[|updates| - 1];
      EventsOf(updates[..|updates| - 1]) + if last.items.Ok? then [Loaded(last.tab, last.items.value)] else []
  }

  lemma EventsAppended(lists: Lists, updates: seq<Update>, n: nat)
    requires n < |updates|
    ensures HandledAll(lists, EventsOf(updates[..n + 1]))
         == var before := HandledAll(lists, EventsOf(updates[..n]));
            if updates[n].items.Ok? then Handled(before, Loaded(updates[n].tab, updates[n].items.value)) else before
  {
    hide Handled;
    assert updates[..n + 1][..n] == updates[..n];
    var events, items := EventsOf(updates[..n]), updates[n].items;
    if items.Ok? {
      assert (events + [Loaded(updates[n].tab, items.value)])[..|events|] == events;
    } else {
      assert events + [] == events;
    }
  }

  class App {
    const matches: (string, string) -> bool
    const partiesTable: TableState
    const peersTable: TableState
    const darsTable: TableState
    const feedTable: TableState
    var parties: seq<string>
    var partiesQuery: string
    var peers: seq<string>
    var dars: seq<string>
    var darsQuery: string
    var feed: seq<string>
    var active: Tab

    ghost predicate Valid() {
      && partiesTable != peersTable && partiesTable != darsTable && partiesTable != feedTable
      && peersTable != darsTable && peersTable != feedTable && darsTable != feedTable
    }

    function State(): Lists
      reads this, partiesTable, peersTable, darsTable, feedTable
    {
      Lists(View(parties, partiesQuery, partiesTable.selected), View(peers, "", peersTable.selected),
            View(dars, darsQuery, darsTable.selected), View(feed, "", feedTable.selected), active, matches)
    }

    /** Every tab's selection fits what it shows. */
    predicate Fits()
      reads this, partiesTable, peersTable, darsTable, feedTable
    {
      && SelectionFits(State(), Parties) && SelectionFits(State(), Peers)
      && SelectionFits(State(), Dars) && SelectionFits(State(), Workflows)
    }

    constructor (matches: (string, string) -> bool)
      ensures Valid() && Fits() && State() == Initial(matches)
      ensures fresh(partiesTable) && fresh(peersTable) && fresh(darsTable) && fresh(feedTable)
    {
      this.matches := matches;
      partiesTable := new TableState();
      peersTable := new TableState();
      darsTable := new TableState();
      feedTable := new TableState();
      parties, partiesQuery, peers, dars, darsQuery, feed, active := [], "", [], [], "", [], Parties;
    }

    /** One successful update of a tab's data. */
    method Load(tab: Tab, items: seq<string>)
      requires Valid()
      modifies this, partiesTable, peersTable, darsTable, feedTable
      ensures Valid() && (old(Fits()) ==> Fits()) && State() == Handled(old(State()), Loaded(tab, items))
    {
      hide Filter, EditedQuery;
      ghost var before, fits := State(), Fits();
      match tab {
        case Parties =>
          parties := items;
          ClampSelection(partiesTable, |Filter(parties, partiesQuery, matches)|);
        case Peers =>
          peers := items;
          ClampSelection(peersTable, |peers|);
        case Dars =>
          dars := items;
          ClampSelection(darsTable, |Filter(dars, darsQuery, matches)|);
        case Workflows =>
          feed := items;
          ClampSelection(feedTable, |feed|);
      }
      if fits {
        EventKeepsAll(before, Loaded(tab, items));
      }
    }

    /** Apply every pending update. */
    method DrainUpdates(updates: seq<Update>)
      requires Valid()
      modifies this, partiesTable, peersTable, darsTable, feedTable
      ensures Valid() && (old(Fits()) ==> Fits()) && State() == HandledAll(old(State()), EventsOf(updates))
    {
      hide Handled, SelectionFits;
      for n := 0 to |updates|
        invariant Valid() && (old(Fits()) ==> Fits()) && State() == HandledAll(old(State()), EventsOf(updates[..n]))
      {
        if updates[n].items.Ok? {
          Load(updates[n].tab, updates[n].items.value);
        }
        EventsAppended(old(State()), updates, n);
      }
      assert updates[..|updates|] == updates;
    }

    function CurrentLength(): nat
      reads this
    {
      match active
      case Parties => |Filter(parties, partiesQuery, matches)|
      case Peers => |peers|
      case Dars => |Filter(dars, darsQuery, matches)|
      case Workflows => |feed|
    }

    function CurrentTable(): TableState
      reads this
    {
      match active
      case Parties => partiesTable
      case Peers => peersTable
      case Dars => darsTable
      case Workflows => feedTable
    }

    method EditQuery(edit: Edit)
      modifies this`partiesQuery, this`darsQuery
      ensures partiesQuery == if active == Parties then EditedQuery(old(partiesQuery), edit) else old(partiesQuery)
      ensures darsQuery == if active == Dars then EditedQuery(old(darsQuery), edit) else old(darsQuery)
    {
      match active {
        case Parties => partiesQuery := EditedQuery(partiesQuery, edit);
        case Dars => darsQuery := EditedQuery(darsQuery, edit);
        case _ =>
      }
    }

    /** Select the first row of the active tab, or none when it shows none. */
    method ResetSelection()
      modifies CurrentTable()
      ensures CurrentTable().selected == FirstOf(CurrentLength())
    {
      var length := CurrentLength();
      CurrentTable().selected := if length > 0 then Some(0) else None;
    }

    /** A key in the search box: the query of a searchable tab changes, and the selection goes to the top. */
    method OnSearchKey(edit: Edit)
      requires Valid()
      modifies this, CurrentTable()
      ensures Valid() && (old(Fits()) ==> Fits()) && State() == Handled(old(State()), Search(edit))
    {
      hide Filter, EditedQuery, FirstOf;
      ghost var before, fits := State(), Fits();
      EditQuery(edit);
      ResetSelection();
      assert State() == Handled(before, Search(edit));
      if fits {
        EventKeepsAll(before, Search(edit));
      }
    }

    method SelectNext()
      requires Valid()
      modifies CurrentTable()
      ensures Valid() && (old(Fits()) ==> Fits()) && State() == Handled(old(State()), Next)
    {
      hide Filter, EditedQuery;
      ghost var before, fits := State(), Fits();
      var length, table := CurrentLength(), CurrentTable();
      if length > 0 {
        table.selected := if table.selected.None? then Some(0) else Some((table.selected.value + 1) % length);
      }
      if fits {
        EventKeepsAll(before, Next);
      }
    }

    method SelectPrevious()
      requires Valid()
      modifies CurrentTable()
      ensures Valid() && (old(Fits()) ==> Fits()) && State() == Handled(old(State()), Previous)
    {
      hide Filter, EditedQuery;
      ghost var before, fits := State(), Fits();
      var length, table := CurrentLength(), CurrentTable();
      if length > 0 {
        table.selected :=
          if table.selected.None? then Some(0) else Some((table.selected.value + length - 1) % length);
      }
      if fits {
        EventKeepsAll(before, Previous);
      }
    }

    /** A click on the row with this index of the active tab. */
    method OnClick(index: nat)
      requires Valid()
      modifies CurrentTable()
      ensures Valid() && (old(Fits()) ==> Fits()) && State() == Handled(old(State()), Click(index))
    {
      hide Filter, EditedQuery;
      ghost var before, fits := State(), Fits();
      if index < CurrentLength() {
        CurrentTable().selected := Some(index);
      }
      if fits {
        EventKeepsAll(before, Click(index));
      }
    }

    method SwitchTo(tab: Tab)
      requires Valid()
      modifies this
      ensures Valid() && (old(Fits()) ==> Fits()) && State() == Handled(old(State()), Switch(tab))
    {
      active := tab;
    }
  }

  lemma EventKeepsAll(lists: Lists, event: Event)
    requires SelectionFits(lists, Parties) && SelectionFits(lists, Peers)
    requires SelectionFits(lists, Dars) && SelectionFits(lists, Workflows)
    ensures forall tab :: SelectionFits(Handled(lists, event), tab)
  {
    hide Handled, Shown, ViewOf;
    forall other: Tab
      ensures SelectionFits(lists, other)
    {
      match other
      case Parties =>
      case Peers =>
      case Dars =>
      case Workflows =>
    }
    forall tab: Tab
      ensures SelectionFits(Handled(lists, event), tab)
    {
      EventKeepsSelection(lists, event, tab);
    }
  }
}
