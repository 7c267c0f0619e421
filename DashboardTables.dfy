/** The two dashboard widgets (components/dashboard/CourseTable.jsx and
    components/dashboard/CategoryTable.jsx): each lists a resource once when it
    mounts, keeps at most the first five items, and renders a loading card, a
    table of rows, or a single "none found" row. The two components differ only
    in their resource, title, columns and the cells of a row, so one class
    parameterised by the resource models both. */
module DashboardTables {
  import opened Js
  import opened Browser
  import opened Api

  /** How many items a widget shows: `data.slice(0, 5)`. */
  const RecentLimit: nat := 5

  /** `Array.isArray(data) ? data.slice(0, 5) : []`, where a thrown error counts as
      "no data": the first five items of a listed array, in order, and nothing for
      anything else. */
  function RecentItems(data: Result<Value, Exception>): (rows: seq<Value>)
    ensures |rows| <= RecentLimit
    ensures data.Ok? && data.value.Arr? ==> rows <= data.value.items
    ensures data.Ok? && data.value.Arr? && |data.value.items| <= RecentLimit ==> rows == data.value.items
    ensures data.Ok? && data.value.Arr? && |data.value.items| > RecentLimit ==> |rows| == RecentLimit
    ensures !(data.Ok? && data.value.Arr?) ==> rows == []
  {
    if data.Ok? && data.value.Arr? then
      var xs := data.value.items;
      if |xs| <= RecentLimit then xs else xs[..RecentLimit]
    else []
  }

  /** The content of one table cell: the values React renders side by side. */
  datatype Cell = Cell(children: seq<Value>)

  /** One `<TableRow key=...>` with its cells. */
  datatype Row = Row(key: Value, cells: seq<Cell>)

  /** The table body: the rows, or the one row spanning every column with a message. */
  datatype TableBody = Rows(rows: seq<Row>) | EmptyRow(colSpan: nat, message: string)

  /** What a widget renders. */
  datatype Card =
    | LoadingCard(title: string)
    | TableCard(title: string, viewAll: string, headers: seq<string>, body: TableBody)

  function Title(res: Resource): string {
    match res
    case Courses => "Recent Courses"
    case Categories => "Recent Categories"
  }

  /** Where the "View All" button navigates. */
  function ViewAllRoute(res: Resource): string {
    match res
    case Courses => "/courses"
    case Categories => "/categories"
  }

  function ColumnHeaders(res: Resource): seq<string> {
    match res
    case Courses => ["Name", "Price", "Active", "Created"]
    case Categories => ["Name", "Description", "Created"]
  }

  function EmptyMessage(res: Resource): string {
    match res
    case Courses => "No courses found"
    case Categories => "No categories found"
  }

  /** The status badge: `course.isActive ? 'Active' : 'Inactive'`. */
  function StatusLabel(isActive: Value): (badge: string)
    ensures badge == "Active" <==> Truthy(isActive)
    ensures badge == "Inactive" <==> !Truthy(isActive)
  {
    if Truthy(isActive) then "Active" else "Inactive"
  }

  /** The row of one listed item. Every cell reads a property of the item, so a null
      or undefined item throws; `formatDate` is a parameter. */
  function ItemRow(res: Resource, item: Value, formatDate: Value -> Value): (r: Result<Row, Exception>)
    ensures r.Err? <==> item.Null? || item.Undefined?
    ensures r.Err? ==> r.error == TypeError
    ensures r.Ok? ==> |r.value.cells| == |ColumnHeaders(res)|
    ensures r.Ok? ==> r.value.key == Get(item, "_id").value
    ensures r.Ok? ==> r.value.cells[0] == Cell([Get(item, "name").value])
    ensures r.Ok? ==> r.value.cells[|r.value.cells| - 1] == Cell([formatDate(Get(item, "createdAt").value)])
    ensures r.Ok? && res == Courses ==>
      && r.value.cells[1] == Cell([Str("₹"), Get(item, "price").value])
      && r.value.cells[2] == Cell([Str(StatusLabel(Get(item, "isActive").value))])
    ensures r.Ok? && res == Categories ==> r.value.cells[1] == Cell([Get(item, "description").value])
  {
    if item.Null? || item.Undefined? then Err(TypeError)
    else
      var key := Get(item, "_id").value;
      var name := Cell([Get(item, "name").value]);
      var created := Cell([formatDate(Get(item, "createdAt").value)]);
      match res
      case Courses =>
        Ok(Row(key, [name, Cell([Str("₹"), Get(item, "price").value]),
                     Cell([Str(StatusLabel(Get(item, "isActive").value))]), created]))
      case Categories =>
        Ok(Row(key, [name, Cell([Get(item, "description").value]), created]))
  }

  /** `items.map(item => <TableRow .../>)`: one row per item, in order; the first
      null or undefined item throws. */
  function ItemRows(res: Resource, items: seq<Value>, formatDate: Value -> Value): (r: Result<seq<Row>, Exception>)
    ensures r.Ok? <==> forall i :: 0 <= i < |items| ==> !items[i].Null? && !items[i].Undefined?
    ensures r.Ok? ==> |r.value| == |items|
    ensures r.Ok? ==> forall i :: 0 <= i < |items| ==> ItemRow(res, items[i], formatDate) == Ok(r.value[i])
  {
    if items == [] then Ok([])
    else
      match ItemRow(res, items[0], formatDate)
      case Err(e) => Err(e)
      case Ok(row) =>
        match ItemRows(res, items[1..], formatDate)
        case Err(e) => Err(e)
        case Ok(rows) =>
          assert forall i :: 1 <= i < |items| ==> items[i] == items[1..][i - 1];
          Ok([row] + rows)
  }

  /** The component's render: the loading card until the fetch settles, then the
      table with its rows, or with the message row when there are no items. */
  function Render(res: Resource, loading: bool, items: seq<Value>, formatDate: Value -> Value): (r: Result<Card, Exception>)
    ensures loading ==> r == Ok(LoadingCard(Title(res)))
    ensures !loading && items == [] ==>
      r == Ok(TableCard(Title(res), ViewAllRoute(res), ColumnHeaders(res), EmptyRow(|ColumnHeaders(res)|, EmptyMessage(res))))
    ensures !loading && items != [] ==>
      (r.Ok? <==> ItemRows(res, items, formatDate).Ok?) &&
      (r.Ok? ==> r.value == TableCard(Title(res), ViewAllRoute(res), ColumnHeaders(res), Rows(ItemRows(res, items, formatDate).value)))
  {
    if loading then Ok(LoadingCard(Title(res)))
    else if |items| > 0 then
      match ItemRows(res, items, formatDate)
      case Err(e) => Err(e)
      case Ok(rows) => Ok(TableCard(Title(res), ViewAllRoute(res), ColumnHeaders(res), Rows(rows)))
    else Ok(TableCard(Title(res), ViewAllRoute(res), ColumnHeaders(res), EmptyRow(|ColumnHeaders(res)|, EmptyMessage(res))))
  }

  /** A rendered table is rectangular: every row has one cell per column, the message
      row spans all the columns, and there are at most five rows. */
  lemma TableIsRectangular(res: Resource, items: seq<Value>, formatDate: Value -> Value)
    requires |items| <= RecentLimit
    requires Render(res, false, items, formatDate).Ok?
    ensures var card := Render(res, false, items, formatDate).value;
      && card.TableCard?
      && (card.body.EmptyRow? ==> card.body.colSpan == |card.headers|)
      && (card.body.Rows? ==>
            && |card.body.rows| <= RecentLimit
            && forall row <- card.body.rows :: |row.cells| == |card.headers|)
  {
  }

  /** A widget shows the same rows whether the backend sends a bare array or the
      array wrapped in its envelope. */
  lemma EnvelopeShowsSameRows(res: Resource, xs: seq<Value>)
    ensures RecentItems(Unwrap(Ok(Obj(map[EnvelopeKey(res) := Arr(xs)])), EnvelopeKey(res)))
         == RecentItems(Unwrap(Ok(Arr(xs)), EnvelopeKey(res)))
  {
  }

  /** A failed listing, of whatever kind, leaves the widget with the message row. */
  lemma FailedListingShowsMessage(res: Resource, outcome: FetchOutcome, formatDate: Value -> Value)
    requires Settle(outcome).Err?
    ensures Render(res, false, RecentItems(Unwrap(Settle(outcome), EnvelopeKey(res))), formatDate)
         == Ok(TableCard(Title(res), ViewAllRoute(res), ColumnHeaders(res), EmptyRow(|ColumnHeaders(res)|, EmptyMessage(res))))
  {
  }

  /** One dashboard widget: the resource it lists, the items it holds and its
      `loading` flag. */
  class RecentTable {
    const resource: Resource
    var items: seq<Value>
    var loading: bool

    /** `useState([])`, `useState(true)` */
    constructor (resource: Resource)
      ensures this.resource == resource && items == [] && loading
    {
      this.resource := resource;
      items := [];
      loading := true;
    }

    /** `fetchCourses()` / `fetchCategories()`: list the resource and keep its first
        five items, or none when the listing throws or is not an array; `loading`
        ends false either way. */
    method Fetch(store: LocalStorage, api: ApiClient, outcome: FetchOutcome) returns (call: FetchCall)
      modifies this
      ensures call.url == api.baseURL + CollectionPath(resource)
      ensures EffectiveVerb(call.config) == GET
      ensures items == RecentItems(Unwrap(Settle(outcome), EnvelopeKey(resource)))
      ensures !loading
    {
      var data;
      call, data := api.List(store, resource, outcome);
      if data.Ok? && data.value.Arr? {
        var xs := data.value.items;
        items := if |xs| <= RecentLimit then xs else xs[..RecentLimit];
      } else {
        items := [];
      }
      loading := false;
    }

    /** What the widget renders now. */
    function View(formatDate: Value -> Value): (r: Result<Card, Exception>)
      reads this
      ensures loading ==> r == Ok(LoadingCard(Title(resource)))
      ensures !loading ==> r.Err? || r.value.TableCard?
    {
      Render(resource, loading, items, formatDate)
    }
  }
}
