/** The terminal UI's container table: the row shown for each container,
    the column accessors and comparisons the table widget sorts with, and
    the projection of a container listing to rows sorted by id. Both
    versions of the table view are modelled: the current one shows `N/A`
    for a container without an image, the older one requires an image. */
module ContainersTable {
  import opened Wrappers
  import opened Lex
  import opened StableSort

  datatype ContainerColumn = ID | Name | Image | State

  /** One row of the table. */
  datatype Row = Row(id: string, name: string, image: string, state: string)

  /** The parts of container management's `Container` message the table
      reads. */
  datatype ImageRef = ImageRef(name: string)
  datatype StateInfo = StateInfo(status: string)
  datatype Container = Container(id: string, name: string, image: Option<ImageRef>, state: Option<StateInfo>)

  const UnknownState: string := "Unknown?"
  const NoImage: string := "N/A"

  /** `to_column`: the cell shown in a column. */
  function ToColumn(row: Row, column: ContainerColumn): string
  {
    match column
    case ID => row.id
    case Name => row.name
    case Image => row.image
    case State => row.state
  }

  /** `cmp`: rows compared on one column. */
  function Cmp(a: Row, b: Row, column: ContainerColumn): Ordering
  {
    match column
    case ID => Compare(a.id, b.id)
    case Name => Compare(a.name, b.name)
    case Image => Compare(a.image, b.image)
    case State => Compare(a.state, b.state)
  }

  /** The four cells give back the whole row: each column shows exactly
      its own field. */
  lemma ToColumnRebuildsRow(row: Row)
    ensures Row(ToColumn(row, ID), ToColumn(row, Name), ToColumn(row, Image), ToColumn(row, State)) == row
  {
  }

  /** Comparing on a column is the lexicographic order of the cells shown
      in that column: less, equal or greater exactly as the cells are. */
  lemma CmpIsCellOrder(a: Row, b: Row, column: ContainerColumn)
    ensures Cmp(a, b, column) == Compare(ToColumn(a, column), ToColumn(b, column))
    ensures Cmp(a, b, column) == Less <==> Below(ToColumn(a, column), ToColumn(b, column))
    ensures Cmp(a, b, column) == Equal <==> ToColumn(a, column) == ToColumn(b, column)
    ensures Cmp(a, b, column) == Greater <==> Below(ToColumn(b, column), ToColumn(a, column))
  {
  }

  /** Comparing on a column is antisymmetric: swapping the rows swaps
      `Less` and `Greater`. */
  lemma CmpAntisymmetric(a: Row, b: Row, column: ContainerColumn)
    ensures Cmp(a, b, column) == Less <==> Cmp(b, a, column) == Greater
    ensures Cmp(a, b, column) == Equal <==> Cmp(b, a, column) == Equal
  {
  }

  /** `state_to_string`. */
  function StateToString(state: Option<StateInfo>): string
  {
    if state.Some? then state.value.status else UnknownState
  }

  /** The row of a container in the current table view. */
  function ToRow(c: Container): Row
  {
    Row(c.id, c.name, if c.image.Some? then c.image.value.name else NoImage, StateToString(c.state))
  }

  /** The row of a container in the older table view, which needs an image. */
  function LegacyToRow(c: Container): Row
    requires c.image.Some?
  {
    Row(c.id, c.name, c.image.value.name, StateToString(c.state))
  }

  /** The rows of a listing, in listing order. */
  function Rows(items: seq<Container>): (rows: seq<Row>)
    ensures |rows| == |items|
    ensures forall j :: 0 <= j < |items| ==> rows[j] == ToRow(items[j])
  {
    seq(|items|, j requires 0 <= j < |items| => ToRow(items[j]))
  }

  /** Where the older view can run at all, it shows the same rows as the
      current one: the two differ only on containers without an image. */
  lemma LegacyAgrees(c: Container)
    requires c.image.Some?
    ensures LegacyToRow(c) == ToRow(c)
    ensures ToRow(c).image == c.image.value.name
  {
  }

  /** A row's cells: id and name copied, the image name or `N/A`, the
      status or `Unknown?`. */
  lemma ToRowCells(c: Container)
    ensures ToColumn(ToRow(c), ID) == c.id && ToColumn(ToRow(c), Name) == c.name
    ensures c.image.None? ==> ToColumn(ToRow(c), Image) == NoImage
    ensures c.state.None? ==> ToColumn(ToRow(c), State) == UnknownState
    ensures c.state.Some? ==> ToColumn(ToRow(c), State) == c.state.value.status
  {
  }

  function RowId(r: Row): string
  {
    r.id
  }

  lemma BelowIsStrictTotalOrder()
    ensures StrictTotalOrder(Below)
  {
    forall a ensures !Below(a, a) {
      BelowIrreflexive(a);
    }
    forall a, b, c | Below(a, b) && Below(b, c) ensures Below(a, c) {
      BelowTransitive(a, b, c);
    }
    forall a, b | a != b ensures Below(a, b) || Below(b, a) {
      BelowTotal(a, b);
    }
  }

  /** `items_to_columns` of the current view: push one row per container,
      then sort the rows by id. The result has one row per container, is a
      permutation of the containers' rows, is in ascending id order, and
      rows with equal ids keep their listing order. */
  method ItemsToColumns(items: seq<Container>) returns (out: seq<Row>)
    ensures |out| == |items|
    ensures multiset(out) == multiset(Rows(items))
    ensures Sorted(out, RowId, Below)
    ensures forall k :: WithKey(out, RowId, k) == WithKey(Rows(items), RowId, k)
  {
    out := [];
    for i := 0 to |items|
      invariant |out| == i
      invariant forall j :: 0 <= j < i ==> out[j] == ToRow(items[j])
    {
      out := out + [ToRow(items[i])];
    }
    assert out == Rows(items);
    BelowIsStrictTotalOrder();
    SortCorrect(out, RowId, Below);
    out := Sort(out, RowId, Below);
  }

  /** `items_to_columns` of the older view: the same projection, except
      that `expect` panics (`None`) at the first container without an
      image. */
  method LegacyItemsToColumns(items: seq<Container>) returns (res: Option<seq<Row>>)
    ensures res.None? <==> exists j :: 0 <= j < |items| && items[j].image.None?
    ensures res.Some? ==> var out := res.value;
              && |out| == |items|
              && multiset(out) == multiset(Rows(items))
              && Sorted(out, RowId, Below)
              && forall k :: WithKey(out, RowId, k) == WithKey(Rows(items), RowId, k)
  {
    var out := [];
    for i := 0 to |items|
      invariant |out| == i
      invariant forall j :: 0 <= j < i ==> items[j].image.Some? && out[j] == ToRow(items[j])
    {
      if items[i].image.None? {
        return None;
      }
      LegacyAgrees(items[i]);
      out := out + [LegacyToRow(items[i])];
    }
    assert out == Rows(items);
    BelowIsStrictTotalOrder();
    SortCorrect(out, RowId, Below);
    out := Sort(out, RowId, Below);
    return Some(out);
  }
}
