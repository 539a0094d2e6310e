/**
  The component and its resolution pass as objects. `MasonryList` owns the
  published column state; a `ResolutionPass` holds the variables that
  `resolveImages` closes over and updates them, one completion at a time,
  exactly as the pure pass model in module Aggregation prescribes.
 */
module Component {

  import opened Wrappers
  import opened Balancing
  import opened Resolution
  import opened Aggregation

  /** The component with the props a pass reads and its published `_sortedData`. */
  class MasonryList<P> {
    const columns: int
    const initialColToRender: int
    const initialNumInColsToRender: int
    const sorted: bool
    const insert: Inserter<P>
    var sortedData: Columns<P>

    constructor (columns: int, initialColToRender: int, initialNumInColsToRender: int,
                 sorted: bool, insert: Inserter<P>)
      ensures this.columns == columns && this.initialColToRender == initialColToRender
      ensures this.initialNumInColsToRender == initialNumInColsToRender
      ensures this.sorted == sorted && this.insert == insert
      ensures sortedData == []
    {
      this.columns := columns;
      this.initialColToRender := initialColToRender;
      this.initialNumInColsToRender := initialNumInColsToRender;
      this.sorted := sorted;
      this.insert := insert;
      sortedData := [];
    }

    /**
      `resolveImages`: chooses a strategy for every image and starts a pass
      with fresh counters and balancer. What is published is left as it is.
     */
    method ResolveImages(images: seq<ImageDescriptor>, columns: int, initialColToRender: int,
                         initialNumInColsToRender: int, sorted: bool)
      returns (pass: ResolutionPass<P>)
      ensures fresh(pass) && pass.list == this && pass.Valid()
      ensures pass.columns == columns && pass.sorted == sorted && pass.insert == insert
      ensures pass.firstRenderNum == FirstRenderNum(initialColToRender, initialNumInColsToRender)
      ensures |pass.tasks| == |images|
      ensures forall i :: 0 <= i < |images| ==> pass.tasks[i] == ChooseStrategy(images[i])
      ensures pass.State() == Start(sortedData)
      ensures sortedData == old(sortedData)
    {
      pass := new ResolutionPass(this, images, columns, initialColToRender,
                                 initialNumInColsToRender, sorted, insert);
    }

    /** `addItems`: a new pass over `images` with the component's own props. */
    method AddItems(images: seq<ImageDescriptor>) returns (pass: ResolutionPass<P>)
      ensures fresh(pass) && pass.list == this && pass.Valid()
      ensures pass.columns == columns && pass.sorted == sorted && pass.insert == insert
      ensures pass.firstRenderNum == FirstRenderNum(initialColToRender, initialNumInColsToRender)
      ensures |pass.tasks| == |images|
      ensures forall i :: 0 <= i < |images| ==> pass.tasks[i] == ChooseStrategy(images[i])
      ensures pass.State() == Start(sortedData)
      ensures sortedData == old(sortedData)
    {
      pass := ResolveImages(images, columns, initialColToRender, initialNumInColsToRender, sorted);
    }
  }

  /** The variables one call of `resolveImages` closes over, and its two callbacks. */
  class ResolutionPass<P> {
    const list: MasonryList<P>
    const tasks: seq<Strategy>
    const columns: int
    const firstRenderNum: int
    const sorted: bool
    const insert: Inserter<P>

    var unsortedIndex: int
    var renderIndex: int
    var batchOne: Columns<P>
    var columnHeightTotals: map<int, real>
    var columnCounting: int
    var columnHighestHeight: Option<real>

    /** The pass's fixed parameters as a value. */
    function Settings(): Config<P>
    {
      Config(columns, firstRenderNum, sorted, insert)
    }

    /** The balancer's closed-over variables as a value. */
    function Balance(): Balancer
      reads this
    {
      Balancer(columnHeightTotals, columnCounting, columnHighestHeight)
    }

    /** The pass's progress, including the component's published state, as a value. */
    function State(): PassState<P>
      reads this, list
    {
      PassState(Balance(), renderIndex, unsortedIndex, batchOne, list.sortedData)
    }

    /** The balancer's cursor is in range and its totals belong to real columns. */
    ghost predicate Valid()
      reads this
    {
      Balancing.Valid(Balance(), columns)
    }

    constructor (list: MasonryList<P>, images: seq<ImageDescriptor>, columns: int,
                 initialColToRender: int, initialNumInColsToRender: int, sorted: bool,
                 insert: Inserter<P>)
      ensures this.list == list && this.columns == columns && this.sorted == sorted
      ensures this.insert == insert
      ensures firstRenderNum == FirstRenderNum(initialColToRender, initialNumInColsToRender)
      ensures |tasks| == |images|
      ensures forall i :: 0 <= i < |images| ==> tasks[i] == ChooseStrategy(images[i])
      ensures Valid() && State() == Start(list.sortedData)
    {
      this.list := list;
      this.columns := columns;
      this.sorted := sorted;
      this.insert := insert;
      firstRenderNum := initialColToRender * initialNumInColsToRender;
      tasks := seq(|images|, i requires 0 <= i < |images| => ChooseStrategy(images[i]));
      unsortedIndex := 0;
      renderIndex := 0;
      batchOne := [];
      columnHeightTotals := map[];
      columnCounting := 1;
      columnHighestHeight := None;
    }

    /** `_assignColumns`: updates the balancer in place and returns the column used. */
    method AssignColumns(height: real) returns (columnIndex: int)
      requires Valid()
      modifies this`columnHeightTotals, this`columnCounting, this`columnHighestHeight
      ensures Valid()
      ensures Balance() == Assign(old(Balance()), height, columns).0
      ensures columnIndex == Assign(old(Balance()), height, columns).1
      ensures 0 <= columnIndex < Width(columns)
    {
      AssignInRange(Balance(), height, columns);
      columnIndex := columnCounting - 1;
      if columnIndex !in columnHeightTotals || columnHeightTotals[columnIndex] == 0.0 {
        columnHeightTotals := columnHeightTotals[columnIndex := height];
      } else {
        columnHeightTotals := columnHeightTotals[columnIndex := columnHeightTotals[columnIndex] + height];
      }
      if columnHighestHeight.None? || columnHighestHeight.value == 0.0 {
        columnHighestHeight := Some(columnHeightTotals[columnIndex]);
        columnCounting := if columnCounting < columns then columnCounting + 1 else 1;
      } else if columnHighestHeight.value <= columnHeightTotals[columnIndex] {
        columnHighestHeight := Some(columnHeightTotals[columnIndex]);
        columnCounting := if columnCounting < columns then columnCounting + 1 else 1;
      }
    }

    /**
      The task at `e.position` completed: a failure only logs; a success
      stamps the index, assigns a column, then buffers, publishes the first
      batch, or inserts into the latest published state.
     */
    method Complete(e: Event<P>)
      requires Valid()
      requires e.position < |tasks| && tasks[e.position] != Skip
      modifies this, list
      ensures Valid()
      ensures State() == Step(Settings(), old(State()), e)
    {
      match e
      case Failed(_) =>
      case Resolved(position, data, height) =>
        var index: int;
        if sorted {
          index := position;
        } else {
          index := unsortedIndex;
          unsortedIndex := unsortedIndex + 1;
        }
        var column := AssignColumns(height);
        var item := Item(data, index, column, height);
        if firstRenderNum - 1 > renderIndex {
          batchOne := insert(item, batchOne, sorted);
          renderIndex := renderIndex + 1;
        } else if firstRenderNum - 1 == renderIndex {
          batchOne := insert(item, batchOne, sorted);
          list.sortedData := batchOne;
          renderIndex := renderIndex + 1;
        } else {
          list.sortedData := insert(item, list.sortedData, sorted);
          renderIndex := renderIndex + 1;
        }
    }
  }
}
