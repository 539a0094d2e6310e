/**
  One resolution pass of `resolveImages`, on values. Completions of the
  per-image resolution tasks arrive one at a time as events; each successful
  one stamps an index on the image, assigns it a column, and then either
  buffers it in the first batch, publishes the whole first batch, or inserts
  it into the latest published column state.
 */
module Aggregation {

  import opened Balancing
  import opened Resolution

  /**
    A completion of the task submitted at `position` of `images`. A success
    carries the resolved payload and its scaled height.
   */
  datatype Event<P> = Resolved(position: nat, data: P, height: real) | Failed(position: nat)

  /** A resolved image as the pass places it: payload, stamped index, assigned column, scaled height. */
  datatype Item<P> = Item(data: P, index: int, column: int, height: real)

  /** The column state handed to the list: one sequence of items per column. */
  type Columns<P> = seq<seq<Item<P>>>

  /** The utility `insertIntoColumn(item, columns, sorted)`, whose body is not part of this model. */
  type Inserter<!P> = (Item<P>, Columns<P>, bool) -> Columns<P>

  /** What a pass is started with. */
  datatype Config<!P> = Config(columns: int, firstRenderNum: int, sorted: bool, insert: Inserter<P>)

  /**
    The progress of a pass: the balancer, the counters `renderIndex` and
    `unsortedIndex`, the first batch `batchOne`, and the component's
    published `_sortedData`.
   */
  datatype PassState<P> = PassState(
    balancer: Balancer,
    renderIndex: int,
    unsortedIndex: int,
    batchOne: Columns<P>,
    published: Columns<P>)

  /** The size of the first batch: `initialColToRender * initialNumInColsToRender`. */
  function FirstRenderNum(initialColToRender: int, initialNumInColsToRender: int): int
  {
    initialColToRender * initialNumInColsToRender
  }

  /** A pass starts with fresh counters, balancer and batch; what is published stays as it was. */
  function Start<P>(published: Columns<P>): PassState<P>
  {
    PassState(INITIAL, 0, 0, [], published)
  }

  /** The item a successful completion produces in state `s`. */
  function Place<P>(cfg: Config<P>, s: PassState<P>, e: Event<P>): Item<P>
    requires e.Resolved?
  {
    var index := if cfg.sorted then e.position else s.unsortedIndex;
    Item(e.data, index, Assign(s.balancer, e.height, cfg.columns).1, e.height)
  }

  /** The completion handler. A failure only logs, so it changes nothing. */
  function Step<P>(cfg: Config<P>, s: PassState<P>, e: Event<P>): PassState<P>
  {
    match e
    case Failed(_) => s
    case Resolved(_, _, height) =>
      var unsortedIndex := if cfg.sorted then s.unsortedIndex else s.unsortedIndex + 1;
      var balancer := Assign(s.balancer, height, cfg.columns).0;
      var item := Place(cfg, s, e);
      if cfg.firstRenderNum - 1 > s.renderIndex then
        PassState(balancer, s.renderIndex + 1, unsortedIndex,
                  cfg.insert(item, s.batchOne, cfg.sorted), s.published)
      else if cfg.firstRenderNum - 1 == s.renderIndex then
        var batch := cfg.insert(item, s.batchOne, cfg.sorted);
        PassState(balancer, s.renderIndex + 1, unsortedIndex, batch, batch)
      else
        PassState(balancer, s.renderIndex + 1, unsortedIndex,
                  s.batchOne, cfg.insert(item, s.published, cfg.sorted))
  }

  /** The state after the completions `events`, in the order they arrive. */
  function Run<P>(cfg: Config<P>, s: PassState<P>, events: seq<Event<P>>): PassState<P>
    decreases |events|
  {
    if events == [] then s
    else Step(cfg, Run(cfg, s, events[..|events| - 1]), events[|events| - 1])
  }

  /** The items the successful completions among `events` produce, in completion order. */
  function Items<P>(cfg: Config<P>, s: PassState<P>, events: seq<Event<P>>): seq<Item<P>>
    decreases |events|
  {
    if events == [] then []
    else
      var n := |events| - 1;
      Items(cfg, s, events[..n]) +
      (if events[n].Resolved? then [Place(cfg, Run(cfg, s, events[..n]), events[n])] else [])
  }

  /** The successful completions among `events`, in order. */
  function Successes<P>(events: seq<Event<P>>): (r: seq<Event<P>>)
    ensures |r| <= |events|
    ensures forall i :: 0 <= i < |r| ==> r[i].Resolved? && r[i] in events
    ensures forall e :: e in events && e.Resolved? ==> e in r
    decreases |events|
  {
    if events == [] then []
    else
      var n := |events| - 1;
      assert events == events[..n] + [events[n]];
      Successes(events[..n]) + (if events[n].Resolved? then [events[n]] else [])
  }

  /**
    Keeping the successes commutes with concatenation: together with the
    one-event case, the successes are those of `events` in completion order.
   */
  lemma {:induction false} SuccessesAppend<P>(first: seq<Event<P>>, later: seq<Event<P>>)
    ensures Successes(first + later) == Successes(first) + Successes(later)
    decreases |later|
  {
    if later == [] {
      assert first + later == first;
    } else {
      var n := |later| - 1;
      var whole := first + later;
      var tail: seq<Event<P>> := if later[n].Resolved? then [later[n]] else [];
      assert whole[|whole| - 1] == later[n];
      assert whole[..|whole| - 1] == first + later[..n];
      assert Successes(whole) == Successes(first + later[..n]) + tail;
      assert Successes(later) == Successes(later[..n]) + tail;
      SuccessesAppend(first, later[..n]);
    }
  }

  /** A single completion is kept exactly when it is a success. */
  lemma SuccessesSingle<P>(e: Event<P>)
    ensures Successes([e]) == if e.Resolved? then [e] else []
  {
    assert [e][..0] == [];
  }

  /** The scaled heights of the successful completions, in order. */
  function SuccessHeights<P>(events: seq<Event<P>>): (r: seq<real>)
    ensures |r| == |Successes(events)|
    ensures forall i :: 0 <= i < |r| ==> r[i] == Successes(events)[i].height
    decreases |events|
  {
    if events == [] then []
    else
      var n := |events| - 1;
      SuccessHeights(events[..n]) + (if events[n].Resolved? then [events[n].height] else [])
  }

  /** Applying `insert` to `items` in order, starting from `columns`. */
  function InsertAll<P>(cfg: Config<P>, items: seq<Item<P>>, columns: Columns<P>): Columns<P>
    decreases |items|
  {
    if items == [] then columns
    else
      var n := |items| - 1;
      cfg.insert(items[n], InsertAll(cfg, items[..n], columns), cfg.sorted)
  }

  /**
    What a pass started from `Start(published)` has done after its
    completions: the counters count the successes, the balancer has seen
    exactly the successes' heights in completion order, and the i-th success
    produced the item with its payload, its stamped index, the i-th column
    the balancer returned, and its height.
   */
  lemma {:induction false} RunTrace<P>(cfg: Config<P>, published: Columns<P>, events: seq<Event<P>>)
    ensures var r := Run(cfg, Start(published), events);
            var k := |Successes(events)|;
            r.renderIndex == k &&
            r.unsortedIndex == (if cfg.sorted then 0 else k) &&
            r.balancer == Replay(INITIAL, SuccessHeights(events), cfg.columns).0
    ensures var items := Items(cfg, Start(published), events);
            var successes := Successes(events);
            var columns := Replay(INITIAL, SuccessHeights(events), cfg.columns).1;
            |items| == |successes| &&
            forall i :: 0 <= i < |items| ==>
              items[i] == Item(successes[i].data,
                               if cfg.sorted then successes[i].position else i,
                               columns[i],
                               successes[i].height)
    decreases |events|
  {
    if events != [] {
      var n := |events| - 1;
      var prefix := events[..n];
      RunTrace(cfg, published, prefix);
      var s := Run(cfg, Start(published), prefix);
      var items := Items(cfg, Start(published), prefix);
      var successes := Successes(prefix);
      var heights := SuccessHeights(prefix);
      assert Run(cfg, Start(published), events) == Step(cfg, s, events[n]);
      if events[n].Resolved? {
        assert Items(cfg, Start(published), events) == items + [Place(cfg, s, events[n])];
        assert Successes(events) == successes + [events[n]];
        assert SuccessHeights(events) == heights + [events[n].height];
        TraceStep(cfg, s, events[n], items, successes, heights);
      } else {
        assert Items(cfg, Start(published), events) == items;
        assert Successes(events) == successes;
        assert SuccessHeights(events) == heights;
      }
    }
  }

  /** The facts of `RunTrace` for one pass state, its items, its successes and their heights. */
  ghost predicate Traced<P>(cfg: Config<P>, r: PassState<P>, items: seq<Item<P>>,
                            successes: seq<Event<P>>, heights: seq<real>)
  {
    var k := |successes|;
    var columns := Replay(INITIAL, heights, cfg.columns).1;
    r.renderIndex == k &&
    r.unsortedIndex == (if cfg.sorted then 0 else k) &&
    r.balancer == Replay(INITIAL, heights, cfg.columns).0 &&
    |heights| == k && |items| == k &&
    forall i :: 0 <= i < k ==>
      successes[i].Resolved? &&
      items[i] == Item(successes[i].data,
                       if cfg.sorted then successes[i].position else i,
                       columns[i],
                       successes[i].height)
  }

  /** One success extends the trace by its item, itself and its height. */
  lemma TraceStep<P>(cfg: Config<P>, s: PassState<P>, e: Event<P>, items: seq<Item<P>>,
                     successes: seq<Event<P>>, heights: seq<real>)
    requires e.Resolved? && Traced(cfg, s, items, successes, heights)
    ensures Traced(cfg, Step(cfg, s, e), items + [Place(cfg, s, e)], successes + [e], heights + [e.height])
  {
    ReplayAppend(INITIAL, heights, e.height, cfg.columns);
  }

  /**
    Index stamping: in sorted mode the i-th placed image carries its position
    in `images`; in unsorted mode the indices run 0, 1, 2, ... in completion
    order.
   */
  lemma IndexStamping<P>(cfg: Config<P>, published: Columns<P>, events: seq<Event<P>>)
    ensures var items := Items(cfg, Start(published), events);
            |items| == |Successes(events)| &&
            forall i :: 0 <= i < |items| ==>
              items[i].index == (if cfg.sorted then Successes(events)[i].position else i)
  {
    RunTrace(cfg, published, events);
  }

  /** With at least one column, every placed image goes to a column in `[0, columns)`. */
  lemma ColumnsInRange<P>(cfg: Config<P>, published: Columns<P>, events: seq<Event<P>>)
    requires cfg.columns >= 1
    ensures forall item :: item in Items(cfg, Start(published), events) ==>
              0 <= item.column < cfg.columns
  {
    RunTrace(cfg, published, events);
    InitialValid(cfg.columns);
    ReplayValid(INITIAL, SuccessHeights(events), cfg.columns);
  }

  /**
    The balancer's totals after a pass are the sums of the placed images'
    heights per column, and with non-negative heights its highest total is the
    largest column total.
   */
  lemma PassTotals<P>(cfg: Config<P>, published: Columns<P>, events: seq<Event<P>>, column: int)
    ensures TotalAt(Run(cfg, Start(published), events).balancer, column) ==
            ColumnSum(SuccessHeights(events), Replay(INITIAL, SuccessHeights(events), cfg.columns).1, column)
    ensures (forall i :: 0 <= i < |events| && events[i].Resolved? ==> 0.0 <= events[i].height) ==>
              RunningMax(Run(cfg, Start(published), events).balancer)
  {
    RunTrace(cfg, published, events);
    ReplayTotals(INITIAL, SuccessHeights(events), cfg.columns, column);
    var heights := SuccessHeights(events);
    if forall i :: 0 <= i < |events| && events[i].Resolved? ==> 0.0 <= events[i].height {
      forall i | 0 <= i < |heights| ensures 0.0 <= heights[i] {
        var e := Successes(events)[i];
        assert e in events;
      }
      InitialValid(cfg.columns);
      ReplayRunningMax(INITIAL, heights, cfg.columns);
    }
  }

  /**
    When publishing happens. With a first batch of size T >= 1: fewer than T
    successes publish nothing and only fill the batch; from the T-th success
    on, the published state is every placed image inserted in completion
    order into an empty state, the batch holding the first T. With T <= 0
    the batch stays empty and every image is inserted straight into what was
    published before the pass.
   */
  lemma {:induction false} Publishing<P>(cfg: Config<P>, published: Columns<P>, events: seq<Event<P>>)
    ensures var r := Run(cfg, Start(published), events);
            var items := Items(cfg, Start(published), events);
            var t := cfg.firstRenderNum;
            (|items| < t ==> r.published == published && r.batchOne == InsertAll(cfg, items, [])) &&
            (1 <= t <= |items| ==>
               r.published == InsertAll(cfg, items, []) && r.batchOne == InsertAll(cfg, items[..t], [])) &&
            (t <= 0 ==> r.published == InsertAll(cfg, items, published) && r.batchOne == [])
    decreases |events|
  {
    if events != [] {
      var n := |events| - 1;
      var prefix := events[..n];
      Publishing(cfg, published, prefix);
      RenderIndexCountsItems(cfg, published, prefix);
      var s := Run(cfg, Start(published), prefix);
      var items := Items(cfg, Start(published), prefix);
      assert PublishedAs(cfg, published, s, items);
      assert Run(cfg, Start(published), events) == Step(cfg, s, events[n]);
      if events[n].Resolved? {
        assert Items(cfg, Start(published), events) == items + [Place(cfg, s, events[n])];
        PublishingStep(cfg, published, s, items, events[n]);
      } else {
        assert Items(cfg, Start(published), events) == items;
      }
    }
  }

  /** `renderIndex` is the number of images placed so far. */
  lemma RenderIndexCountsItems<P>(cfg: Config<P>, published: Columns<P>, events: seq<Event<P>>)
    ensures Run(cfg, Start(published), events).renderIndex == |Items(cfg, Start(published), events)|
  {
    RunTrace(cfg, published, events);
  }

  /** The three phases of `Publishing` for one pass state and the items placed so far. */
  ghost predicate PublishedAs<P>(cfg: Config<P>, published: Columns<P>, r: PassState<P>, items: seq<Item<P>>)
  {
    var t := cfg.firstRenderNum;
    (|items| < t ==> r.published == published && r.batchOne == InsertAll(cfg, items, [])) &&
    (1 <= t <= |items| ==>
       r.published == InsertAll(cfg, items, []) && r.batchOne == InsertAll(cfg, items[..t], [])) &&
    (t <= 0 ==> r.published == InsertAll(cfg, items, published) && r.batchOne == [])
  }

  /** One success keeps the publishing phases in step with the items placed. */
  lemma PublishingStep<P>(cfg: Config<P>, published: Columns<P>, s: PassState<P>, items: seq<Item<P>>,
                          e: Event<P>)
    requires e.Resolved? && s.renderIndex == |items|
    requires PublishedAs(cfg, published, s, items)
    ensures PublishedAs(cfg, published, Step(cfg, s, e), items + [Place(cfg, s, e)])
  {
    var item := Place(cfg, s, e);
    var items' := items + [item];
    assert items'[..|items|] == items;
    assert InsertAll(cfg, items', []) == cfg.insert(item, InsertAll(cfg, items, []), cfg.sorted);
    assert InsertAll(cfg, items', published) == cfg.insert(item, InsertAll(cfg, items, published), cfg.sorted);
    var t := cfg.firstRenderNum;
    if 1 <= t <= |items| {
      assert items'[..t] == items[..t];
    }
    if t == |items| + 1 {
      assert items'[..t] == items';
    }
  }

  /** Fewer successes than the first-batch size publish nothing at all. */
  lemma FewerThanFirstBatchPublishNothing<P>(cfg: Config<P>, published: Columns<P>, events: seq<Event<P>>)
    requires |Successes(events)| < cfg.firstRenderNum
    ensures Run(cfg, Start(published), events).published == published
  {
    Publishing(cfg, published, events);
    RunTrace(cfg, published, events);
  }

  /**
    Once the first batch has been published, the published state no longer
    depends on what was shown before the pass: a pass started by `addItems`
    replaces the earlier content instead of adding to it.
   */
  lemma PublishedForgetsPrevious<P>(cfg: Config<P>, before1: Columns<P>, before2: Columns<P>,
                                    events: seq<Event<P>>)
    requires 1 <= cfg.firstRenderNum <= |Successes(events)|
    ensures Run(cfg, Start(before1), events).published == Run(cfg, Start(before2), events).published
  {
    RunTrace(cfg, before1, events);
    RunTrace(cfg, before2, events);
    Publishing(cfg, before1, events);
    Publishing(cfg, before2, events);
    assert Items(cfg, Start(before1), events) == Items(cfg, Start(before2), events);
  }

  /** Failed completions change nothing: dropping them gives the same state and the same items. */
  lemma {:induction false} FailuresChangeNothing<P>(cfg: Config<P>, s: PassState<P>, events: seq<Event<P>>)
    ensures Run(cfg, s, events) == Run(cfg, s, Successes(events))
    ensures Items(cfg, s, events) == Items(cfg, s, Successes(events))
    decreases |events|
  {
    if events != [] {
      var n := |events| - 1;
      FailuresChangeNothing(cfg, s, events[..n]);
      var kept := Successes(events[..n]);
      if events[n].Resolved? {
        var kept' := kept + [events[n]];
        assert Successes(events) == kept';
        assert kept'[..|kept|] == kept;
        assert Run(cfg, s, kept') == Step(cfg, Run(cfg, s, kept), events[n]);
        assert Items(cfg, s, kept') == Items(cfg, s, kept) + [Place(cfg, Run(cfg, s, kept), events[n])];
      } else {
        assert Successes(events) == kept;
      }
    }
  }

  /**
    The completions the resolver can deliver for `images`: each refers to a
    submitted (not skipped) position, and no position completes twice.
   */
  ghost predicate ValidCompletions<P>(images: seq<ImageDescriptor>, events: seq<Event<P>>)
  {
    (forall i :: 0 <= i < |events| ==> Submitted(images, events[i].position)) &&
    (forall i, j :: 0 <= i < j < |events| ==> events[i].position != events[j].position)
  }

  /** The successes of a valid completion sequence are themselves a valid completion sequence. */
  lemma {:induction false} SuccessesValid<P>(images: seq<ImageDescriptor>, events: seq<Event<P>>)
    requires ValidCompletions(images, events)
    ensures ValidCompletions(images, Successes(events))
    decreases |events|
  {
    if events != [] {
      var n := |events| - 1;
      var prefix := events[..n];
      assert ValidCompletions(images, prefix) by {
        forall i | 0 <= i < n ensures prefix[i] == events[i] { }
      }
      SuccessesValid(images, prefix);
      var kept := Successes(prefix);
      if events[n].Resolved? {
        assert Successes(events) == kept + [events[n]];
        forall i | 0 <= i < |kept| ensures kept[i].position != events[n].position {
          assert kept[i] in prefix;
          var k :| 0 <= k < n && prefix[k] == kept[i];
          assert events[k] == kept[i];
        }
        assert Submitted(images, events[n].position);
      } else {
        assert Successes(events) == kept;
      }
    }
  }

  /**
    With valid completions, no two placed images share an index, and in
    sorted mode every index is the position of a submitted image.
   */
  lemma IndicesDistinct<P>(cfg: Config<P>, published: Columns<P>, images: seq<ImageDescriptor>,
                           events: seq<Event<P>>)
    requires ValidCompletions(images, events)
    ensures var items := Items(cfg, Start(published), events);
            (forall i, j :: 0 <= i < j < |items| ==> items[i].index != items[j].index) &&
            (cfg.sorted ==> forall i :: 0 <= i < |items| ==> items[i].index >= 0 && Submitted(images, items[i].index))
  {
    RunTrace(cfg, published, events);
    SuccessesValid(images, events);
  }
}
