/**
 * `herald:list` (src/Commands/HeraldListCommand.php): one table row per
 * registered handler, with the way it would run. Whether a class exists and
 * whether it implements ShouldQueue are given as predicates over class names.
 */
module ListCommand {
  import opened Wrappers
  import opened Console
  import opened Herald

  /** A row of the table: event type, handler label and mode. */
  datatype Row = Row(event: string, handler: string, mode: string)

  /**
   * `describeHandler`: a Closure first (it is also an object), then a class
   * name, then an instance; anything else (an array callable) is unknown.
   */
  function DescribeHandler(h: Handler, classExists: string -> bool, shouldQueue: string -> bool): (r: (string, string))
    ensures h.Closure? ==> r == ("Closure", "sync")
    ensures r.1 == "missing" <==> h.ClassName? && !classExists(h.name)
    ensures r.1 == "queued" <==> h.ClassName? && classExists(h.name) && shouldQueue(h.name)
    ensures r.1 == "invalid" <==> h.Instance? && shouldQueue(h.className)
    ensures r.1 == "sync" <==> !(r.1 in {"missing", "queued", "invalid"})
    ensures h.ClassName? ==> r.0 == h.name
    ensures h.Instance? ==> r.0 == h.className
    ensures h.ArrayCallable? ==> r == ("Unknown", "sync")
  {
    match h
    case Closure(_) => ("Closure", "sync")
    case ClassName(name) =>
      if !classExists(name) then (name, "missing")
      else (name, if shouldQueue(name) then "queued" else "sync")
    case Instance(cls, _) => if shouldQueue(cls) then (cls, "invalid") else (cls, "sync")
    case ArrayCallable(_) => ("Unknown", "sync")
  }

  function HandlerRow(t: string, h: Handler, classExists: string -> bool, shouldQueue: string -> bool): Row
  {
    var d := DescribeHandler(h, classExists, shouldQueue);
    Row(t, d.0, d.1)
  }

  /** One row per handler, in registration order. */
  function HandlerRows(t: string, hs: seq<Handler>, classExists: string -> bool, shouldQueue: string -> bool): (rows: seq<Row>)
    ensures |rows| == |hs|
  {
    if hs == [] then []
    else HandlerRows(t, hs[..|hs| - 1], classExists, shouldQueue) + [HandlerRow(t, hs[|hs| - 1], classExists, shouldQueue)]
  }

  /** The j-th row describes the j-th handler. */
  lemma {:induction false} HandlerRowsPointwise(t: string, hs: seq<Handler>, classExists: string -> bool, shouldQueue: string -> bool)
    ensures forall j :: 0 <= j < |hs| ==> HandlerRows(t, hs, classExists, shouldQueue)[j] == HandlerRow(t, hs[j], classExists, shouldQueue)
  {
    if hs != [] {
      HandlerRowsPointwise(t, hs[..|hs| - 1], classExists, shouldQueue);
    }
  }

  /** A type with no handlers still gets one row, `[type, '-', '-']`. */
  function TypeRows(t: string, hs: seq<Handler>, classExists: string -> bool, shouldQueue: string -> bool): (rows: seq<Row>)
    ensures |rows| == if hs == [] then 1 else |hs|
  {
    if hs == [] then [Row(t, "-", "-")] else HandlerRows(t, hs, classExists, shouldQueue)
  }

  /** Every row of a type names that type; with handlers, the k-th row describes the k-th handler. */
  lemma TypeRowsContents(t: string, hs: seq<Handler>, classExists: string -> bool, shouldQueue: string -> bool)
    ensures var rows := TypeRows(t, hs, classExists, shouldQueue);
            && (hs == [] ==> rows == [Row(t, "-", "-")])
            && (forall k :: 0 <= k < |hs| ==> rows[k] == HandlerRow(t, hs[k], classExists, shouldQueue))
            && (forall k :: 0 <= k < |rows| ==> rows[k].event == t)
  {
    HandlerRowsPointwise(t, hs, classExists, shouldQueue);
  }

  /** The rows for `types`, type after type, in the order given. */
  function Rows(types: seq<string>, tab: HandlerTable, classExists: string -> bool, shouldQueue: string -> bool): (rows: seq<Row>)
    ensures rows == [] <==> types == []
  {
    if types == [] then []
    else Rows(types[..|types| - 1], tab, classExists, shouldQueue)
         + TypeRows(types[|types| - 1], tab.Get(types[|types| - 1]), classExists, shouldQueue)
  }

  /** Each type contributes max(1, number of its handlers) rows. */
  function RowCount(types: seq<string>, tab: HandlerTable): nat
  {
    if types == [] then 0
    else RowCount(types[1..], tab) + (if tab.Get(types[0]) == [] then 1 else |tab.Get(types[0])|)
  }

  lemma {:induction false} RowCountSplit(types: seq<string>, tab: HandlerTable)
    requires types != []
    ensures RowCount(types, tab) == RowCount(types[..|types| - 1], tab)
              + (if tab.Get(types[|types| - 1]) == [] then 1 else |tab.Get(types[|types| - 1])|)
  {
    if |types| > 1 {
      RowCountSplit(types[1..], tab);
      assert types[1..][..|types[1..]| - 1] == types[..|types| - 1][1..];
    }
  }

  lemma {:induction false} RowsLength(types: seq<string>, tab: HandlerTable, classExists: string -> bool, shouldQueue: string -> bool)
    ensures |Rows(types, tab, classExists, shouldQueue)| == RowCount(types, tab)
  {
    if types != [] {
      RowsLength(types[..|types| - 1], tab, classExists, shouldQueue);
      RowCountSplit(types, tab);
    }
  }

  /** The rows of a prefix of the types are a prefix of the rows. */
  lemma {:induction false} RowsPrefix(types: seq<string>, k: nat, tab: HandlerTable, classExists: string -> bool, shouldQueue: string -> bool)
    requires k <= |types|
    ensures var pre := Rows(types[..k], tab, classExists, shouldQueue);
            var all := Rows(types, tab, classExists, shouldQueue);
            |pre| <= |all| && all[..|pre|] == pre
    decreases |types| - k
  {
    if k < |types| {
      RowsPrefix(types[..|types| - 1], k, tab, classExists, shouldQueue);
      assert types[..|types| - 1][..k] == types[..k];
    } else {
      assert types[..k] == types;
    }
  }

  /** The rows of the first i + 1 types are those of the first i, then the rows of the i-th. */
  lemma RowsSnoc(types: seq<string>, i: nat, tab: HandlerTable, classExists: string -> bool, shouldQueue: string -> bool)
    requires i < |types|
    ensures Rows(types[..i + 1], tab, classExists, shouldQueue)
            == Rows(types[..i], tab, classExists, shouldQueue) + TypeRows(types[i], tab.Get(types[i]), classExists, shouldQueue)
  {
    assert types[..i + 1][..i] == types[..i];
  }

  /** A block that extends a prefix `pre` to a prefix `front` of `all` sits right after `pre` in `all`. */
  lemma BlockAfterPrefix<T>(all: seq<T>, pre: seq<T>, block: seq<T>, front: seq<T>)
    requires front == pre + block && |front| <= |all| && all[..|front|] == front
    ensures |pre| + |block| <= |all| && all[|pre|..|pre| + |block|] == block
  {
    forall k | 0 <= k < |block|
      ensures all[|pre|..|pre| + |block|][k] == block[k]
    {
      assert all[|pre| + k] == all[..|front|][|pre| + k] == (pre + block)[|pre| + k];
    }
  }

  /**
   * The rows of the i-th type form one block, right after the rows of the
   * types before it: types in registry order, then handlers in order.
   */
  lemma RowsBlock(types: seq<string>, i: nat, tab: HandlerTable, classExists: string -> bool, shouldQueue: string -> bool)
    requires i < |types|
    ensures var start := |Rows(types[..i], tab, classExists, shouldQueue)|;
            var block := TypeRows(types[i], tab.Get(types[i]), classExists, shouldQueue);
            var all := Rows(types, tab, classExists, shouldQueue);
            start + |block| <= |all| && all[start..start + |block|] == block
  {
    var pre := Rows(types[..i], tab, classExists, shouldQueue);
    var block := TypeRows(types[i], tab.Get(types[i]), classExists, shouldQueue);
    var front := Rows(types[..i + 1], tab, classExists, shouldQueue);
    var all := Rows(types, tab, classExists, shouldQueue);
    assert front == pre + block by {
      RowsSnoc(types, i, tab, classExists, shouldQueue);
    }
    assert |front| <= |all| && all[..|front|] == front by {
      RowsPrefix(types, i + 1, tab, classExists, shouldQueue);
    }
    BlockAfterPrefix(all, pre, block, front);
  }

  /** Every row names a type that was listed. */
  lemma {:induction false} RowsEvents(types: seq<string>, tab: HandlerTable, classExists: string -> bool, shouldQueue: string -> bool)
    ensures forall r :: r in Rows(types, tab, classExists, shouldQueue) ==> r.event in types
  {
    if types != [] {
      RowsEvents(types[..|types| - 1], tab, classExists, shouldQueue);
      var last := TypeRows(types[|types| - 1], tab.Get(types[|types| - 1]), classExists, shouldQueue);
      TypeRowsContents(types[|types| - 1], tab.Get(types[|types| - 1]), classExists, shouldQueue);
      assert forall r :: r in last ==> r.event == types[|types| - 1];
    }
  }

  /** The inner `foreach` of `handle`: one row per handler of `eventType`, appended in order. */
  method AddHandlerRows(rows: seq<Row>, eventType: string, handlers: seq<Handler>,
                        classExists: string -> bool, shouldQueue: string -> bool)
    returns (out: seq<Row>)
    ensures out == rows + HandlerRows(eventType, handlers, classExists, shouldQueue)
  {
    out := rows;
    var j := 0;
    while j < |handlers|
      invariant 0 <= j <= |handlers|
      invariant out == rows + HandlerRows(eventType, handlers[..j], classExists, shouldQueue)
    {
      var d := DescribeHandler(handlers[j], classExists, shouldQueue);
      assert handlers[..j + 1][..j] == handlers[..j];
      out := out + [Row(eventType, d.0, d.1)];
      j := j + 1;
    }
    assert handlers[..j] == handlers;
  }

  /**
   * `handle`: with nothing registered, no table and SUCCESS; otherwise the
   * table built by the two nested loops, and SUCCESS.
   */
  method Handle(herald: HeraldManager, classExists: string -> bool, shouldQueue: string -> bool)
    returns (code: ExitCode, table: Option<seq<Row>>)
    ensures code == Success
    ensures table.None? <==> herald.GetRegisteredEventTypes() == []
    ensures table.Some? ==> table.value == Rows(herald.GetRegisteredEventTypes(), herald.handlers, classExists, shouldQueue)
  {
    var eventTypes := herald.GetRegisteredEventTypes();
    var tab := herald.handlers;
    if eventTypes == [] {
      return Success, None;
    }
    var rows: seq<Row> := [];
    var i := 0;
    while i < |eventTypes|
      invariant 0 <= i <= |eventTypes|
      invariant rows == Rows(eventTypes[..i], tab, classExists, shouldQueue)
    {
      var eventType := eventTypes[i];
      var handlers := tab.Get(eventType);
      RowsSnoc(eventTypes, i, tab, classExists, shouldQueue);
      if handlers == [] {
        rows := rows + [Row(eventType, "-", "-")];
      } else {
        rows := AddHandlerRows(rows, eventType, handlers, classExists, shouldQueue);
      }
      i := i + 1;
    }
    assert eventTypes[..i] == eventTypes;
    return Success, Some(rows);
  }
}
