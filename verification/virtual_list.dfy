/** components/test-cases/virtual-test-list.tsx: a windowed list of fixed-height rows
    with a set of selected ids. Rows are represented by their ids; the scroll offset is
    a whole number of pixels. */
module VirtualList {

  const ItemHeight: nat := 80
  const VisibleItemCount: nat := 10
  /** Rows rendered beyond the visible ones (`VISIBLE_ITEMS + 5`). */
  const Overscan: nat := 5
  /** The scroll container is VISIBLE_ITEMS rows tall. */
  const ViewportHeight: nat := VisibleItemCount * ItemHeight

  datatype Window = Window(startIndex: nat, endIndex: nat, offsetY: nat)

  function Min(a: int, b: int): int
  {
    if a <= b then a else b
  }

  /** `startIndex`, `endIndex` and `offsetY` for a scroll offset and n rows. */
  function ComputeWindow(scrollTop: nat, n: nat): (w: Window)
    ensures w.startIndex * ItemHeight <= scrollTop < (w.startIndex + 1) * ItemHeight
    ensures w.endIndex <= n && w.endIndex <= w.startIndex + VisibleItemCount + Overscan
    ensures w.endIndex == n || w.endIndex == w.startIndex + VisibleItemCount + Overscan
    ensures w.offsetY == w.startIndex * ItemHeight
  {
    var start := scrollTop / ItemHeight;
    Window(start, Min(start + VisibleItemCount + Overscan, n), start * ItemHeight)
  }

  /** `Array.prototype.slice(start, end)` for 0 <= start, end: empty when start >= end. */
  function Slice<T>(s: seq<T>, start: nat, end: nat): (r: seq<T>)
    ensures start >= |s| || start >= end ==> r == []
    ensures start < end && start < |s| ==> r == s[start..Min(end, |s|)]
  {
    if start >= end || start >= |s| then [] else s[start..Min(end, |s|)]
  }

  /** `visibleItems`. */
  function VisibleRows(rows: seq<nat>, scrollTop: nat): seq<nat>
  {
    var w := ComputeWindow(scrollTop, |rows|);
    Slice(rows, w.startIndex, w.endIndex)
  }

  /** At most fifteen rows are rendered, each at its own position, none once the list is
      scrolled past its end, and every row that overlaps the viewport is among them. */
  lemma VisibleRowsCoverViewport(rows: seq<nat>, scrollTop: nat)
    ensures |VisibleRows(rows, scrollTop)| <= VisibleItemCount + Overscan
    ensures ComputeWindow(scrollTop, |rows|).startIndex >= |rows| ==> VisibleRows(rows, scrollTop) == []
    ensures forall k :: 0 <= k < |VisibleRows(rows, scrollTop)| ==>
      VisibleRows(rows, scrollTop)[k] == rows[ComputeWindow(scrollTop, |rows|).startIndex + k]
    ensures forall i :: 0 <= i < |rows| && scrollTop < (i + 1) * ItemHeight && i * ItemHeight < scrollTop + ViewportHeight ==>
      ComputeWindow(scrollTop, |rows|).startIndex <= i &&
      rows[i] == VisibleRows(rows, scrollTop)[i - ComputeWindow(scrollTop, |rows|).startIndex]
  {
    var w := ComputeWindow(scrollTop, |rows|);
    forall i | 0 <= i < |rows| && scrollTop < (i + 1) * ItemHeight && i * ItemHeight < scrollTop + ViewportHeight
      ensures w.startIndex <= i < w.endIndex
    {
      assert w.startIndex * ItemHeight < (i + 1) * ItemHeight;
      assert i * ItemHeight < (w.startIndex + 1 + VisibleItemCount) * ItemHeight;
    }
  }

  /** `totalHeight`. */
  function TotalHeight(n: nat): nat
  {
    n * ItemHeight
  }

  /** `handleSelect(id, checked)` on a copy of the selection. */
  function Select(selected: set<nat>, id: nat, checked: bool): (r: set<nat>)
    ensures id in r <==> checked
    ensures forall x :: x != id ==> (x in r <==> x in selected)
  {
    if checked then selected + {id} else selected - {id}
  }

  /** The set of the rows' ids. */
  function Ids(rows: seq<nat>): (ids: set<nat>)
    ensures forall x :: x in ids <==> x in rows
  {
    set i | 0 <= i < |rows| :: rows[i]
  }

  /** `handleSelectAll`: it compares sizes only. */
  function SelectAll(selected: set<nat>, rows: seq<nat>): (r: set<nat>)
    ensures |selected| == |rows| ==> r == {}
    ensures |selected| != |rows| ==> forall x :: x in r <==> x in rows
  {
    if |selected| == |rows| then {} else Ids(rows)
  }

  /** The header checkbox. */
  predicate HeaderChecked(selected: set<nat>, n: nat)
  {
    |selected| == n && n > 0
  }

  /** `canEdit`. */
  predicate CanEdit(userRole: string)
  {
    userRole == "admin" || userRole == "test-lead"
  }

  predicate Distinct(rows: seq<nat>)
  {
    forall i, j :: 0 <= i < j < |rows| ==> rows[i] != rows[j]
  }

  lemma {:induction false} DistinctIdsCount(rows: seq<nat>)
    requires Distinct(rows)
    ensures |Ids(rows)| == |rows|
  {
    if rows != [] {
      var last := rows[|rows| - 1];
      var init := rows[..|rows| - 1];
      DistinctIdsCount(init);
      assert last !in init;
      assert Ids(rows) == Ids(init) + {last};
    }
  }

  /** With distinct ids, "select all" from anything short of a full selection checks the
      header, and pressing it again clears everything. */
  lemma SelectAllThenHeader(selected: set<nat>, rows: seq<nat>)
    requires Distinct(rows) && |rows| > 0 && |selected| != |rows|
    ensures HeaderChecked(SelectAll(selected, rows), |rows|)
    ensures SelectAll(SelectAll(selected, rows), rows) == {}
  {
    DistinctIdsCount(rows);
  }

  /** The list's own state and the selection its parent keeps for it. */
  class VirtualTestList {
    const testCases: seq<nat>
    const userRole: string
    var scrollTop: nat
    var selectedIds: set<nat>

    constructor(rows: seq<nat>, role: string, selection: set<nat>)
      ensures testCases == rows && userRole == role && selectedIds == selection && scrollTop == 0
    {
      testCases := rows;
      userRole := role;
      selectedIds := selection;
      scrollTop := 0;
    }

    function Visible(): seq<nat>
      reads this
    {
      VisibleRows(testCases, scrollTop)
    }

    /** `handleScroll`. */
    method HandleScroll(top: nat)
      modifies this
      ensures scrollTop == top && selectedIds == old(selectedIds)
    {
      scrollTop := top;
    }

    /** `handleSelect`: copy the set, add or delete, hand the copy to the parent. */
    method HandleSelect(id: nat, checked: bool)
      modifies this
      ensures selectedIds == Select(old(selectedIds), id, checked)
      ensures scrollTop == old(scrollTop)
    {
      var newSet := selectedIds;
      if checked {
        newSet := newSet + {id};
      } else {
        newSet := newSet - {id};
      }
      selectedIds := newSet;
    }

    /** `handleSelectAll`. */
    method HandleSelectAll()
      modifies this
      ensures selectedIds == SelectAll(old(selectedIds), testCases)
      ensures scrollTop == old(scrollTop)
    {
      if |selectedIds| == |testCases| {
        selectedIds := {};
      } else {
        selectedIds := set i | 0 <= i < |testCases| :: testCases[i];
      }
    }
  }
}
