/** The customer list (js/radar-chart/customers.js): selecting and
    deselecting customers, clearing the selection, adding a customer by a
    typed id, the window of the virtual list, and the two selection-count
    rules of the side panel. */
module Customers {
  import opened Wrappers
  import opened Config
  import opened Utils
  import opened State
  import opened Prediction
  import Chart

  /** Array.prototype.indexOf: the first position of id, or -1. */
  function IndexOf(ids: seq<string>, id: string): (i: int)
    ensures -1 <= i < |ids|
    ensures i == -1 <==> id !in ids
    ensures i >= 0 ==> ids[i] == id && forall k :: 0 <= k < i ==> ids[k] != id
  {
    if ids == [] then -1
    else if ids[0] == id then 0
    else
      var rest := IndexOf(ids[1..], id);
      if rest == -1 then -1 else rest + 1
  }

  /** The selection after toggleCustomer: an absent id is pushed at the
      end, a present one is spliced out. */
  function ToggledSelection(ids: seq<string>, id: string): seq<string> {
    var i := IndexOf(ids, id);
    if i == -1 then ids + [id] else ids[..i] + ids[i + 1..]
  }

  /** The ids other than id, in their order: an independent description of
      what removing id leaves. */
  function Without(ids: seq<string>, id: string): (r: seq<string>)
    ensures forall x :: x in r <==> x in ids && x != id
  {
    if ids == [] then []
    else (if ids[0] == id then [] else [ids[0]]) + Without(ids[1..], id)
  }

  /** Toggling an absent id appends it and leaves the others in place. */
  lemma ToggleAppends(ids: seq<string>, id: string)
    requires id !in ids
    ensures ToggledSelection(ids, id) == ids + [id]
  {
  }

  /** Toggling a present id in a repeat-free selection removes exactly that
      id and keeps the order of the rest. */
  lemma {:induction false} ToggleRemoves(ids: seq<string>, id: string)
    requires NoDuplicates(ids) && id in ids
    ensures ToggledSelection(ids, id) == Without(ids, id)
  {
    if ids[0] == id {
      assert id !in ids[1..];
      WithoutAbsent(ids[1..], id);
    } else {
      assert NoDuplicates(ids[1..]);
      ToggleRemoves(ids[1..], id);
      var i := IndexOf(ids[1..], id);
      assert IndexOf(ids, id) == i + 1;
      assert ids[..i + 1] == [ids[0]] + ids[1..][..i];
      assert ids[i + 2..] == ids[1..][i + 1..];
    }
  }

  lemma {:induction false} WithoutAbsent(ids: seq<string>, id: string)
    requires id !in ids
    ensures Without(ids, id) == ids
  {
    if ids != [] {
      WithoutAbsent(ids[1..], id);
    }
  }

  lemma {:induction false} WithoutNoDuplicates(ids: seq<string>, id: string)
    requires NoDuplicates(ids)
    ensures NoDuplicates(Without(ids, id))
  {
    if ids != [] {
      assert NoDuplicates(ids[1..]);
      WithoutNoDuplicates(ids[1..], id);
      var rest := Without(ids[1..], id);
      assert ids[0] !in ids[1..];
      assert ids[0] !in rest;
    }
  }

  /** Toggling keeps the selection free of repeats, flips the membership of
      the toggled id, keeps every other id's membership and changes the
      count by exactly one. */
  lemma ToggleInvariant(ids: seq<string>, id: string)
    requires NoDuplicates(ids)
    ensures NoDuplicates(ToggledSelection(ids, id))
    ensures id in ToggledSelection(ids, id) <==> id !in ids
    ensures forall x :: x != id ==> (x in ToggledSelection(ids, id) <==> x in ids)
    ensures |ToggledSelection(ids, id)| == if id in ids then |ids| - 1 else |ids| + 1
  {
    if id in ids {
      ToggleRemoves(ids, id);
      WithoutNoDuplicates(ids, id);
    }
  }

  /** Toggling an absent id twice restores the selection. */
  lemma ToggleTwiceRestores(ids: seq<string>, id: string)
    requires NoDuplicates(ids) && id !in ids
    ensures ToggledSelection(ToggledSelection(ids, id), id) == ids
  {
    var t := ids + [id];
    assert IndexOf(t, id) == |ids| by {
      assert t[|ids|] == id;
      assert forall k :: 0 <= k < |ids| ==> t[k] != id;
    }
    assert t[..|ids|] == ids;
  }

  /** toggleCustomer. */
  method ToggleCustomer(s: State, id: string, container: Option<Viewport>)
    requires s.Valid()
    modifies s`selectedCustomerIds, s`expandedCustomerIds, s`virtualScroll
    ensures s.Valid()
    ensures s.selectedCustomerIds == ToggledSelection(old(s.selectedCustomerIds), id)
    ensures s.expandedCustomerIds ==
      if id in old(s.selectedCustomerIds) then old(s.expandedCustomerIds) - {id} else old(s.expandedCustomerIds)
    ensures s.virtualScroll == WindowAfter(old(s.virtualScroll), container, |s.customerData|)
  {
    ToggleInvariant(s.selectedCustomerIds, id);
    var index := IndexOf(s.selectedCustomerIds, id);
    if index == -1 {
      s.selectedCustomerIds := s.selectedCustomerIds + [id];
    } else {
      s.selectedCustomerIds := s.selectedCustomerIds[..index] + s.selectedCustomerIds[index + 1..];
      s.expandedCustomerIds := s.expandedCustomerIds - {id};
    }
    // updateVirtualScroll recomputes the window through calculateVisibleRange
    CalculateVisibleRange(s, container);
  }

  /** clearAllCustomers. */
  method ClearAllCustomers(s: State, container: Option<Viewport>)
    requires s.Valid()
    modifies s`selectedCustomerIds, s`expandedCustomerIds, s`virtualScroll
    ensures s.Valid()
    ensures s.selectedCustomerIds == [] && s.expandedCustomerIds == {}
    ensures s.virtualScroll == WindowAfter(old(s.virtualScroll), container, |s.customerData|)
  {
    s.selectedCustomerIds := [];
    s.expandedCustomerIds := {};
    CalculateVisibleRange(s, container);
  }

  /** The expand button's toggle, which the page offers only on a selected
      row. */
  method ToggleExpanded(s: State, id: string)
    requires s.Valid() && id in s.selectedCustomerIds
    modifies s`expandedCustomerIds
    ensures s.Valid()
    ensures s.expandedCustomerIds ==
      if id in old(s.expandedCustomerIds) then old(s.expandedCustomerIds) - {id} else old(s.expandedCustomerIds) + {id}
  {
    if id in s.expandedCustomerIds {
      s.expandedCustomerIds := s.expandedCustomerIds - {id};
    } else {
      s.expandedCustomerIds := s.expandedCustomerIds + {id};
    }
  }

  /** String.prototype.toUpperCase on ASCII letters. */
  function ToUpperChar(c: char): (u: char)
    ensures 'a' <= c <= 'z' ==> u as int == c as int - 32
    ensures !('a' <= c <= 'z') ==> u == c
    ensures !('a' <= u <= 'z')
  {
    if 'a' <= c <= 'z' then (c as int - 32) as char else c
  }

  function ToUpper(s: string): (u: string)
    ensures |u| == |s|
    ensures forall i :: 0 <= i < |s| ==> u[i] == ToUpperChar(s[i])
  {
    seq(|s|, i requires 0 <= i < |s| => ToUpperChar(s[i]))
  }

  /** Upper-casing twice is upper-casing once. */
  lemma ToUpperIdempotent(s: string)
    ensures ToUpper(ToUpper(s)) == ToUpper(s)
  {
  }

  /** The first row whose id equals the typed id up to case. */
  function FindCaseInsensitive(data: seq<Record>, id: string): (r: Option<Record>)
    ensures r.None? <==> forall x :: x in data ==> ToUpper(x.customerId) != ToUpper(id)
    ensures r.Some? ==> r.value in data && ToUpper(r.value.customerId) == ToUpper(id)
    ensures r.Some? ==> exists j :: (0 <= j < |data| && data[j] == r.value &&
      forall k :: 0 <= k < j ==> ToUpper(data[k].customerId) != ToUpper(id))
  {
    if data == [] then None
    else if ToUpper(data[0].customerId) == ToUpper(id) then Some(data[0])
    else
      var rest := FindCaseInsensitive(data[1..], id);
      if rest.Some? then
        var j :| 0 <= j < |data[1..]| && data[1..][j] == rest.value &&
          forall k :: 0 <= k < j ==> ToUpper(data[1..][k].customerId) != ToUpper(id);
        assert data[j + 1] == rest.value && forall k :: 0 <= k < j + 1 ==> ToUpper(data[k].customerId) != ToUpper(id);
        rest
      else rest
  }

  /** The selection after addCustomerById: the row's own id is appended when
      a row matches and its id is not yet selected; otherwise nothing. */
  function SelectionAfterAdd(selected: seq<string>, data: seq<Record>, id: string): seq<string> {
    match FindCaseInsensitive(data, id)
    case None => selected
    case Some(c) => if IndexOf(selected, c.customerId) == -1 then ToggledSelection(selected, c.customerId) else selected
  }

  /** Adding appends at most one id, and it is a row's own id matching the
      typed one up to case; an unknown id changes nothing. */
  lemma AddAppendsRowId(selected: seq<string>, data: seq<Record>, id: string)
    ensures var r := SelectionAfterAdd(selected, data, id);
      r == selected || exists c :: c in data && ToUpper(c.customerId) == ToUpper(id) && c.customerId !in selected && r == selected + [c.customerId]
    ensures (forall x :: x in data ==> ToUpper(x.customerId) != ToUpper(id)) ==> SelectionAfterAdd(selected, data, id) == selected
    ensures FindCaseInsensitive(data, id).Some? ==>
      var c := FindCaseInsensitive(data, id).value.customerId;
      SelectionAfterAdd(selected, data, id) == if c in selected then selected else selected + [c]
  {
  }

  /** Repeating an add changes nothing more, and ids that agree up to case
      add the same customer. */
  lemma AddIdempotent(selected: seq<string>, data: seq<Record>, id: string, other: string)
    ensures SelectionAfterAdd(SelectionAfterAdd(selected, data, id), data, id) == SelectionAfterAdd(selected, data, id)
    ensures ToUpper(id) == ToUpper(other) ==> SelectionAfterAdd(selected, data, other) == SelectionAfterAdd(selected, data, id)
  {
    if ToUpper(id) == ToUpper(other) {
      FindSameUpToCase(data, id, other);
    }
    var found := FindCaseInsensitive(data, id);
    if found.Some? {
      assert found.value.customerId in SelectionAfterAdd(selected, data, id);
    }
  }

  lemma {:induction false} FindSameUpToCase(data: seq<Record>, id: string, other: string)
    requires ToUpper(id) == ToUpper(other)
    ensures FindCaseInsensitive(data, id) == FindCaseInsensitive(data, other)
  {
    if data != [] {
      FindSameUpToCase(data[1..], id, other);
    }
  }

  /** addCustomerById; found is false where the page raises its alert. */
  method AddCustomerById(s: State, id: string, container: Option<Viewport>) returns (found: bool)
    requires s.Valid()
    modifies s`selectedCustomerIds, s`expandedCustomerIds, s`virtualScroll
    ensures s.Valid()
    ensures found <==> exists c :: c in s.customerData && ToUpper(c.customerId) == ToUpper(id)
    ensures s.selectedCustomerIds == SelectionAfterAdd(old(s.selectedCustomerIds), s.customerData, id)
    ensures s.expandedCustomerIds == old(s.expandedCustomerIds)
    ensures s.virtualScroll ==
      if s.selectedCustomerIds == old(s.selectedCustomerIds) then old(s.virtualScroll)
      else WindowAfter(old(s.virtualScroll), container, |s.customerData|)
  {
    var customer := FindCaseInsensitive(s.customerData, id);
    if customer.None? {
      return false;
    }
    found := true;
    if IndexOf(s.selectedCustomerIds, customer.value.customerId) == -1 {
      ToggleCustomer(s, customer.value.customerId, container);
    }
  }

  /** The list container's height and scroll offset. */
  datatype Viewport = Viewport(clientHeight: int, scrollTop: real)

  function VisibleStart(vs: VirtualScroll, vp: Viewport): (start: int)
    requires vs.itemHeight > 0
    ensures start >= 0
    ensures start == 0 || start as real <= vp.scrollTop / vs.itemHeight as real - vs.buffer as real
    ensures start as real > vp.scrollTop / vs.itemHeight as real - vs.buffer as real - 1.0
  {
    var f := (vp.scrollTop / vs.itemHeight as real).Floor - vs.buffer;
    if 0 <= f then f else 0
  }

  function VisibleEnd(vs: VirtualScroll, vp: Viewport, count: nat): (end: int)
    requires vs.itemHeight > 0 && count > 0
    ensures end <= count - 1
    ensures end == count - 1 || end as real >= (vp.scrollTop + vp.clientHeight as real) / vs.itemHeight as real + vs.buffer as real
    ensures end as real < (vp.scrollTop + vp.clientHeight as real) / vs.itemHeight as real + vs.buffer as real + 1.0
  {
    var c := Ceil((vp.scrollTop + vp.clientHeight as real) / vs.itemHeight as real) + vs.buffer;
    if count - 1 <= c then count - 1 else c
  }

  lemma ScaleBelow(x: real, y: real, w: real)
    requires w > 0.0 && x * w < y * w
    ensures x < y
  {
  }

  /** An item whose bottom edge lies below offset t starts at or after the
      item t falls in. */
  lemma FloorBelow(t: real, h: real, j: int)
    requires h > 0.0 && (j + 1) as real * h > t
    ensures (t / h).Floor <= j
  {
    FractionBounds(t, h);
    ScaleBelow(t / h, (j + 1) as real, h);
  }

  /** An item whose top edge is above offset t is at most ceil(t / h). */
  lemma CeilAbove(t: real, h: real, j: int)
    requires h > 0.0 && j as real * h < t
    ensures j <= Ceil(t / h)
  {
    FractionBounds(t, h);
    ScaleBelow(j as real, t / h, h);
  }

  /** Every row that shows through the viewport, even in part, lies in the
      computed window. */
  lemma VisibleRangeCoversViewport(vs: VirtualScroll, vp: Viewport, count: nat, j: nat)
    requires vs.itemHeight > 0 && vs.buffer >= 0 && count > 0
    requires j < count
    requires j as real * vs.itemHeight as real < vp.scrollTop + vp.clientHeight as real
    requires (j + 1) as real * vs.itemHeight as real > vp.scrollTop
    ensures VisibleStart(vs, vp) <= j <= VisibleEnd(vs, vp, count)
  {
    FloorBelow(vp.scrollTop, vs.itemHeight as real, j);
    CeilAbove(vp.scrollTop + vp.clientHeight as real, vs.itemHeight as real, j);
  }

  /** With a non-negative viewport the window is not empty. */
  lemma VisibleEndNonNegative(vs: VirtualScroll, vp: Viewport, count: nat)
    requires vs.itemHeight > 0 && vs.buffer >= 0 && count > 0
    requires vp.scrollTop >= 0.0 && vp.clientHeight >= 0
    ensures VisibleEnd(vs, vp, count) >= 0
  {
    DivNonNegative(vp.scrollTop + vp.clientHeight as real, vs.itemHeight as real);
  }

  /** The list window once calculateVisibleRange has run: unchanged without
      a container or without rows, otherwise the rows around the viewport,
      within the list, with the heights and the buffer kept. */
  function WindowAfter(vs: VirtualScroll, container: Option<Viewport>, count: nat): (w: VirtualScroll)
    requires vs.itemHeight > 0
    ensures w.itemHeight == vs.itemHeight && w.expandedItemHeight == vs.expandedItemHeight && w.buffer == vs.buffer
    ensures container.None? || count == 0 ==> w == vs
    ensures container.Some? && count > 0 ==>
      && w.visibleEnd <= count - 1
      && w.scrollTop == container.value.scrollTop
      && w.visibleStart == VisibleStart(vs, container.value)
      && w.visibleEnd == VisibleEnd(vs, container.value, count)
  {
    if container.None? || count == 0 then vs
    else
      vs.(visibleStart := VisibleStart(vs, container.value),
          visibleEnd := VisibleEnd(vs, container.value, count),
          scrollTop := container.value.scrollTop)
  }

  /** calculateVisibleRange: nothing without a container or without rows. */
  method CalculateVisibleRange(s: State, container: Option<Viewport>)
    requires s.Valid()
    modifies s`virtualScroll
    ensures s.Valid()
    ensures container.None? || s.customerData == [] ==> s.virtualScroll == old(s.virtualScroll)
    ensures container.Some? && s.customerData != [] ==>
      s.virtualScroll == old(s.virtualScroll).(
        visibleStart := VisibleStart(old(s.virtualScroll), container.value),
        visibleEnd := VisibleEnd(old(s.virtualScroll), container.value, |s.customerData|),
        scrollTop := container.value.scrollTop)
    ensures s.virtualScroll == WindowAfter(old(s.virtualScroll), container, |s.customerData|)
  {
    if container.None? || |s.customerData| == 0 {
      return;
    }
    var vp := container.value;
    var startIndex := VisibleStart(s.virtualScroll, vp);
    var endIndex := VisibleEnd(s.virtualScroll, vp, |s.customerData|);
    s.virtualScroll := s.virtualScroll.(visibleStart := startIndex, visibleEnd := endIndex, scrollTop := vp.scrollTop);
  }

  /** loadCustomerData once the rows have arrived: store them, recompute the
      list window and refresh the prediction. */
  method LoadCustomerData(s: State, data: seq<Record>, container: Option<Viewport>, controls: LoanControls)
    returns (view: Option<PredictionView>)
    requires s.Valid()
    modifies s`customerData, s`virtualScroll, s`loanParameters
    ensures s.Valid()
    ensures s.customerData == data
    ensures container.None? || data == [] ==> s.virtualScroll == old(s.virtualScroll)
    ensures container.Some? && data != [] ==>
      s.virtualScroll == old(s.virtualScroll).(
        visibleStart := VisibleStart(old(s.virtualScroll), container.value),
        visibleEnd := VisibleEnd(old(s.virtualScroll), container.value, |data|),
        scrollTop := container.value.scrollTop)
    ensures s.loanParameters == RefreshedParameters(data, old(s.loanParameters), controls)
    ensures view == PredictionDisplay(data, s.values[..], s.loanParameters)
  {
    s.customerData := data;
    CalculateVisibleRange(s, container);
    view := UpdatePrediction(s, controls);
  }

  /** updateCustomerWarning shows its warning above ten customers. */
  predicate WarningShown(selected: seq<string>) {
    |selected| > MaxRecommendedCustomers
  }

  /** updateClearAllButton disables the button on an empty selection. */
  predicate ClearAllDisabled(selected: seq<string>) {
    |selected| == 0
  }

  /** The warning appears from the eleventh customer on; Clear All is
      disabled exactly in manual mode, so never while the warning shows. */
  lemma PanelRules(selected: seq<string>)
    ensures WarningShown(selected) <==> |selected| >= 11
    ensures ClearAllDisabled(selected) <==> Chart.ManualMode(selected)
    ensures WarningShown(selected) ==> !ClearAllDisabled(selected)
  {
  }

  /** Toggling one customer moves the count by one, so the warning switches
      on only when the eleventh is added and off only when it is removed. */
  lemma WarningAfterToggle(ids: seq<string>, id: string)
    requires NoDuplicates(ids)
    ensures WarningShown(ToggledSelection(ids, id)) != WarningShown(ids) <==>
      (id !in ids && |ids| == 10) || (id in ids && |ids| == 11)
  {
    ToggleInvariant(ids, id);
  }
}
