/**
 Byte-budgeted pages of keys, array items and string code points.

 Sizes are those of the serialised page.  Lists grow a page item by item; strings first try the
 whole page and otherwise search for the largest count that fits.
 */
module JsonPaging {
  import opened Common
  import Numerals

  const BUDGET: nat := 24_000
  const NULL_BYTES: nat := 4

  datatype View<+T> =
    | Page(items: seq<T>, next: Option<nat>)
    | DrillRequired(at: nat)  // nothing fits at this offset: the caller must drill into the item
    | Failed

  predicate Fits(size: Option<nat>) {
    size.Some? && size.value <= BUDGET
  }

  function NextOffset(reached: nat, total: nat): Option<nat> {
    if reached < total then Some(reached) else None
  }

  function Min(a: nat, b: nat): nat {
    if a < b then a else b
  }

  // ---------------------------------------------------------------- what every page promises

  /** A page shows a run of items from `offset`, names where the next begins, and makes progress. */
  ghost predicate GoodView<T>(items: seq<T>, offset: nat, view: View<T>) {
    match view
    case Page(shown, next) =>
      && offset + |shown| <= |items| && shown == items[offset..offset + |shown|]
      && next == NextOffset(offset + |shown|, |items|)
      && (shown == [] ==> offset == |items|)
    case DrillRequired(at) => at == offset && offset < |items|
    case Failed => true
  }

  /** Reading on from page to page: all items shown, and the view at which reading stops. */
  function Follow<T>(items: seq<T>, pager: nat -> View<T>, offset: nat): (r: (seq<T>, View<T>))
    requires offset <= |items| && forall o: nat :: o <= |items| ==> GoodView(items, o, pager(o))
    decreases |items| - offset
  {
    var view := pager(offset);
    assert GoodView(items, offset, view);
    if view.Page? && view.next.Some? then
      var rest := Follow(items, pager, view.next.value);
      (view.items + rest.0, rest.1)
    else if view.Page? then (view.items, view)
    else ([], view)
  }

  /** Following `next_offset` shows every item once, in order, up to the end or to an item that must be drilled into. */
  lemma {:induction false} FollowVisitsAll<T>(items: seq<T>, pager: nat -> View<T>, offset: nat)
    requires offset <= |items| && forall o: nat :: o <= |items| ==> GoodView(items, o, pager(o))
    ensures var (shown, last) := Follow(items, pager, offset);
            && offset + |shown| <= |items| && shown == items[offset..offset + |shown|]
            && (last.Page? ==> offset + |shown| == |items|)
            && (last.DrillRequired? ==> last.at == offset + |shown|)
    decreases |items| - offset
  {
    var view := pager(offset);
    assert GoodView(items, offset, view);
    if view.Page? && view.next.Some? {
      var next := view.next.value;
      FollowVisitsAll(items, pager, next);
      var rest := Follow(items, pager, next).0;
      assert items[offset..next] + items[next..next + |rest|] == items[offset..next + |rest|];
    }
  }

  // ---------------------------------------------------------------- lists

  /** Serialised size of a page of items that would be followed by `next`; nothing if serialising fails. */
  type ListSize<!T> = (seq<T>, Option<nat>) -> Option<nat>

  function PageSize<T>(items: seq<T>, offset: nat, n: nat, size: ListSize<T>): Option<nat>
    requires offset + n <= |items|
  {
    size(items[offset..offset + n], NextOffset(offset + n, |items|))
  }

  /** `n` items fit and so did every shorter page on the way; one more would not, or is not allowed. */
  ghost predicate GreedyLength<T>(items: seq<T>, offset: nat, limit: nat, n: nat, size: ListSize<T>) {
    && n <= limit && offset + n <= |items|
    && (forall k :: 0 < k <= n ==> Fits(PageSize(items, offset, k, size)))
    && (n < limit && offset + n < |items| ==> !Fits(PageSize(items, offset, n + 1, size)))
  }

  method ListPage<T>(items: seq<T>, offset: nat, limit: nat, size: ListSize<T>, drillFits: bool)
    returns (view: View<T>)
    requires limit >= 1
    ensures GoodView(items, offset, view)
    ensures offset > |items| ==> view.Failed?
    ensures offset == |items| ==> view == if Fits(size([], None)) then Page([], None) else Failed
    ensures view.Page? ==> GreedyLength(items, offset, limit, |view.items|, size) && Fits(size(view.items, view.next))
    ensures offset < |items| ==>
              (view.Page? <==> Fits(PageSize(items, offset, 1, size))) &&
              (view.DrillRequired? <==> !Fits(PageSize(items, offset, 1, size)) && drillFits)
  {
    if offset > |items| {
      return Failed;
    }
    var page: seq<T> := [];
    var i := offset;
    var end := Min(|items|, offset + limit);
    while i < end
      invariant offset <= i <= end && page == items[offset..i]
      invariant forall k :: 0 < k <= i - offset ==> Fits(PageSize(items, offset, k, size))
    {
      page := page + [items[i]];
      assert page == items[offset..i + 1];
      var output := size(page, NextOffset(i + 1, |items|));
      assert output == PageSize(items, offset, i + 1 - offset, size);
      if !Fits(output) {
        page := items[offset..i];
        break;
      }
      i := i + 1;
    }
    if page == [] && offset < |items| {
      return if drillFits then DrillRequired(offset) else Failed;
    }
    assert page == items[offset..offset + |page|];
    var next := NextOffset(offset + |page|, |items|);
    view := if Fits(size(page, next)) then Page(page, next) else Failed;
    assert |page| > 0 ==> Fits(PageSize(items, offset, |page|, size));
  }

  // ---------------------------------------------------------------- strings

  function Digits(n: nat): nat {
    |Numerals.Decimal(n)|
  }

  lemma {:induction false} MoreDigits(a: nat, b: nat)
    requires a <= b
    ensures Digits(a) <= Digits(b)
  {
    if a >= 10 {
      MoreDigits(a / 10, b / 10);
    }
  }

  function Sum(costs: seq<nat>): nat {
    if costs == [] then 0 else Sum(costs[..|costs| - 1]) + costs[|costs| - 1]
  }

  lemma {:induction false} SumGrows(costs: seq<nat>, a: nat, b: nat)
    requires a <= b <= |costs|
    ensures Sum(costs[..a]) <= Sum(costs[..b])
  {
    if a < b {
      SumGrows(costs, a, b - 1);
      assert costs[..b][..b - 1] == costs[..b - 1];
    }
  }

  /**
   Size of a string page of `count` code points: fixed metadata, the printed count, the printed next
   offset or `null`, and the code points, each at its own cost in bytes.
   */
  function StringSize(base: nat, costs: seq<nat>, offset: nat, total: nat, count: nat): nat
    requires count <= |costs|
  {
    base + Digits(count) + (if offset + count < total then Digits(offset + count) else NULL_BYTES) + Sum(costs[..count])
  }

  predicate StringFits(base: nat, costs: seq<nat>, offset: nat, total: nat, count: nat)
    requires count <= |costs|
  {
    StringSize(base, costs, offset, total, count) <= BUDGET
  }

  /** Short of the whole page, a longer page is never smaller. */
  lemma SizeGrows(base: nat, costs: seq<nat>, offset: nat, total: nat, a: nat, b: nat)
    requires a <= b < |costs| && offset + |costs| <= total
    ensures StringSize(base, costs, offset, total, a) <= StringSize(base, costs, offset, total, b)
  {
    MoreDigits(a, b);
    MoreDigits(offset + a, offset + b);
    SumGrows(costs, a, b);
  }

  /** The last code point of a string can make the page smaller: exactly when `null` saves more than it costs. */
  lemma LastCanShrinkIff(base: nat, costs: seq<nat>, offset: nat)
    requires costs != []
    ensures var n := |costs|;
            StringSize(base, costs, offset, offset + n, n) < StringSize(base, costs, offset, offset + n, n - 1) <==>
            costs[n - 1] + Digits(n) + NULL_BYTES < Digits(n - 1) + Digits(offset + n - 1)
  {
    assert costs[..|costs|] == costs;
  }

  /** The largest count that fits, found by trying one after the other. */
  function LargestFit(base: nat, costs: seq<nat>, offset: nat, total: nat, n: nat): (r: nat)
    requires n <= |costs|
    ensures r <= n
    ensures r > 0 ==> StringFits(base, costs, offset, total, r)
    ensures forall k :: r < k <= n ==> !StringFits(base, costs, offset, total, k)
  {
    if n == 0 then 0 else if StringFits(base, costs, offset, total, n) then n
    else LargestFit(base, costs, offset, total, n - 1)
  }

  /** The binary search agrees with the linear scan, given that the whole page was tried first. */
  method SearchLargest(base: nat, costs: seq<nat>, offset: nat, total: nat) returns (lower: nat)
    requires offset + |costs| <= total && !StringFits(base, costs, offset, total, |costs|)
    ensures lower == LargestFit(base, costs, offset, total, |costs|)
  {
    var upper := |costs|;
    lower := 0;
    while lower < upper
      invariant 0 <= lower <= upper <= |costs|
      invariant lower > 0 ==> lower < |costs| && StringFits(base, costs, offset, total, lower)
      invariant forall k :: upper < k <= |costs| ==> !StringFits(base, costs, offset, total, k)
    {
      var middle := (lower + upper + 1) / 2;
      if StringFits(base, costs, offset, total, middle) {
        lower := middle;
      } else {
        forall k | middle <= k <= |costs|
          ensures !StringFits(base, costs, offset, total, k)
        {
          if k < |costs| {
            SizeGrows(base, costs, offset, total, middle, k);
          }
        }
        upper := middle - 1;
      }
    }
  }

  /** `costs` are the sizes of all code points of the string. */
  method StringPage<T>(characters: seq<T>, costs: seq<nat>, base: nat, offset: nat, limit: nat, drillFits: bool)
    returns (view: View<T>)
    requires |costs| == |characters| && limit >= 1
    ensures GoodView(characters, offset, view)
    ensures offset > |characters| ==> view.Failed?
    ensures offset == |characters| ==> view == if StringFits(base, [], offset, offset, 0) then Page([], None) else Failed
    ensures view.Page? ==> |view.items| <= limit
    ensures offset <= |characters| ==>
              var window := costs[offset..Min(|characters|, offset + limit)];
              var best := LargestFit(base, window, offset, |characters|, |window|);
              && (view.Page? ==> |view.items| == best && StringFits(base, window, offset, |characters|, best))
              && (window != [] ==> (view.Page? <==> best > 0) && (view.DrillRequired? <==> best == 0 && drillFits))
  {
    var total := |characters|;
    if offset > total {
      return Failed;
    }
    var window := costs[offset..Min(total, offset + limit)];
    if StringFits(base, window, offset, total, |window|) {
      return Page(characters[offset..offset + |window|], NextOffset(offset + |window|, total));
    }
    var lower := SearchLargest(base, window, offset, total);
    if lower == 0 && window != [] {
      return if drillFits then DrillRequired(offset) else Failed;
    }
    view := if StringFits(base, window, offset, total, lower)
            then Page(characters[offset..offset + lower], NextOffset(offset + lower, total)) else Failed;
  }

  // ---------------------------------------------------------------- code points

  /** UTF-16 code units. */
  type Unit = n: nat | n < 0x1_0000 witness 0

  predicate IsPair(units: seq<Unit>) {
    |units| >= 2 && 0xD800 <= units[0] < 0xDC00 && 0xDC00 <= units[1] < 0xE000
  }

  /** The code points of a string, a lone surrogate counting as one. */
  function CodePoints(units: seq<Unit>): seq<seq<Unit>> {
    if units == [] then []
    else if IsPair(units) then [units[..2]] + CodePoints(units[2..])
    else [units[..1]] + CodePoints(units[1..])
  }

  function Concat(parts: seq<seq<Unit>>): seq<Unit> {
    if parts == [] then [] else parts[0] + Concat(parts[1..])
  }

  /** Joining the code points gives back the string, so pages that show each of them once lose nothing. */
  lemma {:induction false} CodePointsJoin(units: seq<Unit>)
    ensures Concat(CodePoints(units)) == units
    decreases |units|
  {
    if units != [] {
      var n := if IsPair(units) then 2 else 1;
      CodePointsJoin(units[n..]);
      var rest := CodePoints(units[n..]);
      assert ([units[..n]] + rest)[1..] == rest;
      assert units == units[..n] + units[n..];
    }
  }
}
