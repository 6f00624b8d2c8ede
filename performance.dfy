/**
 * The list-virtualisation arithmetic and the image helper of src/utils/performance.ts.
 * Heights and scroll offsets are integers; the divisions are exact (rational) and then
 * rounded with `Math.floor` / `Math.ceil`, as JavaScript does for these values.
 */
module Performance {
  /** `Math.floor(a / b)`: the integer `q` with `q <= a / b < q + 1`, written out for both
    * signs of `b` (a negative divisor reverses the inequalities). Dafny's own `/` rounds
    * down only for a positive divisor, hence the second case. */
  function FloorDiv(a: int, b: int): (q: int)
    requires b != 0
    ensures b > 0 ==> q * b <= a < q * b + b
    ensures b < 0 ==> q * b >= a > q * b + b
  {
    if b > 0 then a / b else (-a) / (-b)
  }

  /** `Math.ceil(a / b)`: the integer `q` with `q - 1 < a / b <= q`. */
  function CeilDiv(a: int, b: int): (q: int)
    requires b != 0
    ensures b > 0 ==> q * b - b < a <= q * b
    ensures b < 0 ==> q * b - b > a >= q * b
  {
    -FloorDiv(-a, b)
  }

  /** What `createVirtualList` returns, with the two values `getVisibleRange` closes over. */
  datatype VirtualList = VirtualList(visibleCount: int, totalHeight: int, length: nat, itemHeight: int)

  datatype Range = Range(start: int, end: int)

  /** `createVirtualList(items, itemHeight, containerHeight)` for a list of `length` items. */
  function CreateVirtualList(length: nat, itemHeight: int, containerHeight: int): (list: VirtualList)
    requires itemHeight != 0
    ensures list.length == length && list.itemHeight == itemHeight
    ensures list.totalHeight == length * itemHeight
    ensures list.visibleCount == CeilDiv(containerHeight, itemHeight)
  {
    VirtualList(CeilDiv(containerHeight, itemHeight), length * itemHeight, length, itemHeight)
  }

  /** `getVisibleRange(scrollTop)`: the first item at the offset, and the end of the window
    * of `visibleCount` items, cut at the end of the list. */
  function GetVisibleRange(list: VirtualList, scrollTop: int): (r: Range)
    requires list.itemHeight != 0
    ensures r.start == FloorDiv(scrollTop, list.itemHeight)
    ensures r.end <= list.length && r.end <= r.start + list.visibleCount
    ensures r.end == list.length || r.end == r.start + list.visibleCount
    ensures r.start > list.length ==> r.end < r.start
  {
    var start := FloorDiv(scrollTop, list.itemHeight);
    var end := if start + list.visibleCount <= list.length then start + list.visibleCount else list.length;
    Range(start, end)
  }

  /** `optimizeImage(src, width, quality)` returns the address it was given. */
  function OptimizeImage(src: string, width: int, quality: int): (r: string)
    ensures r == src
  {
    src
  }

  // ---------------------------------------------------------------------
  // properties

  /** Scrolling further down never moves the first visible item up. */
  lemma StartMonotone(list: VirtualList, s1: int, s2: int)
    requires list.itemHeight > 0 && s1 <= s2
    ensures GetVisibleRange(list, s1).start <= GetVisibleRange(list, s2).start
  {
    var h := list.itemHeight;
    var q1 := FloorDiv(s1, h);
    var q2 := FloorDiv(s2, h);
    if q1 > q2 {
      assert q1 * h >= (q2 + 1) * h;
    }
  }
}
