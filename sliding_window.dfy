/**
 * The bounded window of recent values of `model/struct/sliding_window.py`: a deque with a
 * maximum length whose front (index 0) is the most recent item.
 */
module Window {
  import opened Wrappers

  /** Python's `IndexError`, raised by an out-of-range index or a pop on an empty deque. */
  datatype WindowError = IndexError

  /** The window after `appendleft(x)` on a deque holding `items` with the given maximum length. */
  function Added<T>(items: seq<T>, maxSize: nat, x: T): (r: seq<T>)
    requires |items| <= maxSize
    ensures |r| <= maxSize
    ensures |r| == if |items| < maxSize then |items| + 1 else maxSize
    ensures maxSize > 0 ==> r[0] == x
    ensures 0 < |r| ==> r[1..] == items[..|r| - 1]
  {
    if |items| < maxSize then [x] + items
    else ([x] + items)[..maxSize]
  }

  /** The item at a Python index: non-negative counts from the front, negative from the back. */
  function ItemAt<T>(items: seq<T>, index: int): (r: Result<T, WindowError>)
    ensures r.Ok? <==> -|items| <= index < |items|
    ensures r.Ok? && index >= 0 ==> r.value == items[index]
    ensures r.Ok? && index < 0 ==> r.value == items[|items| + index]
  {
    if 0 <= index < |items| then Ok(items[index])
    else if -|items| <= index < 0 then Ok(items[|items| + index])
    else Err(IndexError)
  }

  /** On a window that is not full, adding an item and popping the front gives back both. */
  lemma AddThenPopLeftRestores<T>(items: seq<T>, maxSize: nat, x: T)
    requires |items| < maxSize
    ensures Added(items, maxSize, x)[0] == x
    ensures Added(items, maxSize, x)[1..] == items
  {
  }

  /** On a full window, adding drops exactly the oldest item. */
  lemma AddToFullDropsOldest<T>(items: seq<T>, maxSize: nat, x: T)
    requires |items| == maxSize > 0
    ensures Added(items, maxSize, x) == [x] + items[..maxSize - 1]
  {
  }

  class SlidingWindow<T> {
    const maxSize: nat
    var items: seq<T>

    ghost predicate Valid()
      reads this
    {
      |items| <= maxSize
    }

    constructor(maxSize: nat)
      ensures Valid()
      ensures this.maxSize == maxSize && items == []
    {
      this.maxSize := maxSize;
      items := [];
    }

    /** `add`: the item becomes the most recent; a full window loses its oldest item. */
    method Add(item: T)
      requires Valid()
      modifies this
      ensures Valid()
      ensures items == Added(old(items), maxSize, item)
    {
      if |items| < maxSize {
        items := [item] + items;
      } else if maxSize > 0 {
        items := [item] + items[..maxSize - 1];
      }
    }

    /** `peek`: the item at `index` (0 is the most recent); the window is not changed. */
    method Peek(index: int) returns (r: Result<T, WindowError>)
      ensures r == ItemAt(items, index)
    {
      if 0 <= index < |items| {
        r := Ok(items[index]);
      } else if -|items| <= index < 0 {
        r := Ok(items[|items| + index]);
      } else {
        r := Err(IndexError);
      }
    }

    /** `pop_left`: removes and returns the most recent item. */
    method PopLeft() returns (r: Result<T, WindowError>)
      requires Valid()
      modifies this
      ensures Valid()
      ensures old(items) == [] ==> r == Err(IndexError) && items == []
      ensures old(items) != [] ==> r == Ok(old(items)[0]) && items == old(items)[1..]
    {
      if items == [] {
        r := Err(IndexError);
      } else {
        r := Ok(items[0]);
        items := items[1..];
      }
    }

    /** `pop_right`: removes and returns the oldest item. */
    method PopRight() returns (r: Result<T, WindowError>)
      requires Valid()
      modifies this
      ensures Valid()
      ensures old(items) == [] ==> r == Err(IndexError) && items == []
      ensures old(items) != [] ==>
        r == Ok(old(items)[|old(items)| - 1]) && items == old(items)[..|old(items)| - 1]
    {
      if items == [] {
        r := Err(IndexError);
      } else {
        r := Ok(items[|items| - 1]);
        items := items[..|items| - 1];
      }
    }

    /** `get_list`: the contents from the most recent to the oldest. */
    method GetList() returns (r: seq<T>)
      requires Valid()
      ensures r == items && |r| <= maxSize
    {
      r := items;
    }
  }
}
