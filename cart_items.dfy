/** The lines of a cart and what the cart operations do to them, as values.
    The cart keeps its lines in a `Set<CarritoItem>`; here they are a
    sequence in insertion order, and "at most one line per product" is the
    invariant `Wf` rather than a property of the container. */
module CartItems {
  import opened Outcomes

  /** One line of a cart: its generated id, the product and how many units.
      The line's back-reference to its cart is left out: a line lives inside
      its cart's value. */
  datatype CarritoItem = CarritoItem(id: int, productoId: int, cantidad: int)

  /** At most one line per product, and every stored quantity positive. */
  predicate Wf(items: seq<CarritoItem>)
  {
    && (forall i :: 0 <= i < |items| ==> items[i].cantidad > 0)
    && (forall i, j :: 0 <= i < j < |items| ==> items[i].productoId != items[j].productoId)
  }

  /** Position of the first line for product `p`, as
      `items.stream().filter(...).findFirst()` finds it. */
  function IndexOf(items: seq<CarritoItem>, p: int): (r: Option<nat>)
    ensures r.Some? ==> r.value < |items| && items[r.value].productoId == p
    ensures r.Some? ==> forall j :: 0 <= j < r.value ==> items[j].productoId != p
    ensures r.None? <==> forall j :: 0 <= j < |items| ==> items[j].productoId != p
  {
    if |items| == 0 then None
    else if items[0].productoId == p then Some(0)
    else match IndexOf(items[1..], p)
      case None => None
      case Some(k) => Some(k + 1)
  }

  /** The search itself: a scan that stops at the first line for `p`. */
  method FindFirst(items: seq<CarritoItem>, p: int) returns (found: bool, k: nat)
    ensures found <==> IndexOf(items, p).Some?
    ensures found ==> k == IndexOf(items, p).value
  {
    k := 0;
    while k < |items| && items[k].productoId != p
      invariant k <= |items|
      invariant forall j :: 0 <= j < k ==> items[j].productoId != p
    {
      k := k + 1;
    }
    found := k < |items|;
  }

  /** The line for product `p`. */
  function Line(items: seq<CarritoItem>, p: int): (x: CarritoItem)
    requires IndexOf(items, p).Some?
    ensures x in items && x.productoId == p
    ensures Wf(items) ==> x.cantidad == Quantity(items, p)
  {
    var k := IndexOf(items, p).value;
    assert Wf(items) ==> Quantity(items, p) == items[k].cantidad by {
      if Wf(items) { QuantityAt(items, k); }
    }
    items[k]
  }

  function Contribution(x: CarritoItem, p: int): int
  {
    if x.productoId == p then x.cantidad else 0
  }

  /** Reference definition: how many units of product `p` the lines hold,
      summed over all lines. */
  function Quantity(items: seq<CarritoItem>, p: int): (n: int)
    ensures (forall i :: 0 <= i < |items| ==> items[i].cantidad > 0) ==> n >= 0
    ensures IndexOf(items, p).None? ==> n == 0
  {
    if items == [] then 0 else Contribution(items[0], p) + Quantity(items[1..], p)
  }

  lemma {:induction false} QuantityAppend(s: seq<CarritoItem>, x: CarritoItem, q: int)
    ensures Quantity(s + [x], q) == Quantity(s, q) + Contribution(x, q)
  {
    if s == [] {
      assert [x][1..] == [];
    } else {
      assert (s + [x])[1..] == s[1..] + [x];
      QuantityAppend(s[1..], x, q);
    }
  }

  lemma {:induction false} QuantityUpdate(s: seq<CarritoItem>, k: nat, y: CarritoItem, q: int)
    requires k < |s|
    ensures Quantity(s[k := y], q) == Quantity(s, q) - Contribution(s[k], q) + Contribution(y, q)
  {
    if k == 0 {
      assert s[k := y][1..] == s[1..];
    } else {
      assert s[k := y][1..] == s[1..][k - 1 := y];
      QuantityUpdate(s[1..], k - 1, y, q);
    }
  }

  lemma {:induction false} QuantityRemove(s: seq<CarritoItem>, k: nat, q: int)
    requires k < |s|
    ensures Quantity(s[..k] + s[k + 1..], q) == Quantity(s, q) - Contribution(s[k], q)
  {
    if k == 0 {
      assert s[..k] + s[k + 1..] == s[1..];
    } else {
      var t := s[1..];
      assert s[..k] + s[k + 1..] == [s[0]] + (t[..k - 1] + t[k..]);
      assert ([s[0]] + (t[..k - 1] + t[k..]))[1..] == t[..k - 1] + t[k..];
      QuantityRemove(t, k - 1, q);
    }
  }

  /** In well-formed lines, a product's quantity is that of its one line. */
  lemma {:induction false} QuantityAt(s: seq<CarritoItem>, k: nat)
    requires Wf(s) && k < |s|
    ensures Quantity(s, s[k].productoId) == s[k].cantidad
  {
    var t := s[1..];
    assert Wf(t);
    if k == 0 {
      assert IndexOf(t, s[0].productoId).None?;
    } else {
      QuantityAt(t, k - 1);
    }
  }

  /** A product has a line exactly when its quantity is positive: there are
      no lines with a zero quantity. */
  lemma PresentIffPositive(s: seq<CarritoItem>, p: int)
    requires Wf(s)
    ensures IndexOf(s, p).Some? <==> Quantity(s, p) > 0
  {
    if IndexOf(s, p).Some? {
      QuantityAt(s, IndexOf(s, p).value);
    }
  }

  /** Adding `c` units of `p`: the existing line for `p` grows by `c`, or a
      new line `(freshId, p, c)` is appended. */
  function Merge(items: seq<CarritoItem>, p: int, c: int, freshId: int): (r: seq<CarritoItem>)
    requires Wf(items) && c > 0
    ensures Wf(r)
    ensures |r| == if IndexOf(items, p).Some? then |items| else |items| + 1
    ensures forall i :: 0 <= i < |items| ==> r[i].id == items[i].id && r[i].productoId == items[i].productoId
    ensures forall i :: 0 <= i < |items| && items[i].productoId != p ==> r[i] == items[i]
    ensures IndexOf(items, p).None? ==> r[|items|] == CarritoItem(freshId, p, c)
    ensures IndexOf(r, p).Some?
  {
    match IndexOf(items, p)
    case Some(k) => items[k := items[k].(cantidad := items[k].cantidad + c)]
    case None => items + [CarritoItem(freshId, p, c)]
  }

  /** The merge as the service performs it: find the product's line, then
      either raise its quantity in place or append a new line. Returns the
      new lines and the line that was changed or created. */
  method AddToLines(items: seq<CarritoItem>, p: int, c: int, freshId: int) returns (after: seq<CarritoItem>, line: CarritoItem)
    requires Wf(items) && c > 0
    ensures after == Merge(items, p, c, freshId)
    ensures line == Line(after, p)
  {
    var found, k := FindFirst(items, p);
    if found {
      line := items[k].(cantidad := items[k].cantidad + c);
      after := items[k := line];
      assert after == Merge(items, p, c, freshId);
      assert IndexOf(after, p) == Some(k);
    } else {
      line := CarritoItem(freshId, p, c);
      after := items + [line];
      assert after == Merge(items, p, c, freshId);
      assert IndexOf(after, p) == Some(|items|);
    }
  }

  lemma MergeQuantity(items: seq<CarritoItem>, p: int, c: int, freshId: int, q: int)
    requires Wf(items) && c > 0
    ensures Quantity(Merge(items, p, c, freshId), q) == Quantity(items, q) + (if q == p then c else 0)
  {
    match IndexOf(items, p)
    case Some(k) =>
      var y := items[k].(cantidad := items[k].cantidad + c);
      assert Merge(items, p, c, freshId) == items[k := y];
      QuantityUpdate(items, k, y, q);
    case None =>
      var x := CarritoItem(freshId, p, c);
      assert Merge(items, p, c, freshId) == items + [x];
      QuantityAppend(items, x, q);
  }

  /** Taking `c` units of `p` off: the line goes when it holds no more than
      `c`, and otherwise shrinks by `c`. */
  function Decrease(items: seq<CarritoItem>, p: int, c: int): (r: seq<CarritoItem>)
    requires Wf(items) && c > 0 && IndexOf(items, p).Some?
    ensures Wf(r)
    ensures |r| == if Line(items, p).cantidad <= c then |items| - 1 else |items|
  {
    var k := IndexOf(items, p).value;
    if items[k].cantidad <= c then items[..k] + items[k + 1..]
    else items[k := items[k].(cantidad := items[k].cantidad - c)]
  }

  lemma DecreaseQuantity(items: seq<CarritoItem>, p: int, c: int, q: int)
    requires Wf(items) && c > 0 && IndexOf(items, p).Some?
    ensures Quantity(Decrease(items, p, c), q) ==
      if q != p then Quantity(items, q)
      else if Quantity(items, p) <= c then 0
      else Quantity(items, p) - c
  {
    var k := IndexOf(items, p).value;
    QuantityAt(items, k);
    if items[k].cantidad <= c {
      assert Decrease(items, p, c) == items[..k] + items[k + 1..];
      QuantityRemove(items, k, q);
    } else {
      var y := items[k].(cantidad := items[k].cantidad - c);
      assert Decrease(items, p, c) == items[k := y];
      QuantityUpdate(items, k, y, q);
    }
  }

  /** Removing the line for `p` whatever its quantity. */
  function Without(items: seq<CarritoItem>, p: int): (r: seq<CarritoItem>)
    requires Wf(items) && IndexOf(items, p).Some?
    ensures Wf(r)
    ensures |r| == |items| - 1
    ensures IndexOf(r, p).None?
  {
    var k := IndexOf(items, p).value;
    items[..k] + items[k + 1..]
  }

  lemma WithoutQuantity(items: seq<CarritoItem>, p: int, q: int)
    requires Wf(items) && IndexOf(items, p).Some?
    ensures Quantity(Without(items, p), q) == if q == p then 0 else Quantity(items, q)
  {
    var k := IndexOf(items, p).value;
    QuantityAt(items, k);
    QuantityRemove(items, k, q);
  }
}
