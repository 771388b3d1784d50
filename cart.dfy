/**
 * The client-side shopping cart store: an ordered list of line items and the
 * cart drawer's visibility flag. Each action replaces the list with a new one
 * computed by a list transformation (`find`, `map`, `filter`); the two getters
 * are `reduce` folds over the list.
 *
 * The list functions come first, then what they preserve and how they move
 * the totals, then the store itself.
 */
module Cart {
  import opened Wrappers

  /** What `addItem` is given: a line item without its quantity. */
  datatype MenuItem = MenuItem(id: int, name: string, price: real, image: Option<string>)

  /** One line of the cart. */
  datatype CartItem = CartItem(id: int, name: string, price: real, image: Option<string>, quantity: int)

  /** `{ ...item, quantity: 1 }`: the line `addItem` appends for a new id. */
  function NewLine(item: MenuItem): CartItem {
    CartItem(item.id, item.name, item.price, item.image, 1)
  }

  predicate HasId(lines: seq<CartItem>, id: int) {
    exists i :: 0 <= i < |lines| && lines[i].id == id
  }

  /** At most one line per id. */
  predicate UniqueIds(lines: seq<CartItem>) {
    forall i, j :: 0 <= i < j < |lines| ==> lines[i].id != lines[j].id
  }

  predicate PositiveQuantities(lines: seq<CartItem>) {
    forall i :: 0 <= i < |lines| ==> lines[i].quantity >= 1
  }

  /** The invariant every action keeps: unique ids and every quantity at least 1. */
  predicate WellFormed(lines: seq<CartItem>) {
    UniqueIds(lines) && PositiveQuantities(lines)
  }

  // ---------------------------------------------------------------------
  // List transformations
  // ---------------------------------------------------------------------

  /** Index of the first line with `id`. */
  function IndexOfId(lines: seq<CartItem>, id: int): (r: Option<nat>)
    ensures r.None? <==> !HasId(lines, id)
    ensures r.Some? ==> r.value < |lines| && lines[r.value].id == id
    ensures r.Some? ==> forall j :: 0 <= j < r.value ==> lines[j].id != id
  {
    if lines == [] then None
    else if lines[0].id == id then Some(0)
    else
      match IndexOfId(lines[1..], id)
      case None => None
      case Some(k) => Some(k + 1)
  }

  /** `items.find(item => item.id === id)`: the first line with `id`. */
  function Find(lines: seq<CartItem>, id: int): (r: Option<CartItem>)
    ensures r.None? <==> !HasId(lines, id)
    ensures r.Some? ==> r.value in lines && r.value.id == id
    ensures r.Some? ==> exists i :: 0 <= i < |lines| && lines[i] == r.value &&
                          forall j :: 0 <= j < i ==> lines[j].id != id
  {
    match IndexOfId(lines, id)
    case None => None
    case Some(i) => Some(lines[i])
  }

  /** `items.map(item => item.id === id ? { ...item, quantity: item.quantity + 1 } : item)`. */
  function IncrementId(lines: seq<CartItem>, id: int): (r: seq<CartItem>)
    ensures |r| == |lines|
    ensures forall i :: 0 <= i < |lines| && lines[i].id == id ==>
              r[i] == lines[i].(quantity := lines[i].quantity + 1)
    ensures forall i :: 0 <= i < |lines| && lines[i].id != id ==> r[i] == lines[i]
  {
    if lines == [] then []
    else
      var head := if lines[0].id == id then lines[0].(quantity := lines[0].quantity + 1) else lines[0];
      [head] + IncrementId(lines[1..], id)
  }

  /** The new list `addItem` computes. */
  function AddLine(lines: seq<CartItem>, item: MenuItem): seq<CartItem> {
    if Find(lines, item.id).Some? then IncrementId(lines, item.id)
    else lines + [NewLine(item)]
  }

  /** `items.filter(item => item.id !== id)`: the list `removeItem` computes. */
  function WithoutId(lines: seq<CartItem>, id: int): (r: seq<CartItem>)
    ensures |r| <= |lines|
    ensures forall x :: x in r <==> x in lines && x.id != id
  {
    if lines == [] then []
    else if lines[0].id != id then [lines[0]] + WithoutId(lines[1..], id)
    else WithoutId(lines[1..], id)
  }

  /** `Math.max(0, q + delta)`. */
  function ClampedQuantity(q: int, delta: int): (r: int)
    ensures r >= 0 && r >= q + delta
    ensures r == q + delta || r == 0
  {
    if q + delta > 0 then q + delta else 0
  }

  /** The `map` step of `updateQuantity`. */
  function ApplyDelta(lines: seq<CartItem>, id: int, delta: int): (r: seq<CartItem>)
    ensures |r| == |lines|
    ensures forall i :: 0 <= i < |lines| && lines[i].id == id ==>
              r[i] == lines[i].(quantity := ClampedQuantity(lines[i].quantity, delta))
    ensures forall i :: 0 <= i < |lines| && lines[i].id != id ==> r[i] == lines[i]
  {
    if lines == [] then []
    else
      var head := if lines[0].id == id
                  then lines[0].(quantity := ClampedQuantity(lines[0].quantity, delta))
                  else lines[0];
      [head] + ApplyDelta(lines[1..], id, delta)
  }

  /** The `filter(item => item.quantity > 0)` step of `updateQuantity`. */
  function KeepPositive(lines: seq<CartItem>): (r: seq<CartItem>)
    ensures |r| <= |lines|
    ensures forall x :: x in r <==> x in lines && x.quantity > 0
  {
    if lines == [] then []
    else if lines[0].quantity > 0 then [lines[0]] + KeepPositive(lines[1..])
    else KeepPositive(lines[1..])
  }

  /** The new list `updateQuantity` computes. */
  function UpdateLines(lines: seq<CartItem>, id: int, delta: int): seq<CartItem> {
    KeepPositive(ApplyDelta(lines, id, delta))
  }

  /** `lines` without its `k`-th line, the others in their order. */
  function Omit(lines: seq<CartItem>, k: nat): (r: seq<CartItem>)
    requires k < |lines|
    ensures |r| == |lines| - 1
    ensures forall i :: 0 <= i < k ==> r[i] == lines[i]
    ensures forall i :: k <= i < |r| ==> r[i] == lines[i + 1]
  {
    lines[..k] + lines[k + 1..]
  }

  // ---------------------------------------------------------------------
  // The getters: left folds, in the order `reduce` visits the lines
  // ---------------------------------------------------------------------

  /** `items.reduce((count, item) => count + item.quantity, 0)`. */
  function Count(lines: seq<CartItem>): int {
    if lines == [] then 0 else Count(lines[..|lines| - 1]) + lines[|lines| - 1].quantity
  }

  /** `item.price * item.quantity`. */
  function Subtotal(line: CartItem): real {
    line.price * line.quantity as real
  }

  /** `items.reduce((total, item) => total + item.price * item.quantity, 0)`. */
  function Total(lines: seq<CartItem>): real {
    if lines == [] then 0.0 else Total(lines[..|lines| - 1]) + Subtotal(lines[|lines| - 1])
  }

  /** The count of two lists put together is the sum of their counts. */
  lemma {:induction false} CountAppend(a: seq<CartItem>, b: seq<CartItem>)
    ensures Count(a + b) == Count(a) + Count(b)
    decreases |b|
  {
    if b == [] {
      assert a + b == a;
    } else {
      var c := b[..|b| - 1];
      assert (a + b)[..|a + b| - 1] == a + c;
      CountAppend(a, c);
    }
  }

  /** The total of two lists put together is the sum of their totals. */
  lemma {:induction false} TotalAppend(a: seq<CartItem>, b: seq<CartItem>)
    ensures Total(a + b) == Total(a) + Total(b)
    decreases |b|
  {
    if b == [] {
      assert a + b == a;
    } else {
      var c := b[..|b| - 1];
      assert (a + b)[..|a + b| - 1] == a + c;
      TotalAppend(a, c);
    }
  }

  lemma SumsOfOne(x: CartItem)
    ensures Count([x]) == x.quantity && Total([x]) == Subtotal(x)
  {
    assert [x][..0] == [];
  }

  /** The count and total of `pre + [x] + post`, line `x` accounted for separately. */
  lemma SumsAround(pre: seq<CartItem>, x: CartItem, post: seq<CartItem>)
    ensures Count(pre + [x] + post) == Count(pre + post) + x.quantity
    ensures Total(pre + [x] + post) == Total(pre + post) + Subtotal(x)
  {
    SumsOfOne(x);
    CountAppend(pre + [x], post);
    CountAppend(pre, [x]);
    CountAppend(pre, post);
    TotalAppend(pre + [x], post);
    TotalAppend(pre, [x]);
    TotalAppend(pre, post);
  }

  /** Taking one line out lowers the count by its quantity and the total by its subtotal. */
  lemma SumsWithout(lines: seq<CartItem>, k: nat)
    requires k < |lines|
    ensures Count(Omit(lines, k)) == Count(lines) - lines[k].quantity
    ensures Total(Omit(lines, k)) == Total(lines) - Subtotal(lines[k])
  {
    var pre, x, post := lines[..k], lines[k], lines[k + 1..];
    Decompose(lines, k);
    SumsAround(pre, x, post);
    var r := Omit(lines, k);
    assert r == pre + post;
    assert Count(r) == Count(pre + post);
    assert Total(r) == Total(pre + post);
  }

  lemma Decompose(lines: seq<CartItem>, k: nat)
    requires k < |lines|
    ensures lines == lines[..k] + [lines[k]] + lines[k + 1..]
  {
    assert lines == lines[..k] + lines[k..];
    assert lines[k..] == [lines[k]] + lines[k + 1..];
  }

  /** Replacing one line moves the count and the total by the difference. */
  lemma SumsReplaced(lines: seq<CartItem>, k: nat, x: CartItem)
    requires k < |lines|
    ensures Count(lines[k := x]) == Count(lines) - lines[k].quantity + x.quantity
    ensures Total(lines[k := x]) == Total(lines) - Subtotal(lines[k]) + Subtotal(x)
  {
    var pre, post := lines[..k], lines[k + 1..];
    Decompose(lines, k);
    assert lines[k := x] == pre + [x] + post;
    SumsAround(pre, lines[k], post);
    SumsAround(pre, x, post);
  }

  /** With every quantity at least 1, the count is at least the number of lines. */
  lemma {:induction false} CountAtLeastLength(lines: seq<CartItem>)
    requires PositiveQuantities(lines)
    ensures Count(lines) >= |lines|
  {
    if lines != [] {
      var init := lines[..|lines| - 1];
      assert PositiveQuantities(init) by {
        forall i | 0 <= i < |init| ensures init[i].quantity >= 1 { assert init[i] == lines[i]; }
      }
      CountAtLeastLength(init);
    }
  }

  /** Prices and quantities that are not negative give a total that is not negative. */
  lemma {:induction false} TotalNonNegative(lines: seq<CartItem>)
    requires forall i :: 0 <= i < |lines| ==> lines[i].price >= 0.0 && lines[i].quantity >= 0
    ensures Total(lines) >= 0.0
  {
    if lines != [] {
      var init := lines[..|lines| - 1];
      assert forall i :: 0 <= i < |init| ==> init[i] == lines[i];
      TotalNonNegative(init);
      var last := lines[|lines| - 1];
      assert last.price * last.quantity as real >= 0.0;
    }
  }

  // ---------------------------------------------------------------------
  // Facts about single lines
  // ---------------------------------------------------------------------

  lemma OmitWellFormed(lines: seq<CartItem>, k: nat)
    requires k < |lines| && WellFormed(lines)
    ensures WellFormed(Omit(lines, k))
  {
    var r := Omit(lines, k);
    forall i, j | 0 <= i < j < |r| ensures r[i].id != r[j].id {
      var i' := if i < k then i else i + 1;
      var j' := if j < k then j else j + 1;
      assert r[i] == lines[i'] && r[j] == lines[j'];
    }
  }

  lemma OmitCons(lines: seq<CartItem>, k: nat)
    requires 0 < k < |lines|
    ensures Omit(lines, k) == [lines[0]] + Omit(lines[1..], k - 1)
  {
    var tail := lines[1..];
    assert lines[..k] == [lines[0]] + tail[..k - 1];
    assert lines[k + 1..] == tail[k..];
  }

  /** With unique ids, the id of line `k` is found nowhere else. */
  lemma UniqueAt(lines: seq<CartItem>, k: nat)
    requires k < |lines| && UniqueIds(lines)
    ensures forall i :: 0 <= i < |lines| && lines[i].id == lines[k].id ==> i == k
  {
  }

  /** A list that has no line with `id` is unchanged by the filter. */
  lemma {:induction false} WithoutAbsent(lines: seq<CartItem>, id: int)
    requires !HasId(lines, id)
    ensures WithoutId(lines, id) == lines
  {
    if lines != [] {
      assert !HasId(lines[1..], id) by {
        forall i | 0 <= i < |lines[1..]| ensures lines[1..][i].id != id { assert lines[1..][i] == lines[i + 1]; }
      }
      WithoutAbsent(lines[1..], id);
      assert lines == [lines[0]] + lines[1..];
    }
  }

  lemma {:induction false} WithoutPresent(lines: seq<CartItem>, k: nat)
    requires k < |lines| && UniqueIds(lines)
    ensures WithoutId(lines, lines[k].id) == Omit(lines, k)
  {
    var id := lines[k].id;
    var tail := lines[1..];
    assert UniqueIds(tail) by {
      forall i, j | 0 <= i < j < |tail| ensures tail[i].id != tail[j].id {
        assert tail[i] == lines[i + 1] && tail[j] == lines[j + 1];
      }
    }
    if k == 0 {
      assert !HasId(tail, id) by {
        forall i | 0 <= i < |tail| ensures tail[i].id != id { assert tail[i] == lines[i + 1]; }
      }
      WithoutAbsent(tail, id);
      assert Omit(lines, 0) == tail;
    } else {
      assert lines[0].id != id;
      assert tail[k - 1] == lines[k];
      WithoutPresent(tail, k - 1);
      OmitCons(lines, k);
    }
  }

  lemma {:induction false} KeepPositiveAll(lines: seq<CartItem>)
    requires PositiveQuantities(lines)
    ensures KeepPositive(lines) == lines
  {
    if lines != [] {
      var tail := lines[1..];
      assert PositiveQuantities(tail) by {
        forall i | 0 <= i < |tail| ensures tail[i].quantity >= 1 { assert tail[i] == lines[i + 1]; }
      }
      KeepPositiveAll(tail);
      assert lines == [lines[0]] + tail;
    }
  }

  /** If line `k` is the only one without a positive quantity, the filter drops exactly it. */
  lemma {:induction false} KeepPositiveDropsOne(lines: seq<CartItem>, k: nat)
    requires k < |lines| && lines[k].quantity <= 0
    requires forall i :: 0 <= i < |lines| && i != k ==> lines[i].quantity >= 1
    ensures KeepPositive(lines) == Omit(lines, k)
  {
    var tail := lines[1..];
    if k == 0 {
      assert PositiveQuantities(tail) by {
        forall i | 0 <= i < |tail| ensures tail[i].quantity >= 1 { assert tail[i] == lines[i + 1]; }
      }
      KeepPositiveAll(tail);
      assert Omit(lines, 0) == tail;
    } else {
      assert tail[k - 1] == lines[k];
      assert forall i :: 0 <= i < |tail| && i != k - 1 ==> tail[i].quantity >= 1 by {
        forall i | 0 <= i < |tail| && i != k - 1 ensures tail[i].quantity >= 1 {
          assert tail[i] == lines[i + 1];
        }
      }
      KeepPositiveDropsOne(tail, k - 1);
      OmitCons(lines, k);
    }
  }

  // ---------------------------------------------------------------------
  // addItem
  // ---------------------------------------------------------------------

  /** An id not yet in the cart is appended at the end with quantity 1; earlier lines stay as they were. */
  lemma AddItemAppends(lines: seq<CartItem>, item: MenuItem)
    requires !HasId(lines, item.id)
    ensures AddLine(lines, item) == lines + [CartItem(item.id, item.name, item.price, item.image, 1)]
  {
  }

  /**
   * An id already in the cart raises that line's quantity by 1 and changes
   * nothing else; the line keeps its own name, price and image.
   */
  lemma AddItemIncrements(lines: seq<CartItem>, item: MenuItem, k: nat)
    requires UniqueIds(lines) && k < |lines| && lines[k].id == item.id
    ensures AddLine(lines, item) == lines[k := lines[k].(quantity := lines[k].quantity + 1)]
  {
    assert HasId(lines, item.id);
    UniqueAt(lines, k);
  }

  lemma AddItemWellFormed(lines: seq<CartItem>, item: MenuItem)
    requires WellFormed(lines)
    ensures WellFormed(AddLine(lines, item))
  {
    var r := AddLine(lines, item);
    if !HasId(lines, item.id) {
      forall i, j | 0 <= i < j < |r| ensures r[i].id != r[j].id {
        if j == |lines| { assert r[i] == lines[i]; }
      }
    }
  }

  /** Each `addItem` raises the count by exactly 1. */
  lemma AddItemCount(lines: seq<CartItem>, item: MenuItem)
    requires UniqueIds(lines)
    ensures Count(AddLine(lines, item)) == Count(lines) + 1
  {
    match IndexOfId(lines, item.id)
    case None =>
      CountAppend(lines, [NewLine(item)]);
    case Some(k) =>
      AddItemIncrements(lines, item, k);
      SumsReplaced(lines, k, lines[k].(quantity := lines[k].quantity + 1));
  }

  /**
   * Each `addItem` raises the total by one unit price: that of the line
   * already in the cart when there is one (the price passed in is then
   * ignored), otherwise the price passed in.
   */
  lemma AddItemTotal(lines: seq<CartItem>, item: MenuItem)
    requires UniqueIds(lines)
    ensures Total(AddLine(lines, item)) == Total(lines) + Find(lines, item.id).GetOr(NewLine(item)).price
  {
    match IndexOfId(lines, item.id)
    case None =>
      assert AddLine(lines, item) == lines + [NewLine(item)];
      TotalAppend(lines, [NewLine(item)]);
      SumsOfOne(NewLine(item));
    case Some(k) =>
      assert Find(lines, item.id) == Some(lines[k]);
      AddItemTotalAt(lines, item, k);
  }

  lemma AddItemTotalAt(lines: seq<CartItem>, item: MenuItem, k: nat)
    requires UniqueIds(lines) && k < |lines| && lines[k].id == item.id
    ensures Total(AddLine(lines, item)) == Total(lines) + lines[k].price
  {
    var x := lines[k].(quantity := lines[k].quantity + 1);
    calc {
      Total(AddLine(lines, item));
      { AddItemIncrements(lines, item, k); }
      Total(lines[k := x]);
      { SumsReplaced(lines, k, x); }
      Total(lines) - Subtotal(lines[k]) + Subtotal(x);
      { SubtotalOneMore(lines[k]); }
      Total(lines) + lines[k].price;
    }
  }

  lemma SubtotalOneMore(line: CartItem)
    ensures Subtotal(line.(quantity := line.quantity + 1)) == Subtotal(line) + line.price
  {
    var p, q := line.price, line.quantity as real;
    assert (line.quantity + 1) as real == q + 1.0;
    assert p * (q + 1.0) == p * q + p;
  }

  /** Adding the same new item twice gives one line for it, with quantity 2. */
  lemma AddItemTwice(lines: seq<CartItem>, item: MenuItem)
    requires !HasId(lines, item.id)
    ensures AddLine(AddLine(lines, item), item)
            == lines + [CartItem(item.id, item.name, item.price, item.image, 2)]
  {
    var once := AddLine(lines, item);
    assert once[|lines|].id == item.id;
    assert HasId(once, item.id);
  }

  // ---------------------------------------------------------------------
  // removeItem
  // ---------------------------------------------------------------------

  /** Removing an id that is in the cart drops its line and keeps the others in order. */
  lemma RemoveItemPresent(lines: seq<CartItem>, k: nat)
    requires UniqueIds(lines) && k < |lines|
    ensures WithoutId(lines, lines[k].id) == lines[..k] + lines[k + 1..]
    ensures Count(WithoutId(lines, lines[k].id)) == Count(lines) - lines[k].quantity
  {
    WithoutPresent(lines, k);
    SumsWithout(lines, k);
  }

  /** Removing an id that is not in the cart changes nothing. */
  lemma RemoveItemAbsent(lines: seq<CartItem>, id: int)
    requires !HasId(lines, id)
    ensures WithoutId(lines, id) == lines
  {
    WithoutAbsent(lines, id);
  }

  lemma RemoveItemWellFormed(lines: seq<CartItem>, id: int)
    requires WellFormed(lines)
    ensures WellFormed(WithoutId(lines, id))
  {
    match IndexOfId(lines, id)
    case None =>
      WithoutAbsent(lines, id);
    case Some(k) =>
      WithoutPresent(lines, k);
      OmitWellFormed(lines, k);
  }

  // ---------------------------------------------------------------------
  // updateQuantity
  // ---------------------------------------------------------------------

  /**
   * Changing the quantity of a line in a well-formed cart: the line's new
   * quantity is `max(0, q + delta)`; at 0 the line is dropped, otherwise it
   * stays in place. No other line changes.
   */
  lemma UpdateQuantityPresent(lines: seq<CartItem>, k: nat, delta: int)
    requires WellFormed(lines) && k < |lines|
    ensures lines[k].quantity + delta <= 0 ==>
              UpdateLines(lines, lines[k].id, delta) == lines[..k] + lines[k + 1..]
    ensures lines[k].quantity + delta > 0 ==>
              UpdateLines(lines, lines[k].id, delta)
              == lines[k := lines[k].(quantity := lines[k].quantity + delta)]
  {
    var id := lines[k].id;
    var mapped := ApplyDelta(lines, id, delta);
    UniqueAt(lines, k);
    assert mapped == lines[k := lines[k].(quantity := ClampedQuantity(lines[k].quantity, delta))];
    if lines[k].quantity + delta <= 0 {
      KeepPositiveDropsOne(mapped, k);
      assert Omit(mapped, k) == Omit(lines, k);
    } else {
      KeepPositiveAll(mapped);
    }
  }

  /** Changing the quantity of an id not in the cart leaves a cart of positive quantities unchanged. */
  lemma UpdateQuantityAbsent(lines: seq<CartItem>, id: int, delta: int)
    requires PositiveQuantities(lines) && !HasId(lines, id)
    ensures UpdateLines(lines, id, delta) == lines
  {
    assert ApplyDelta(lines, id, delta) == lines;
    KeepPositiveAll(lines);
  }

  /** `updateQuantity` moves the count by the line's change of quantity. */
  lemma UpdateQuantityCount(lines: seq<CartItem>, k: nat, delta: int)
    requires WellFormed(lines) && k < |lines|
    ensures Count(UpdateLines(lines, lines[k].id, delta))
            == Count(lines) - lines[k].quantity + ClampedQuantity(lines[k].quantity, delta)
  {
    UpdateQuantityPresent(lines, k, delta);
    if lines[k].quantity + delta <= 0 {
      SumsWithout(lines, k);
    } else {
      SumsReplaced(lines, k, lines[k].(quantity := lines[k].quantity + delta));
    }
  }

  lemma UpdateQuantityWellFormed(lines: seq<CartItem>, id: int, delta: int)
    requires WellFormed(lines)
    ensures WellFormed(UpdateLines(lines, id, delta))
  {
    match IndexOfId(lines, id)
    case None =>
      UpdateQuantityAbsent(lines, id, delta);
    case Some(k) =>
      UpdateQuantityPresent(lines, k, delta);
      if lines[k].quantity + delta <= 0 {
        OmitWellFormed(lines, k);
      } else {
        ReplaceQuantityWellFormed(lines, k, lines[k].quantity + delta);
      }
  }

  /** Giving one line of a well-formed cart another positive quantity keeps it well-formed. */
  lemma ReplaceQuantityWellFormed(lines: seq<CartItem>, k: nat, q: int)
    requires WellFormed(lines) && k < |lines| && q >= 1
    ensures WellFormed(lines[k := lines[k].(quantity := q)])
  {
    var r := lines[k := lines[k].(quantity := q)];
    assert forall i :: 0 <= i < |r| ==> r[i].id == lines[i].id;
  }

  // ---------------------------------------------------------------------
  // The store
  // ---------------------------------------------------------------------

  /** The cart store: its state and its actions. */
  class CartStore {
    var items: seq<CartItem>
    var isOpen: bool

    /** The store's initial state: an empty cart with the drawer closed. */
    constructor ()
      ensures items == [] && !isOpen
    {
      items := [];
      isOpen := false;
    }

    ghost predicate Valid()
      reads this
    {
      WellFormed(items)
    }

    function GetCartTotal(): real
      reads this
    {
      Total(items)
    }

    function GetCartCount(): int
      reads this
    {
      Count(items)
    }

    method AddItem(item: MenuItem)
      modifies this
      ensures items == AddLine(old(items), item) && isOpen == old(isOpen)
      ensures old(Valid()) ==> Valid() && GetCartCount() == old(GetCartCount()) + 1
    {
      ghost var before := items;
      var existing := Find(items, item.id);
      if existing.Some? {
        items := IncrementId(items, item.id);
      } else {
        items := items + [NewLine(item)];
      }
      if WellFormed(before) {
        AddItemWellFormed(before, item);
        AddItemCount(before, item);
      }
    }

    method RemoveItem(id: int)
      modifies this
      ensures items == WithoutId(old(items), id) && isOpen == old(isOpen)
      ensures old(Valid()) ==> Valid()
    {
      ghost var before := items;
      items := WithoutId(items, id);
      if WellFormed(before) {
        RemoveItemWellFormed(before, id);
      }
    }

    method UpdateQuantity(id: int, delta: int)
      modifies this
      ensures items == UpdateLines(old(items), id, delta) && isOpen == old(isOpen)
      ensures old(Valid()) ==> Valid()
    {
      ghost var before := items;
      var newItems := ApplyDelta(items, id, delta);
      items := KeepPositive(newItems);
      if WellFormed(before) {
        UpdateQuantityWellFormed(before, id, delta);
      }
    }

    method ClearCart()
      modifies this
      ensures items == [] && isOpen == old(isOpen)
      ensures Valid()
    {
      items := [];
    }

    method ToggleCart()
      modifies this
      ensures isOpen == !old(isOpen) && items == old(items)
    {
      isOpen := !isOpen;
    }

    method SetCartOpen(open: bool)
      modifies this
      ensures isOpen == open && items == old(items)
    {
      isOpen := open;
    }
  }

  // ---------------------------------------------------------------------
  // The scenarios the store's own test suite runs, derived from the
  // contracts above
  // ---------------------------------------------------------------------

  /**
   * The lists the store goes through for one pizza: added, added again,
   * raised by 1, lowered by 1, lowered to 0 (the line is dropped), and removed.
   */
  lemma PizzaLines()
    ensures AddLine([], MenuItem(1, "Pizza", 10.0, None)) == [CartItem(1, "Pizza", 10.0, None, 1)]
    ensures AddLine([CartItem(1, "Pizza", 10.0, None, 1)], MenuItem(1, "Pizza", 10.0, None))
            == [CartItem(1, "Pizza", 10.0, None, 2)]
    ensures UpdateLines([CartItem(1, "Pizza", 10.0, None, 1)], 1, 1) == [CartItem(1, "Pizza", 10.0, None, 2)]
    ensures UpdateLines([CartItem(1, "Pizza", 10.0, None, 2)], 1, -1) == [CartItem(1, "Pizza", 10.0, None, 1)]
    ensures UpdateLines([CartItem(1, "Pizza", 10.0, None, 1)], 1, -1) == []
    ensures WithoutId([CartItem(1, "Pizza", 10.0, None, 1)], 1) == []
  {
    var pizza := MenuItem(1, "Pizza", 10.0, None);
    var one, two := [CartItem(1, "Pizza", 10.0, None, 1)], [CartItem(1, "Pizza", 10.0, None, 2)];
    AddItemAppends([], pizza);
    AddItemIncrements(one, pizza, 0);
    UpdateQuantityPresent(one, 0, 1);
    UpdateQuantityPresent(two, 0, -1);
    UpdateQuantityPresent(one, 0, -1);
    RemoveItemPresent(one, 0);
  }

  /**
   * The store tests for lines, each from an empty cart: adding a new item,
   * adding it again, removing it, raising and lowering its quantity, and
   * lowering it to 0.
   */
  method LineScenarios()
  {
    var pizza := MenuItem(1, "Pizza", 10.0, None);
    PizzaLines();
    var cart := new CartStore();
    cart.AddItem(pizza);
    assert cart.items == [CartItem(1, "Pizza", 10.0, None, 1)];
    cart.AddItem(pizza);
    assert cart.items == [CartItem(1, "Pizza", 10.0, None, 2)];

    cart := new CartStore();
    cart.AddItem(pizza);
    cart.RemoveItem(1);
    assert cart.items == [];

    cart := new CartStore();
    cart.AddItem(pizza);
    cart.UpdateQuantity(1, 1);
    assert cart.items[0].quantity == 2;
    cart.UpdateQuantity(1, -1);
    assert cart.items[0].quantity == 1;

    cart := new CartStore();
    cart.AddItem(pizza);
    cart.UpdateQuantity(1, -1);
    assert cart.items == [];
  }

  /** The store tests for clearing the cart and for the drawer flag, each from an empty, closed cart. */
  method DrawerScenarios()
  {
    var cart := new CartStore();
    cart.AddItem(MenuItem(1, "Pizza", 10.0, None));
    cart.ClearCart();
    assert cart.items == [];

    cart := new CartStore();
    assert !cart.isOpen;
    cart.ToggleCart();
    assert cart.isOpen;

    cart := new CartStore();
    cart.SetCartOpen(true);
    assert cart.isOpen;
  }

  /** Two pizzas at 10 and one burger at 5: a total of 25 and a count of 3. */
  lemma TwoPizzasOneBurger()
    ensures Total([CartItem(1, "Pizza", 10.0, None, 2), CartItem(2, "Burger", 5.0, None, 1)]) == 25.0
    ensures Count([CartItem(1, "Pizza", 10.0, None, 2), CartItem(2, "Burger", 5.0, None, 1)]) == 3
  {
    var pizzas, burgers := CartItem(1, "Pizza", 10.0, None, 2), CartItem(2, "Burger", 5.0, None, 1);
    assert [pizzas, burgers] == [pizzas] + [burgers];
    TotalAppend([pizzas], [burgers]);
    CountAppend([pizzas], [burgers]);
    SumsOfOne(pizzas);
    SumsOfOne(burgers);
  }

  /** The lists the store goes through when a pizza and a burger are added, then one more pizza. */
  lemma PizzaBurgerLines()
    ensures AddLine(AddLine([], MenuItem(1, "Pizza", 10.0, None)), MenuItem(2, "Burger", 5.0, None))
            == [CartItem(1, "Pizza", 10.0, None, 1), CartItem(2, "Burger", 5.0, None, 1)]
    ensures UpdateLines([CartItem(1, "Pizza", 10.0, None, 1), CartItem(2, "Burger", 5.0, None, 1)], 1, 1)
            == [CartItem(1, "Pizza", 10.0, None, 2), CartItem(2, "Burger", 5.0, None, 1)]
  {
    var pizza, burger := MenuItem(1, "Pizza", 10.0, None), MenuItem(2, "Burger", 5.0, None);
    AddItemAppends([], pizza);
    AddItemAppends([NewLine(pizza)], burger);
    var two := [NewLine(pizza), NewLine(burger)];
    assert two[0].id != two[1].id;
    UpdateQuantityPresent(two, 0, 1);
  }

  /** Adding a pizza and a burger, then one more pizza. */
  method TotalsScenario()
  {
    var cart := new CartStore();
    cart.AddItem(MenuItem(1, "Pizza", 10.0, None));
    cart.AddItem(MenuItem(2, "Burger", 5.0, None));
    cart.UpdateQuantity(1, 1);
    PizzaBurgerLines();
    TwoPizzasOneBurger();
    assert cart.GetCartTotal() == 25.0 && cart.GetCartCount() == 3;
  }

  /** One pizza raised by 2: a single line of quantity 3, so a count of 3. */
  lemma ThreePizzas()
    ensures UpdateLines([CartItem(1, "Pizza", 10.0, None, 1)], 1, 2) == [CartItem(1, "Pizza", 10.0, None, 3)]
    ensures Count([CartItem(1, "Pizza", 10.0, None, 3)]) == 3
  {
    UpdateQuantityPresent([CartItem(1, "Pizza", 10.0, None, 1)], 0, 2);
    SumsOfOne(CartItem(1, "Pizza", 10.0, None, 3));
  }

  /** Adding a pizza, then raising its quantity by 2. */
  method CountScenario()
  {
    var cart := new CartStore();
    cart.AddItem(MenuItem(1, "Pizza", 10.0, None));
    cart.UpdateQuantity(1, 2);
    PizzaLines();
    ThreePizzas();
    assert cart.GetCartCount() == 3;
  }
}
