/**
 * The rules of the cart and of checkout (`confirmarVenta`) as functions on
 * values: which lines pass the stock check, what the catalog looks like after
 * the stock is taken, the total, the change, the cashier label and the sale
 * record. The `Store` class in PointOfSale runs these step by step.
 */
module Sales {
  import opened Util
  import opened Model
  import opened Catalog

  function LineProduct(l: CartLine): string { l.productoId }
  function LineId(l: CartLine): string { l.id }

  /**
   * The shape every cart the handlers build has: at most one line per product
   * (adding merges), distinct line ids, and quantities of at least 1.
   */
  ghost predicate CartWellFormed(cart: seq<CartLine>)
  {
    && DistinctBy(cart, LineProduct)
    && DistinctBy(cart, LineId)
    && QuantitiesPositive(cart)
  }

  /** Every line asks for at least one unit, as the quantity inputs guarantee. */
  ghost predicate QuantitiesPositive(cart: seq<CartLine>)
  {
    forall i :: 0 <= i < |cart| ==> cart[i].cantidad >= 1
  }

  /** `state.cart.find(x => x.id === id)`, as a position. */
  function LineIndexById(cart: seq<CartLine>, id: string): (r: Option<nat>)
    ensures r.Some? ==> r.value < |cart| && cart[r.value].id == id
    ensures r.Some? ==> forall j :: 0 <= j < r.value ==> cart[j].id != id
    ensures r.None? <==> forall j :: 0 <= j < |cart| ==> cart[j].id != id
  {
    FirstIndex(cart, (l: CartLine) => l.id == id)
  }

  /** `state.cart.find(x => x.productoId === pid)`, as a position. */
  function LineIndexByProduct(cart: seq<CartLine>, pid: string): (r: Option<nat>)
    ensures r.Some? ==> r.value < |cart| && cart[r.value].productoId == pid
    ensures r.Some? ==> forall j :: 0 <= j < r.value ==> cart[j].productoId != pid
    ensures r.None? <==> forall j :: 0 <= j < |cart| ==> cart[j].productoId != pid
  {
    FirstIndex(cart, (l: CartLine) => l.productoId == pid)
  }

  /** `Math.max(parseInt(value) || 1, 1)`; `None` stands for a field that does not parse. */
  function QuantityFromInput(v: Option<int>): (q: int)
    ensures q >= 1
    ensures v.Some? && v.value >= 1 ==> q == v.value
    ensures v.None? || v.value < 1 ==> q == 1
  {
    match v
    case None => 1
    case Some(n) => if n == 0 then 1 else if n > 1 then n else 1
  }

  /** The negation of the checkout guard `!p || p.stock < it.cantidad`. */
  predicate LineInStock(ps: seq<Product>, l: CartLine)
  {
    var i := ProductIndex(ps, l.productoId);
    i.Some? && ps[i.value].stock >= l.cantidad
  }

  predicate AllInStock(ps: seq<Product>, cart: seq<CartLine>)
  {
    forall i :: 0 <= i < |cart| ==> LineInStock(ps, cart[i])
  }

  /** The first line that fails the checkout stock check. */
  function FirstShortLine(ps: seq<Product>, cart: seq<CartLine>): (r: Option<nat>)
    ensures r.None? <==> AllInStock(ps, cart)
    ensures r.Some? ==> r.value < |cart| && !LineInStock(ps, cart[r.value])
    ensures r.Some? ==> forall j :: 0 <= j < r.value ==> LineInStock(ps, cart[j])
  {
    FirstIndex(cart, (l: CartLine) => !LineInStock(ps, l))
  }

  /** The name in the shortage alert: `p?.descripcion || it.descripcion`. */
  function ShortageLabel(ps: seq<Product>, l: CartLine): (r: string)
    ensures ProductIndex(ps, l.productoId).None? ==> r == l.descripcion
    ensures ProductIndex(ps, l.productoId).Some? ==>
      var p := ps[ProductIndex(ps, l.productoId).value];
      r == (if p.descripcion != "" then p.descripcion else l.descripcion)
    ensures r == "" ==> l.descripcion == ""
  {
    match ProductIndex(ps, l.productoId)
    case Some(i) => if ps[i].descripcion != "" then ps[i].descripcion else l.descripcion
    case None => l.descripcion
  }

  /** `p.stock -= it.cantidad` on the first product with the line's id. */
  function Decrement(ps: seq<Product>, l: CartLine): seq<Product>
  {
    match ProductIndex(ps, l.productoId)
    case Some(i) => ps[i := ps[i].(stock := ps[i].stock - l.cantidad)]
    case None => ps
  }

  /** The catalog after taking the stock of `lines`, one line after the other. */
  function StockAfter(ps: seq<Product>, lines: seq<CartLine>): seq<Product>
    decreases |lines|
  {
    if lines == [] then ps
    else Decrement(StockAfter(ps, lines[..|lines| - 1]), lines[|lines| - 1])
  }

  /** Taking one more line's stock is one more `Decrement`. */
  lemma StockAfterStep(ps: seq<Product>, lines: seq<CartLine>, k: nat)
    requires k < |lines|
    ensures StockAfter(ps, lines[..k + 1]) == Decrement(StockAfter(ps, lines[..k]), lines[k])
  {
    assert lines[..k + 1][..k] == lines[..k];
  }

  /** `Decrement` of a line whose product sits at `i` lowers that product alone. */
  lemma DecrementAt(ps: seq<Product>, l: CartLine, i: nat)
    requires ProductIndex(ps, l.productoId) == Some(i)
    ensures Decrement(ps, l) == ps[i := ps[i].(stock := ps[i].stock - l.cantidad)]
  {
  }

  /** A product that passed the check is still found, by position, once stock has been taken. */
  lemma FoundAfterTaking(ps: seq<Product>, ps0: seq<Product>, l: CartLine)
    requires |ps| == |ps0| && forall i :: 0 <= i < |ps| ==> ps[i].id == ps0[i].id
    requires LineInStock(ps0, l)
    ensures ProductIndex(ps, l.productoId) == ProductIndex(ps0, l.productoId) && ProductIndex(ps, l.productoId).Some?
  {
    SameIdsSameIndex(ps, ps0, l.productoId);
  }

  /** Total quantity the lines ask of one product. */
  function Demand(lines: seq<CartLine>, pid: string): int
    decreases |lines|
  {
    if lines == [] then 0
    else
      var last := lines[|lines| - 1];
      Demand(lines[..|lines| - 1], pid) + (if last.productoId == pid then last.cantidad else 0)
  }

  /** Appending a line adds its quantity to its product's demand and nothing else. */
  lemma DemandAfterAppend(cart: seq<CartLine>, l: CartLine)
    ensures forall q :: Demand(cart + [l], q) == Demand(cart, q) + (if l.productoId == q then l.cantidad else 0)
  {
    assert (cart + [l])[..|cart|] == cart;
  }

  /** Replacing a line swaps its contribution to the demand for the new line's. */
  lemma {:induction false} DemandAfterSet(cart: seq<CartLine>, k: nat, l: CartLine)
    requires k < |cart|
    ensures forall q ::
      Demand(cart[k := l], q) == Demand(cart, q) - (if cart[k].productoId == q then cart[k].cantidad else 0) + (if l.productoId == q then l.cantidad else 0)
    decreases |cart|
  {
    var c := cart[k := l];
    var n := |cart| - 1;
    if k == n {
      assert c[..n] == cart[..n];
    } else {
      DemandAfterSet(cart[..n], k, l);
      assert c[..n] == cart[..n][k := l];
      assert c[n] == cart[n];
    }
  }

  /**
   * Taking stock changes nothing but stock, and lowers the stock of the first product
   * with each id by everything the lines ask of that id.
   */
  lemma {:induction false} StockAfterSpec(ps: seq<Product>, lines: seq<CartLine>)
    ensures |StockAfter(ps, lines)| == |ps|
    ensures forall i :: 0 <= i < |ps| ==>
      StockAfter(ps, lines)[i] ==
        ps[i].(stock := ps[i].stock - (if ProductIndex(ps, ps[i].id) == Some(i) then Demand(lines, ps[i].id) else 0))
    decreases |lines|
  {
    if lines != [] {
      var pre, l := lines[..|lines| - 1], lines[|lines| - 1];
      StockAfterSpec(ps, pre);
      var q := StockAfter(ps, pre);
      assert StockAfter(ps, lines) == Decrement(q, l);
      assert forall i :: 0 <= i < |ps| ==> q[i].id == ps[i].id;
      SameIdsSameIndex(q, ps, l.productoId);
      forall i | 0 <= i < |ps|
        ensures StockAfter(ps, lines)[i] ==
          ps[i].(stock := ps[i].stock - (if ProductIndex(ps, ps[i].id) == Some(i) then Demand(lines, ps[i].id) else 0))
      {
        assert Demand(lines, ps[i].id) == Demand(pre, ps[i].id) + (if l.productoId == ps[i].id then l.cantidad else 0);
        match ProductIndex(ps, l.productoId)
        case None =>
          assert l.productoId != ps[i].id;
        case Some(k) =>
          if k != i && l.productoId == ps[i].id {
            assert ProductIndex(ps, ps[i].id) != Some(i);
          }
      }
    }
  }

  /** With one line per product, what the cart asks of a product is that line's quantity. */
  lemma {:induction false} DemandOfOneLine(cart: seq<CartLine>, pid: string)
    requires DistinctBy(cart, LineProduct)
    ensures Demand(cart, pid) == match LineIndexByProduct(cart, pid) case Some(k) => cart[k].cantidad case None => 0
    decreases |cart|
  {
    if cart != [] {
      var pre, l := cart[..|cart| - 1], cart[|cart| - 1];
      assert DistinctBy(pre, LineProduct) by {
        forall i, j | 0 <= i < j < |pre| ensures LineProduct(pre[i]) != LineProduct(pre[j]) {
          assert pre[i] == cart[i] && pre[j] == cart[j];
        }
      }
      DemandOfOneLine(pre, pid);
      if l.productoId == pid {
        assert forall j :: 0 <= j < |pre| ==> pre[j].productoId != pid by {
          forall j | 0 <= j < |pre| ensures pre[j].productoId != pid {
            assert LineProduct(cart[j]) != LineProduct(cart[|cart| - 1]);
          }
        }
        assert LineIndexByProduct(cart, pid) == Some(|cart| - 1);
      } else {
        assert forall j :: 0 <= j < |pre| ==> pre[j] == cart[j];
        match LineIndexByProduct(pre, pid)
        case Some(k) =>
          assert LineIndexByProduct(cart, pid) == Some(k);
        case None =>
          assert LineIndexByProduct(cart, pid) == None;
      }
    }
  }

  /**
   * Checkout's stock rule: once every line passed the per-line check and the cart has one
   * line per product, each product in the cart loses exactly its line's quantity and stays
   * at or above zero, every product outside the cart is untouched, and no other field changes.
   */
  lemma CheckedCommitStock(ps: seq<Product>, cart: seq<CartLine>)
    requires DistinctBy(cart, LineProduct) && AllInStock(ps, cart)
    ensures |StockAfter(ps, cart)| == |ps|
    ensures forall i :: 0 <= i < |ps| ==> StockAfter(ps, cart)[i] == ps[i].(stock := StockAfter(ps, cart)[i].stock)
    ensures forall k :: 0 <= k < |cart| ==>
      var i := ProductIndex(ps, cart[k].productoId).value;
      StockAfter(ps, cart)[i].stock == ps[i].stock - cart[k].cantidad >= 0
    ensures forall i :: 0 <= i < |ps| && LineIndexByProduct(cart, ps[i].id).None? ==> StockAfter(ps, cart)[i] == ps[i]
    ensures forall i :: 0 <= i < |ps| && ps[i].stock >= 0 ==> StockAfter(ps, cart)[i].stock >= 0
  {
    StockAfterSpec(ps, cart);
    var after := StockAfter(ps, cart);
    forall k | 0 <= k < |cart|
      ensures var i := ProductIndex(ps, cart[k].productoId).value;
        after[i].stock == ps[i].stock - cart[k].cantidad >= 0
    {
      var i := ProductIndex(ps, cart[k].productoId).value;
      DemandOfOneLine(cart, cart[k].productoId);
      assert LineIndexByProduct(cart, cart[k].productoId) == Some(k) by {
        var m := LineIndexByProduct(cart, cart[k].productoId).value;
        assert !(m < k) && !(k < m) by {
          assert m != k ==> LineProduct(cart[m]) != LineProduct(cart[k]);
        }
      }
    }
    forall i | 0 <= i < |ps| && LineIndexByProduct(cart, ps[i].id).None?
      ensures after[i] == ps[i]
    {
      DemandOfOneLine(cart, ps[i].id);
    }
    forall i | 0 <= i < |ps| && ps[i].stock >= 0
      ensures after[i].stock >= 0
    {
      DemandOfOneLine(cart, ps[i].id);
      if ProductIndex(ps, ps[i].id) == Some(i) {
        match LineIndexByProduct(cart, ps[i].id)
        case Some(k) =>
          assert LineInStock(ps, cart[k]);
        case None =>
      }
    }
  }

  /**
   * Why checkout needs one line per product: two lines for a product with stock 5, each
   * asking 3, both pass the per-line check, and taking them leaves the stock at -1.
   */
  lemma DuplicateLinesOverdraw(p: Product)
    requires p.stock == 5
    ensures var cart := [CartLine("a", p.id, p.descripcion, p.precioVenta, 3), CartLine("b", p.id, p.descripcion, p.precioVenta, 3)];
      AllInStock([p], cart) && |StockAfter([p], cart)| == 1 && StockAfter([p], cart)[0].stock == -1
  {
    var cart := [CartLine("a", p.id, p.descripcion, p.precioVenta, 3), CartLine("b", p.id, p.descripcion, p.precioVenta, 3)];
    StockAfterSpec([p], cart);
    assert ProductIndex([p], p.id) == Some(0);
    assert Demand(cart, p.id) == 6 by {
      assert cart[..1] == [cart[0]];
      assert cart[..1][..0] == [];
      assert Demand(cart[..1], p.id) == 3;
    }
  }

  /** The sum of `precio * cantidad` over the cart, as `reduce` folds it. */
  function CartTotal(lines: seq<CartLine>): int
    decreases |lines|
  {
    if lines == [] then 0
    else CartTotal(lines[..|lines| - 1]) + lines[|lines| - 1].precio * lines[|lines| - 1].cantidad
  }

  /** The same sum over the items of a sale. */
  function ItemsTotal(items: seq<SaleItem>): int
    decreases |items|
  {
    if items == [] then 0
    else ItemsTotal(items[..|items| - 1]) + items[|items| - 1].precio * items[|items| - 1].cantidad
  }

  /** `Math.max(entregado - total, 0)`: the change is never negative and under-payment is accepted. */
  function Change(entregado: int, total: int): (r: int)
    ensures r >= 0 && r >= entregado - total
    ensures r == 0 || r == entregado - total
  {
    if entregado - total > 0 then entregado - total else 0
  }

  /** `selected || (cajeros[0] || 'Caja 1')`: the sale's cashier is never blank. */
  function ChooseCashier(selected: string, cajeros: seq<string>): (r: string)
    ensures r != ""
    ensures selected != "" ==> r == selected
    ensures selected == "" && |cajeros| > 0 && cajeros[0] != "" ==> r == cajeros[0]
    ensures selected == "" && (cajeros == [] || cajeros[0] == "") ==> r == DefaultCashier
  {
    if selected != "" then selected
    else if |cajeros| > 0 && cajeros[0] != "" then cajeros[0]
    else DefaultCashier
  }

  function ItemOf(l: CartLine): SaleItem
  {
    SaleItem(l.productoId, l.descripcion, l.precio, l.cantidad)
  }

  /** `state.cart.map(it => ({ productoId, descripcion, precio, cantidad }))`. */
  function Snapshot(cart: seq<CartLine>): seq<SaleItem>
  {
    seq(|cart|, i requires 0 <= i < |cart| => ItemOf(cart[i]))
  }

  /** A sale's items add up to the cart's total. */
  lemma {:induction false} SnapshotTotal(cart: seq<CartLine>)
    ensures ItemsTotal(Snapshot(cart)) == CartTotal(cart)
    decreases |cart|
  {
    if cart != [] {
      var pre := cart[..|cart| - 1];
      SnapshotTotal(pre);
      assert Snapshot(cart)[..|cart| - 1] == Snapshot(pre);
    }
  }

  /** The record `confirmarVenta` prepends to the history. */
  function CheckoutSale(id: string, fecha: int, clienteId: string, cajero: string, cart: seq<CartLine>, entregado: int): Sale
  {
    var total := CartTotal(cart);
    Sale(id, fecha, clienteId, cajero, Snapshot(cart), total, entregado, Change(entregado, total))
  }

  /** What every recorded sale satisfies: its total is its items' sum and its change follows from it. */
  ghost predicate SaleConsistent(v: Sale)
  {
    && v.total == ItemsTotal(v.items)
    && v.vuelto == Change(v.entregado, v.total)
    && forall i :: 0 <= i < |v.items| ==> v.items[i].cantidad >= 1
  }

  ghost predicate HistoryConsistent(ventas: seq<Sale>)
  {
    forall i :: 0 <= i < |ventas| ==> SaleConsistent(ventas[i])
  }

  /** A checkout of lines of at least one unit records a consistent sale: items mirror the lines and the change is never negative. */
  lemma CheckoutSaleConsistent(id: string, fecha: int, clienteId: string, cajero: string, cart: seq<CartLine>, entregado: int)
    requires QuantitiesPositive(cart)
    ensures var v := CheckoutSale(id, fecha, clienteId, cajero, cart, entregado);
      SaleConsistent(v) && |v.items| == |cart| && v.vuelto >= 0
      && forall i :: 0 <= i < |cart| ==>
        v.items[i] == SaleItem(cart[i].productoId, cart[i].descripcion, cart[i].precio, cart[i].cantidad)
  {
    SnapshotTotal(cart);
  }

  /**
   * What a confirmed checkout leaves behind, in the form the checkout handler states it: no
   * stock that was not negative becomes negative when the cart has one line per product, and
   * a consistent history stays consistent when every line asks for at least one unit.
   */
  lemma CheckoutKeeps(ps: seq<Product>, cart: seq<CartLine>, ventas: seq<Sale>,
                      id: string, fecha: int, clienteId: string, cajero: string, entregado: int)
    requires AllInStock(ps, cart)
    ensures DistinctBy(cart, LineProduct) ==>
      |StockAfter(ps, cart)| == |ps| &&
      forall i :: 0 <= i < |ps| && ps[i].stock >= 0 ==> StockAfter(ps, cart)[i].stock >= 0
    ensures HistoryConsistent(ventas) && QuantitiesPositive(cart) ==>
      HistoryConsistent([CheckoutSale(id, fecha, clienteId, cajero, cart, entregado)] + ventas)
  {
    if DistinctBy(cart, LineProduct) {
      CheckedCommitStock(ps, cart);
    }
    if HistoryConsistent(ventas) && QuantitiesPositive(cart) {
      CheckoutSaleConsistent(id, fecha, clienteId, cajero, cart, entregado);
    }
  }

  /** The implicit one-line cart of a quick sale: the product's current description and sale price. */
  function QuickLine(p: Product, qty: int): CartLine
  {
    CartLine("", p.id, p.descripcion, p.precioVenta, qty)
  }

  /** Taking a quick sale's stock lowers only the chosen product, by the quantity. */
  lemma {:induction false} QuickSaleStock(ps: seq<Product>, i: nat, qty: int)
    requires i < |ps| && ProductIndex(ps, ps[i].id) == Some(i)
    ensures StockAfter(ps, [QuickLine(ps[i], qty)]) == ps[i := ps[i].(stock := ps[i].stock - qty)]
  {
    var line := QuickLine(ps[i], qty);
    assert [line][..0] == [];
    assert ProductIndex(ps, line.productoId) == Some(i);
    assert Decrement(ps, line) == ps[i := ps[i].(stock := ps[i].stock - qty)];
    assert StockAfter(ps, [line]) == Decrement(StockAfter(ps, [line][..0]), line);
  }

  /**
   * A quick sale records what a checkout of its one-line cart paid exactly would record:
   * one item at the product's sale price, the total as payment and no change.
   */
  lemma QuickSaleRecord(p: Product, qty: int, id: string, fecha: int, clienteId: string, cajero: string)
    ensures var total := p.precioVenta * qty;
      CheckoutSale(id, fecha, clienteId, cajero, [QuickLine(p, qty)], total)
        == Sale(id, fecha, clienteId, cajero, [SaleItem(p.id, p.descripcion, p.precioVenta, qty)], total, total, 0)
  {
    var line := QuickLine(p, qty);
    assert [line][..0] == [];
    assert CartTotal([line]) == CartTotal([]) + p.precioVenta * qty;
    assert Snapshot([line]) == [ItemOf(line)];
  }
}
