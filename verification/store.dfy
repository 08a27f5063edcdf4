/**
 * The point-of-sale state (`state` in script.js) and the handlers that change it:
 * loading, catalog and customer edits, the cart, checkout, quick sale and the
 * settings. Each method does what its handler does to the state, with the form
 * values it reads, the fresh ids it draws and the clock it asks passed in as
 * parameters, and an alert returned as an error instead of shown.
 */
module PointOfSale {
  import opened Util
  import opened Text
  import opened Model
  import opened Catalog
  import opened Customers
  import opened Sales

  class Store {
    var productos: seq<Product>
    var clientes: seq<Customer>
    var ventas: seq<Sale>
    var settings: Settings
    var cart: seq<CartLine>

    /**
     * The cart's shape: one line per product, distinct line ids and positive quantities.
     * The cart handlers keep it; a cart loaded from storage need not have it.
     */
    ghost predicate Valid()
      reads this
    {
      CartWellFormed(cart)
    }

    /** The state before anything is loaded. */
    constructor ()
      ensures Valid()
      ensures productos == [] && clientes == [] && ventas == [] && cart == []
      ensures settings == Settings(DefaultStoreName, [DefaultCashier])
    {
      productos := [];
      clientes := [];
      ventas := [];
      settings := Settings(DefaultStoreName, [DefaultCashier]);
      cart := [];
    }

    /**
     * `loadState`: every top-level key of the stored document replaces the current one
     * (`Object.assign`), then the walk-in customer is guaranteed. `None` stands for no stored
     * document or one that does not parse, which leaves the state as it is. The stored cart is
     * taken as it is: one written by an imported file need not have one line per product.
     */
    method LoadState(stored: Option<Document>)
      modifies this
      ensures HasWalkIn(clientes)
      ensures stored.None? ==>
        (productos == old(productos) && ventas == old(ventas) && settings == old(settings)
         && cart == old(cart) && clientes == WithWalkIn(old(clientes)))
      ensures stored.Some? ==> var d := stored.value;
        && productos == (if d.productos.Some? then d.productos.value else old(productos))
        && ventas == (if d.ventas.Some? then d.ventas.value else old(ventas))
        && settings == (if d.settings.Some? then d.settings.value else old(settings))
        && cart == (if d.cart.Some? then d.cart.value else old(cart))
        && clientes == WithWalkIn(if d.clientes.Some? then d.clientes.value else old(clientes))
    {
      if stored.Some? {
        var d := stored.value;
        if d.productos.Some? { productos := d.productos.value; }
        if d.clientes.Some? { clientes := d.clientes.value; }
        if d.ventas.Some? { ventas := d.ventas.value; }
        if d.settings.Some? { settings := d.settings.value; }
        if d.cart.Some? { cart := d.cart.value; }
      }
      EnsureWalkIn();
    }

    /** The walk-in guard of `loadState`: prepend "Mostrador" unless a walk-in customer exists. */
    method EnsureWalkIn()
      modifies this
      ensures HasWalkIn(clientes)
      ensures clientes == WithWalkIn(old(clientes))
      ensures old(HasWalkIn(clientes)) ==> clientes == old(clientes)
      ensures !old(HasWalkIn(clientes)) ==> clientes == [WalkIn] + old(clientes)
      ensures productos == old(productos) && ventas == old(ventas) && settings == old(settings) && cart == old(cart)
    {
      if NeedsWalkIn(clientes) {
        clientes := [WalkIn] + clientes;
      }
      assert clientes == WithWalkIn(old(clientes));
    }

    // -------------------------------------------------------------------
    // Catalog and customers
    // -------------------------------------------------------------------

    /**
     * The product form's submit: the record gets the form's id or a fresh one, trimmed texts
     * and the parsed numbers; it replaces the first product with that id or is appended.
     */
    method SaveProduct(formId: string, freshId: string, codigo: string, descripcion: string,
                       precioCompra: int, precioVenta: int, stock: int, stockMin: int, imagen: string)
      requires formId == "" ==> freshId != "" && ProductIndex(productos, freshId).None?
      modifies this
      ensures var p := Product(if formId != "" then formId else freshId, Trim(codigo), Trim(descripcion),
                               precioCompra, precioVenta, stock, stockMin, Trim(imagen));
        match ProductIndex(old(productos), p.id)
        case Some(k) => productos == old(productos)[k := p]
        case None => productos == old(productos) + [p]
      ensures var id := if formId != "" then formId else freshId;
        ProductIndex(productos, id).Some? && productos[ProductIndex(productos, id).value].id == id
        && productos[ProductIndex(productos, id).value].descripcion == Trim(descripcion)
      ensures formId == "" ==> |productos| == |old(productos)| + 1
      ensures forall j :: 0 <= j < |old(productos)| && old(productos)[j].id != (if formId != "" then formId else freshId) ==>
        productos[j] == old(productos)[j]
      ensures DistinctBy(old(productos), ProductId) ==> DistinctBy(productos, ProductId)
      ensures clientes == old(clientes) && ventas == old(ventas) && settings == old(settings) && cart == old(cart)
    {
      var id := if formId != "" then formId else freshId;
      var p := Product(id, Trim(codigo), Trim(descripcion), precioCompra, precioVenta, stock, stockMin, Trim(imagen));
      var idx := ProductIndex(productos, id);
      if idx.Some? {
        IndexOfReplaced(productos, idx.value, p);
        productos := productos[idx.value := p];
      } else {
        productos := productos + [p];
        IndexOfAppended(old(productos), p);
      }
      assert DistinctBy(old(productos), ProductId) ==> DistinctBy(productos, ProductId) by {
        if DistinctBy(old(productos), ProductId) {
          forall i, j | 0 <= i < j < |productos| ensures ProductId(productos[i]) != ProductId(productos[j]) {
            if i < |old(productos)| && j < |old(productos)| {
              assert ProductId(old(productos)[i]) != ProductId(old(productos)[j]);
            }
          }
        }
      }
    }

    /** `deleteProducto` once confirmed: the first product with the id is spliced out. */
    method DeleteProduct(id: string)
      modifies this
      ensures match ProductIndex(old(productos), id)
        case Some(k) => productos == old(productos)[..k] + old(productos)[k + 1..]
        case None => productos == old(productos)
      ensures DistinctBy(old(productos), ProductId) ==> forall j :: 0 <= j < |productos| ==> productos[j].id != id
      ensures clientes == old(clientes) && ventas == old(ventas) && settings == old(settings) && cart == old(cart)
    {
      var idx := ProductIndex(productos, id);
      if idx.Some? {
        var k := idx.value;
        productos := productos[..k] + productos[k + 1..];
        assert DistinctBy(old(productos), ProductId) ==> forall j :: 0 <= j < |productos| ==> productos[j].id != id by {
          if DistinctBy(old(productos), ProductId) {
            forall j | 0 <= j < |productos| ensures productos[j].id != id {
              if j >= k {
                assert productos[j] == old(productos)[j + 1];
                assert ProductId(old(productos)[k]) != ProductId(old(productos)[j + 1]);
              }
            }
          }
        }
      }
    }

    /** The customer form's submit: replace the first customer with the id or append. */
    method SaveCustomer(formId: string, freshId: string, nombre: string, telefono: string)
      requires formId == "" ==> freshId != "" && CustomerIndex(clientes, freshId).None?
      modifies this
      ensures var c := Customer(if formId != "" then formId else freshId, Trim(nombre), Trim(telefono));
        match CustomerIndex(old(clientes), c.id)
        case Some(k) => clientes == old(clientes)[k := c]
        case None => clientes == old(clientes) + [c]
      ensures var id := if formId != "" then formId else freshId;
        CustomerIndex(clientes, id).Some? && clientes[CustomerIndex(clientes, id).value] == Customer(id, Trim(nombre), Trim(telefono))
      ensures forall j :: 0 <= j < |old(clientes)| && old(clientes)[j].id != (if formId != "" then formId else freshId) ==>
        clientes[j] == old(clientes)[j]
      ensures productos == old(productos) && ventas == old(ventas) && settings == old(settings) && cart == old(cart)
    {
      var id := if formId != "" then formId else freshId;
      var c := Customer(id, Trim(nombre), Trim(telefono));
      var idx := CustomerIndex(clientes, id);
      if idx.Some? {
        CustomerIndexOfReplaced(clientes, idx.value, c);
        clientes := clientes[idx.value := c];
      } else {
        clientes := clientes + [c];
        CustomerIndexOfAppended(old(clientes), c);
      }
    }

    /**
     * `deleteCliente` once confirmed: the first customer with the id is spliced out.
     * Nothing here protects the walk-in customer.
     */
    method DeleteCustomer(id: string)
      modifies this
      ensures match CustomerIndex(old(clientes), id)
        case Some(k) => clientes == old(clientes)[..k] + old(clientes)[k + 1..]
        case None => clientes == old(clientes)
      ensures productos == old(productos) && ventas == old(ventas) && settings == old(settings) && cart == old(cart)
    {
      var idx := CustomerIndex(clientes, id);
      if idx.Some? {
        clientes := clientes[..idx.value] + clientes[idx.value + 1..];
      }
    }

    // -------------------------------------------------------------------
    // Cart
    // -------------------------------------------------------------------

    /**
     * The "add to cart" button: the requested quantity raised to at least 1; no product or
     * too little stock for that quantity alone rejects; otherwise the quantity is added to the
     * product's line, or a new line copying description and sale price is appended.
     */
    method AddToCart(pid: string, requested: Option<int>, lineId: string) returns (res: Outcome)
      requires forall j :: 0 <= j < |cart| ==> cart[j].id != lineId
      modifies this
      ensures old(Valid()) ==> Valid()
      ensures productos == old(productos) && clientes == old(clientes) && ventas == old(ventas) && settings == old(settings)
      ensures var qty := QuantityFromInput(requested);
        match ProductIndex(productos, pid)
        case None => res == Fail(NoProductChosen) && cart == old(cart)
        case Some(i) =>
          if productos[i].stock < qty then res == Fail(NotEnoughStock) && cart == old(cart)
          else (res == Done &&
            match LineIndexByProduct(old(cart), pid)
            case Some(k) => cart == old(cart)[k := old(cart)[k].(cantidad := old(cart)[k].cantidad + qty)]
            case None => cart == old(cart) + [CartLine(lineId, pid, productos[i].descripcion, productos[i].precioVenta, qty)])
      ensures forall q :: Demand(cart, q) == Demand(old(cart), q) + (if res == Done && q == pid then QuantityFromInput(requested) else 0)
    {
      var qty := QuantityFromInput(requested);
      var idx := ProductIndex(productos, pid);
      if idx.None? {
        return Fail(NoProductChosen);
      }
      var p := productos[idx.value];
      if p.stock < qty {
        return Fail(NotEnoughStock);
      }
      var existing := LineIndexByProduct(cart, pid);
      if existing.Some? {
        var k := existing.value;
        var l := cart[k].(cantidad := cart[k].cantidad + qty);
        DemandAfterSet(cart, k, l);
        cart := cart[k := l];
        assert old(Valid()) ==> CartWellFormed(cart) by {
          if old(Valid()) {
            forall i, j | 0 <= i < j < |cart| ensures LineProduct(cart[i]) != LineProduct(cart[j]) && LineId(cart[i]) != LineId(cart[j]) {
              assert LineProduct(old(cart)[i]) != LineProduct(old(cart)[j]);
              assert LineId(old(cart)[i]) != LineId(old(cart)[j]);
            }
          }
        }
      } else {
        var l := CartLine(lineId, pid, p.descripcion, p.precioVenta, qty);
        DemandAfterAppend(cart, l);
        cart := cart + [l];
        assert old(Valid()) ==> CartWellFormed(cart) by {
          if old(Valid()) {
            forall i, j | 0 <= i < j < |cart| ensures LineProduct(cart[i]) != LineProduct(cart[j]) && LineId(cart[i]) != LineId(cart[j]) {
              if j < |old(cart)| {
                assert LineProduct(old(cart)[i]) != LineProduct(old(cart)[j]);
                assert LineId(old(cart)[i]) != LineId(old(cart)[j]);
              }
            }
          }
        }
      }
      res := Done;
    }

    /** A line's quantity input: the first line with the id gets the value raised to at least 1. */
    method SetQuantity(lineId: string, requested: Option<int>) returns (res: Outcome)
      modifies this
      ensures old(Valid()) ==> Valid()
      ensures productos == old(productos) && clientes == old(clientes) && ventas == old(ventas) && settings == old(settings)
      ensures match LineIndexById(old(cart), lineId)
        case None => res == Fail(LineNotFound) && cart == old(cart)
        case Some(k) => res == Done && cart == old(cart)[k := old(cart)[k].(cantidad := QuantityFromInput(requested))]
    {
      var idx := LineIndexById(cart, lineId);
      if idx.None? {
        return Fail(LineNotFound);
      }
      var k := idx.value;
      cart := cart[k := cart[k].(cantidad := QuantityFromInput(requested))];
      assert old(Valid()) ==> CartWellFormed(cart) by {
        if old(Valid()) {
          forall i, j | 0 <= i < j < |cart| ensures LineProduct(cart[i]) != LineProduct(cart[j]) && LineId(cart[i]) != LineId(cart[j]) {
            assert LineProduct(old(cart)[i]) != LineProduct(old(cart)[j]);
            assert LineId(old(cart)[i]) != LineId(old(cart)[j]);
          }
        }
      }
      res := Done;
    }

    /** A line's remove button: every line with the id is filtered out, the rest keep their order. */
    method RemoveLine(lineId: string)
      modifies this
      ensures old(Valid()) ==> Valid()
      ensures productos == old(productos) && clientes == old(clientes) && ventas == old(ventas) && settings == old(settings)
      ensures forall l :: l in cart <==> l in old(cart) && l.id != lineId
      ensures forall l :: multiset(cart)[l] == if l.id != lineId then multiset(old(cart))[l] else 0
      ensures SubsequenceOf(cart, old(cart))
    {
      var keep := (l: CartLine) => l.id != lineId;
      if Valid() {
        FilterKeepsDistinct(cart, keep, LineProduct);
        FilterKeepsDistinct(cart, keep, LineId);
      }
      FilterCount(cart, keep);
      cart := Filter(cart, keep);
      assert forall i :: 0 <= i < |cart| ==> cart[i] in old(cart);
    }

    // -------------------------------------------------------------------
    // Checkout
    // -------------------------------------------------------------------

    /** Checkout's first loop: the position of the first line the current stock cannot cover. */
    method FindShortLine() returns (short: Option<nat>)
      ensures short == FirstShortLine(productos, cart)
    {
      var k := 0;
      while k < |cart|
        invariant 0 <= k <= |cart|
        invariant forall j :: 0 <= j < k ==> LineInStock(productos, cart[j])
      {
        var it := cart[k];
        var idx := ProductIndex(productos, it.productoId);
        if idx.None? || productos[idx.value].stock < it.cantidad {
          assert !LineInStock(productos, cart[k]);
          ghost var f := FirstShortLine(productos, cart);
          assert f.Some? && !(f.value < k) && !(k < f.value);
          return Some(k);
        }
        k := k + 1;
      }
      return None;
    }

    /** Checkout's second loop: `p.stock -= it.cantidad` for every line, in cart order. */
    method TakeStock()
      requires AllInStock(productos, cart)
      modifies this
      ensures productos == StockAfter(old(productos), cart)
      ensures |productos| == |old(productos)|
      ensures clientes == old(clientes) && ventas == old(ventas) && settings == old(settings) && cart == old(cart)
    {
      var ps, lines := productos, cart;
      ghost var ps0 := ps;
      var k := 0;
      while k < |lines|
        invariant 0 <= k <= |lines|
        invariant ps == StockAfter(ps0, lines[..k])
        invariant |ps| == |ps0| && forall i :: 0 <= i < |ps| ==> ps[i].id == ps0[i].id
        modifies {}
      {
        var it := lines[k];
        assert LineInStock(ps0, it);
        FoundAfterTaking(ps, ps0, it);
        var i := ProductIndex(ps, it.productoId).value;
        StockAfterStep(ps0, lines, k);
        DecrementAt(ps, it, i);
        ps := ps[i := ps[i].(stock := ps[i].stock - it.cantidad)];
        k := k + 1;
      }
      assert lines[..k] == lines;
      productos := ps;
    }

    /**
     * `confirmarVenta`. An empty cart is rejected. Every line is checked against the current
     * stock before anything changes, and the first short line rejects the whole sale. Then the
     * stock of every line is taken, the sale with the lines' snapshot, the total and the
     * clamped change is put first in the history, and the cart is emptied.
     */
    method ConfirmSale(saleId: string, fecha: int, clienteId: string, cajeroSel: string, entregado: int)
      returns (res: Result<Sale>)
      modifies this
      ensures old(Valid()) ==> Valid()
      ensures clientes == old(clientes) && settings == old(settings)
      ensures old(cart) == [] ==>
        res == Err(EmptyCart) && productos == old(productos) && ventas == old(ventas) && cart == old(cart)
      ensures old(cart) != [] && FirstShortLine(old(productos), old(cart)).Some? ==>
        var k := FirstShortLine(old(productos), old(cart)).value;
        res == Err(InsufficientStockFor(ShortageLabel(old(productos), old(cart)[k])))
        && productos == old(productos) && ventas == old(ventas) && cart == old(cart)
      ensures old(cart) != [] && AllInStock(old(productos), old(cart)) ==>
        && res == Ok(CheckoutSale(saleId, fecha, clienteId, ChooseCashier(cajeroSel, settings.cajeros), old(cart), entregado))
        && productos == StockAfter(old(productos), old(cart))
        && ventas == [res.value] + old(ventas)
        && cart == []
      ensures |productos| == |old(productos)|
      ensures res.Ok? && DistinctBy(old(cart), LineProduct) ==>
        forall i :: 0 <= i < |productos| && old(productos)[i].stock >= 0 ==> productos[i].stock >= 0
      ensures HistoryConsistent(old(ventas)) && QuantitiesPositive(old(cart)) ==> HistoryConsistent(ventas)
    {
      if cart == [] {
        return Err(EmptyCart);
      }
      var short := FindShortLine();
      if short.Some? {
        return Err(InsufficientStockFor(ShortageLabel(productos, cart[short.value])));
      }
      var sale := RecordSale(saleId, fecha, clienteId, cajeroSel, entregado);
      res := Ok(sale);
    }

    /**
     * Checkout once every line passed the check: the stock of every line is taken, the sale
     * with the lines' snapshot, the total and the clamped change is put first in the history,
     * and the cart is emptied.
     */
    method RecordSale(saleId: string, fecha: int, clienteId: string, cajeroSel: string, entregado: int)
      returns (sale: Sale)
      requires AllInStock(productos, cart)
      modifies this
      ensures sale == CheckoutSale(saleId, fecha, clienteId, ChooseCashier(cajeroSel, settings.cajeros), old(cart), entregado)
      ensures productos == StockAfter(old(productos), old(cart)) && |productos| == |old(productos)|
      ensures ventas == [sale] + old(ventas) && cart == []
      ensures clientes == old(clientes) && settings == old(settings)
      ensures DistinctBy(old(cart), LineProduct) ==>
        forall i :: 0 <= i < |productos| && old(productos)[i].stock >= 0 ==> productos[i].stock >= 0
      ensures HistoryConsistent(old(ventas)) && QuantitiesPositive(old(cart)) ==> HistoryConsistent(ventas)
    {
      var cajero := ChooseCashier(cajeroSel, settings.cajeros);
      CheckoutKeeps(productos, cart, ventas, saleId, fecha, clienteId, cajero, entregado);
      TakeStock();
      var total := CartTotal(cart);
      sale := Sale(saleId, fecha, clienteId, cajero, Snapshot(cart), total, entregado, Change(entregado, total));
      ventas := [sale] + ventas;
      cart := [];
    }

    /**
     * The quick-sale form: the requested quantity raised to at least 1; no product or too
     * little stock rejects; otherwise the product's stock drops by the quantity and a one-item
     * sale, paid exactly, is put first in the history. The cart is not touched.
     */
    method QuickSale(pid: string, requested: Option<int>, saleId: string, fecha: int, clienteId: string, cajeroSel: string)
      returns (res: Result<Sale>)
      modifies this
      ensures clientes == old(clientes) && settings == old(settings) && cart == old(cart)
      ensures var qty := QuantityFromInput(requested);
        match ProductIndex(old(productos), pid)
        case None => res == Err(NoProductChosen) && productos == old(productos) && ventas == old(ventas)
        case Some(i) =>
          if old(productos)[i].stock < qty then
            res == Err(NotEnoughStock) && productos == old(productos) && ventas == old(ventas)
          else
            && productos == StockAfter(old(productos), [QuickLine(old(productos)[i], qty)])
            && productos == old(productos)[i := old(productos)[i].(stock := old(productos)[i].stock - qty)]
            && productos[i].stock >= 0
            && res == Ok(CheckoutSale(saleId, fecha, clienteId, ChooseCashier(cajeroSel, settings.cajeros),
                                      [QuickLine(old(productos)[i], qty)], old(productos)[i].precioVenta * qty))
            && res.value.vuelto == 0 && res.value.entregado == res.value.total
            && ventas == [res.value] + old(ventas)
      ensures HistoryConsistent(old(ventas)) ==> HistoryConsistent(ventas)
    {
      var qty := QuantityFromInput(requested);
      var idx := ProductIndex(productos, pid);
      if idx.None? {
        return Err(NoProductChosen);
      }
      var i := idx.value;
      var p := productos[i];
      if p.stock < qty {
        return Err(NotEnoughStock);
      }
      QuickSaleStock(productos, i, qty);
      productos := productos[i := p.(stock := p.stock - qty)];
      var total := p.precioVenta * qty;
      var sale := Sale(saleId, fecha, clienteId, ChooseCashier(cajeroSel, settings.cajeros),
                       [SaleItem(p.id, p.descripcion, p.precioVenta, qty)], total, total, 0);
      QuickSaleRecord(p, qty, saleId, fecha, clienteId, ChooseCashier(cajeroSel, settings.cajeros));
      CheckoutSaleConsistent(saleId, fecha, clienteId, ChooseCashier(cajeroSel, settings.cajeros), [QuickLine(p, qty)], total);
      ventas := [sale] + ventas;
      res := Ok(sale);
    }

    // -------------------------------------------------------------------
    // Settings
    // -------------------------------------------------------------------

    /**
     * Both "add cashier" buttons: the trimmed name is appended unless it is blank or already
     * listed.
     */
    method AddCashier(input: string)
      modifies this
      ensures var name := Trim(input);
        settings == old(settings).(cajeros := if name == "" || name in old(settings.cajeros) then old(settings.cajeros)
                                              else old(settings.cajeros) + [name])
      ensures Trim(input) != "" ==> Trim(input) in settings.cajeros
      ensures forall c :: c in settings.cajeros <==> c in old(settings.cajeros) || (c == Trim(input) && c != "")
      ensures Distinct(old(settings.cajeros)) ==> Distinct(settings.cajeros)
      ensures productos == old(productos) && clientes == old(clientes) && ventas == old(ventas) && cart == old(cart)
    {
      var name := Trim(input);
      if name == "" {
        return;
      }
      if name !in settings.cajeros {
        settings := settings.(cajeros := settings.cajeros + [name]);
      }
    }

    /** Saving the settings: the trimmed store name, or "Mi Almacén" when it is blank. */
    method SetStoreName(input: string)
      modifies this
      ensures settings.cajeros == old(settings.cajeros)
      ensures settings.storeName != ""
      ensures Trim(input) != "" ==> settings.storeName == Trim(input)
      ensures Trim(input) == "" ==> settings.storeName == DefaultStoreName
      ensures productos == old(productos) && clientes == old(clientes) && ventas == old(ventas) && cart == old(cart)
    {
      var name := Trim(input);
      settings := settings.(storeName := if name != "" then name else DefaultStoreName);
    }
  }
}
