/**
 * The read-only views over the sales history: the report's date-range filter,
 * the dashboard's day and month windows and the month's best-selling product.
 * Instants are milliseconds; a calendar day or month is given by the instants
 * of its first local midnight and of the next one, so no clock or time zone
 * enters the model.
 */
module Reports {
  import opened Util
  import opened Model

  /** A calendar day or month: `start` is its first local midnight, `next` the one after it. */
  datatype Period = Period(start: int, next: int)

  /** The sale's instant lies within the optional inclusive bounds. */
  predicate InRange(v: Sale, start: Option<int>, end: Option<int>)
  {
    (start.None? || v.fecha >= start.value) && (end.None? || v.fecha <= end.value)
  }

  /**
   * The filter the report and the dashboard share: the sales between two inclusive bounds,
   * a missing bound leaving that side open, in history order.
   */
  function SalesBetween(ventas: seq<Sale>, start: Option<int>, end: Option<int>): (r: seq<Sale>)
    ensures forall v :: v in r <==> v in ventas && InRange(v, start, end)
    ensures forall v :: multiset(r)[v] == if InRange(v, start, end) then multiset(ventas)[v] else 0
    ensures SubsequenceOf(r, ventas)
    ensures start.None? && end.None? ==> r == ventas
  {
    var keep := (v: Sale) => InRange(v, start, end);
    var r := Filter(ventas, keep);
    FilterCount(ventas, keep);
    assert start.None? && end.None? ==> r == ventas by {
      if start.None? && end.None? {
        FilterAll(ventas, keep);
      }
    }
    r
  }

  /** One second: `T23:59:59` is this long before the next midnight. */
  const SecondMs: int := 1000

  /**
   * `filtrarVentasPorFecha` as written: from the first midnight of `desde` up to
   * `hasta` at 23:59:59.000, so the last second of `hasta` is left out.
   */
  function SalesByDateAsWritten(ventas: seq<Sale>, desde: Option<Period>, hasta: Option<Period>): (r: seq<Sale>)
    ensures forall v :: v in r <==>
      (v in ventas && (desde.None? || v.fecha >= desde.value.start) && (hasta.None? || v.fecha <= hasta.value.next - SecondMs))
    ensures forall v :: (multiset(r)[v] ==
      if (desde.None? || v.fecha >= desde.value.start) && (hasta.None? || v.fecha <= hasta.value.next - SecondMs)
      then multiset(ventas)[v] else 0)
    ensures SubsequenceOf(r, ventas)
  {
    SalesBetween(ventas,
      if desde.Some? then Some(desde.value.start) else None,
      if hasta.Some? then Some(hasta.value.next - SecondMs) else None)
  }

  /**
   * The report's filter as the dashboard draws a day: from the first midnight of `desde`
   * through the last millisecond of `hasta`.
   */
  function SalesByDate(ventas: seq<Sale>, desde: Option<Period>, hasta: Option<Period>): (r: seq<Sale>)
    ensures forall v :: v in r <==>
      (v in ventas && (desde.None? || v.fecha >= desde.value.start) && (hasta.None? || v.fecha < hasta.value.next))
    ensures forall v :: (multiset(r)[v] ==
      if (desde.None? || v.fecha >= desde.value.start) && (hasta.None? || v.fecha < hasta.value.next)
      then multiset(ventas)[v] else 0)
    ensures SubsequenceOf(r, ventas)
  {
    SalesBetween(ventas,
      if desde.Some? then Some(desde.value.start) else None,
      if hasta.Some? then Some(hasta.value.next - 1) else None)
  }

  /**
   * `ventasDelDia` and `ventasDelMes`: the sales from the period's first midnight to one
   * millisecond before the next one (`setHours(23,59,59,999)`, `setMilliseconds(-1)`).
   */
  function SalesIn(ventas: seq<Sale>, p: Period): (r: seq<Sale>)
    ensures forall v :: v in r <==> v in ventas && p.start <= v.fecha < p.next
    ensures forall v :: multiset(r)[v] == if p.start <= v.fecha < p.next then multiset(ventas)[v] else 0
    ensures SubsequenceOf(r, ventas)
  {
    SalesBetween(ventas, Some(p.start), Some(p.next - 1))
  }

  /** The corrected report over a single day lists exactly the dashboard's sales of that day. */
  lemma OneDayReportIsDay(ventas: seq<Sale>, d: Period)
    ensures SalesByDate(ventas, Some(d), Some(d)) == SalesIn(ventas, d)
  {
  }

  /**
   * The report as written drops a sale made half a second before midnight of its last day,
   * which the dashboard counts as a sale of that day.
   */
  lemma LastSecondDropped(v: Sale, d: Period)
    requires d.next - d.start >= SecondMs && v.fecha == d.next - 500
    ensures v in SalesIn([v], d)
    ensures v !in SalesByDateAsWritten([v], Some(d), Some(d))
    ensures v in SalesByDate([v], Some(d), Some(d))
  {
  }

  // ---------------------------------------------------------------------
  // Best-selling product of the month
  // ---------------------------------------------------------------------

  /** One entry of the per-description tally (a `Map` entry). */
  datatype Entry = Entry(descripcion: string, cantidad: int)

  function EntryKey(e: Entry): string { e.descripcion }

  /** Every item of every sale, sale after sale, as the nested `forEach` visits them. */
  function ItemsOf(vs: seq<Sale>): seq<SaleItem>
  {
    if vs == [] then [] else vs[0].items + ItemsOf(vs[1..])
  }

  /** `map.get(d)`, as a position in insertion order. */
  function EntryIndex(t: seq<Entry>, d: string): (r: Option<nat>)
    ensures r.Some? ==> r.value < |t| && t[r.value].descripcion == d
    ensures r.None? <==> forall j :: 0 <= j < |t| ==> t[j].descripcion != d
  {
    FirstIndex(t, (e: Entry) => e.descripcion == d)
  }

  /** `map.set(d, (map.get(d) || 0) + q)`: an existing key keeps its place, a new one goes last. */
  function Bump(t: seq<Entry>, d: string, q: int): seq<Entry>
  {
    match EntryIndex(t, d)
    case Some(j) => t[j := Entry(d, t[j].cantidad + q)]
    case None => t + [Entry(d, q)]
  }

  /** The tally after visiting `items` in order. */
  function Tally(items: seq<SaleItem>): seq<Entry>
    decreases |items|
  {
    if items == [] then []
    else
      var last := items[|items| - 1];
      Bump(Tally(items[..|items| - 1]), last.descripcion, last.cantidad)
  }

  /** The reference count: the total quantity sold under a description. */
  function QtyOf(items: seq<SaleItem>, d: string): int
    decreases |items|
  {
    if items == [] then 0
    else
      var last := items[|items| - 1];
      QtyOf(items[..|items| - 1], d) + (if last.descripcion == d then last.cantidad else 0)
  }

  /**
   * The tally is a faithful map: one entry per description, each holding the total quantity
   * sold under it, and descriptions without an entry were not sold at all.
   */
  lemma {:induction false} TallySpec(items: seq<SaleItem>)
    ensures DistinctBy(Tally(items), EntryKey)
    ensures forall j :: 0 <= j < |Tally(items)| ==> Tally(items)[j].cantidad == QtyOf(items, Tally(items)[j].descripcion)
    ensures forall d :: EntryIndex(Tally(items), d).None? ==> QtyOf(items, d) == 0
    decreases |items|
  {
    if items != [] {
      var pre, last := items[..|items| - 1], items[|items| - 1];
      TallySpec(pre);
      var t := Tally(pre);
      var d := last.descripcion;
      assert Tally(items) == Bump(t, d, last.cantidad);
      match EntryIndex(t, d)
      case Some(k) =>
        var u := t[k := Entry(d, t[k].cantidad + last.cantidad)];
        assert Tally(items) == u;
        forall i, j | 0 <= i < j < |u| ensures EntryKey(u[i]) != EntryKey(u[j]) {
          assert EntryKey(t[i]) != EntryKey(t[j]);
        }
        forall j | 0 <= j < |u| ensures u[j].cantidad == QtyOf(items, u[j].descripcion) {
          if j != k {
            assert EntryKey(t[j]) != EntryKey(t[k]);
          }
        }
        forall e | EntryIndex(u, e).None? ensures QtyOf(items, e) == 0 {
          assert u[k].descripcion != e;
          assert forall j :: 0 <= j < |t| && j != k ==> t[j] == u[j];
        }
      case None =>
        var u := t + [Entry(d, last.cantidad)];
        assert Tally(items) == u;
        assert QtyOf(pre, d) == 0;
        forall j | 0 <= j < |u| ensures u[j].cantidad == QtyOf(items, u[j].descripcion) {
          if j < |t| {
            assert u[j] == t[j];
          }
        }
        forall e | EntryIndex(u, e).None? ensures QtyOf(items, e) == 0 {
          assert u[|t|].descripcion != e;
          assert forall j :: 0 <= j < |t| ==> t[j] == u[j];
        }
    }
  }

  /**
   * The `for ... of map.entries()` loop keeping `max` (from 0) and the first entry that
   * strictly beats it: the result holds a positive maximum, and it is the first entry to
   * reach it; there is none when no entry is positive.
   */
  function PickTop(t: seq<Entry>): (r: Option<nat>)
    ensures r.None? <==> forall j :: 0 <= j < |t| ==> t[j].cantidad <= 0
    ensures r.Some? ==> r.value < |t| && t[r.value].cantidad > 0
    ensures r.Some? ==> forall j :: 0 <= j < |t| ==> t[j].cantidad <= t[r.value].cantidad
    ensures r.Some? ==> forall j :: 0 <= j < r.value ==> t[j].cantidad < t[r.value].cantidad
    decreases |t|
  {
    if t == [] then None
    else
      var before := PickTop(t[..|t| - 1]);
      var max := if before.Some? then t[before.value].cantidad else 0;
      if t[|t| - 1].cantidad > max then Some(|t| - 1) else before
  }

  /** `productoTopDelMes`: the description sold most in the month's sales, with its quantity. */
  function TopProduct(ventas: seq<Sale>, month: Period): Option<Entry>
  {
    var t := Tally(ItemsOf(SalesIn(ventas, month)));
    match PickTop(t)
    case Some(k) => Some(t[k])
    case None => None
  }

  /**
   * The dashboard's top product is a best seller of the month: nothing sold more under any
   * description; when there is no top product, no description sold a positive quantity.
   */
  lemma TopProductIsBestSeller(ventas: seq<Sale>, month: Period)
    ensures var items := ItemsOf(SalesIn(ventas, month));
      match TopProduct(ventas, month)
      case Some(e) =>
        e.cantidad > 0 && e.cantidad == QtyOf(items, e.descripcion)
        && forall d :: QtyOf(items, d) <= e.cantidad
      case None =>
        forall d :: QtyOf(items, d) <= 0
  {
    var items := ItemsOf(SalesIn(ventas, month));
    var t := Tally(items);
    TallySpec(items);
    forall d ensures QtyOf(items, d) <= 0 || (PickTop(t).Some? && QtyOf(items, d) <= t[PickTop(t).value].cantidad) {
      match EntryIndex(t, d)
      case Some(j) =>
        assert QtyOf(items, d) == t[j].cantidad;
      case None =>
    }
  }
}
