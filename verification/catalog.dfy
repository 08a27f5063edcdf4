/**
 * Read-only queries over the product catalog: lookup by id, the product
 * table's text filter and its column comparator, the sales screen's
 * suggestion search and the dashboard's critical-stock list.
 */
module Catalog {
  import opened Util
  import opened Text
  import opened Model

  function ProductId(p: Product): string { p.id }

  /** `state.productos.findIndex(p => p.id === id)`. */
  function ProductIndex(ps: seq<Product>, id: string): (r: Option<nat>)
    ensures r.Some? ==> r.value < |ps| && ps[r.value].id == id
    ensures r.Some? ==> forall j :: 0 <= j < r.value ==> ps[j].id != id
    ensures r.None? <==> forall j :: 0 <= j < |ps| ==> ps[j].id != id
  {
    FirstIndex(ps, (p: Product) => p.id == id)
  }

  /** An appended product whose id was absent is found at the end. */
  lemma IndexOfAppended(ps: seq<Product>, p: Product)
    requires ProductIndex(ps, p.id).None?
    ensures ProductIndex(ps + [p], p.id) == Some(|ps|)
  {
    var r := ProductIndex(ps + [p], p.id);
    assert (ps + [p])[|ps|].id == p.id;
    assert forall j :: 0 <= j < |ps| ==> (ps + [p])[j].id != p.id;
  }

  /** A product replaced by a record with the same id is still the one found. */
  lemma IndexOfReplaced(ps: seq<Product>, k: nat, p: Product)
    requires ProductIndex(ps, p.id) == Some(k)
    ensures ProductIndex(ps[k := p], p.id) == Some(k)
  {
    var q := ps[k := p];
    assert q[k].id == p.id;
    assert forall j :: 0 <= j < k ==> q[j] == ps[j];
  }

  /** Lookups only look at ids: two catalogs with the same ids position by position answer alike. */
  lemma SameIdsSameIndex(ps: seq<Product>, qs: seq<Product>, id: string)
    requires |ps| == |qs| && forall i :: 0 <= i < |ps| ==> ps[i].id == qs[i].id
    ensures ProductIndex(ps, id) == ProductIndex(qs, id)
  {
    var a, b := ProductIndex(ps, id), ProductIndex(qs, id);
    if a.Some? && b.Some? {
      assert !(a.value < b.value) && !(b.value < a.value);
    }
  }

  /** The text test shared by the table filter and the suggestion search: a non-empty description or code containing `t`. */
  predicate MatchesTerm(p: Product, t: string)
  {
    (p.descripcion != "" && Includes(Lower(p.descripcion), t)) || (p.codigo != "" && Includes(Lower(p.codigo), t))
  }

  /** `MatchesTerm` with the text fixed, as the callback handed to `filter`. */
  function Matcher(t: string): Product -> bool
  {
    (p: Product) => MatchesTerm(p, t)
  }

  /** The product table's filter: everything for an empty filter, else the matches of its lower-cased text. */
  function FilterProducts(ps: seq<Product>, filtro: string): (r: seq<Product>)
    ensures filtro == "" ==> r == ps
    ensures filtro != "" ==> forall p :: p in r <==> p in ps && MatchesTerm(p, Lower(filtro))
    ensures filtro != "" ==> forall p :: multiset(r)[p] == if MatchesTerm(p, Lower(filtro)) then multiset(ps)[p] else 0
    ensures SubsequenceOf(r, ps)
  {
    if filtro == "" then
      assert SubsequenceOf(ps, ps) by { Reflexive(ps); }
      ps
    else
      FilterCount(ps, Matcher(Lower(filtro)));
      Filter(ps, Matcher(Lower(filtro)))
  }

  /** At most this many suggestions are offered. */
  const SuggestionLimit: nat := 20

  /**
   * `buscarProductos`: the first matches of the trimmed, lower-cased term, in catalog order;
   * nothing for a blank term; every match when there are fewer than the limit.
   */
  function SearchProducts(ps: seq<Product>, term: string): (r: seq<Product>)
    ensures |r| <= SuggestionLimit
    ensures Trim(term) == [] ==> r == []
    ensures forall p :: p in r ==> p in ps && MatchesTerm(p, Lower(Trim(term)))
    ensures Trim(term) != [] && |r| < SuggestionLimit ==>
      forall p :: p in ps && MatchesTerm(p, Lower(Trim(term))) ==> p in r
    ensures Trim(term) != [] && |r| < SuggestionLimit ==>
      forall p :: multiset(r)[p] == if MatchesTerm(p, Lower(Trim(term))) then multiset(ps)[p] else 0
    ensures multiset(r) <= multiset(ps)
    ensures SubsequenceOf(r, ps)
  {
    var t := Lower(Trim(term));
    if t == [] then []
    else
      var found := Filter(ps, Matcher(t));
      FilterCount(ps, Matcher(t));
      assert multiset(found) <= multiset(ps);
      if |found| <= SuggestionLimit then found
      else
        assert SubsequenceOf(found[..SuggestionLimit], ps) by {
          SubsequencePrefix(found, ps, SuggestionLimit);
        }
        assert forall p :: p in found[..SuggestionLimit] ==> p in found;
        assert multiset(found[..SuggestionLimit]) <= multiset(found) by {
          assert found == found[..SuggestionLimit] + found[SuggestionLimit..];
        }
        found[..SuggestionLimit]
  }

  /**
   * The suggestions are the first matches for any catalog: what filtering some prefix of the
   * catalog keeps. With `SearchProducts`'s own contract, that prefix holds every match when
   * fewer than the limit come back, and the first `SuggestionLimit` matches otherwise.
   */
  lemma SearchIsMatchesOfAPrefix(ps: seq<Product>, term: string)
    requires Trim(term) != []
    ensures exists k :: 0 <= k <= |ps| && SearchProducts(ps, term) == Filter(ps[..k], Matcher(Lower(Trim(term))))
  {
    var t := Lower(Trim(term));
    var r := SearchProducts(ps, term);
    var found := Filter(ps, Matcher(t));
    assert r == found[..|r|];
    FilterPrefixes(ps, Matcher(t), |r|);
  }

  /**
   * The suggestions are the first matches: in a catalog without two identical records, no
   * match comes before a suggestion without being a suggestion itself.
   */
  lemma SearchKeepsFirstMatches(ps: seq<Product>, term: string)
    requires Distinct(ps)
    ensures forall i, j :: 0 <= i < j < |ps| && ps[j] in SearchProducts(ps, term) && MatchesTerm(ps[i], Lower(Trim(term))) ==>
      ps[i] in SearchProducts(ps, term)
  {
    var t := Lower(Trim(term));
    var r := SearchProducts(ps, term);
    if t != [] {
      var found := Filter(ps, Matcher(t));
      assert r == found[..|r|];
      forall i, j | 0 <= i < j < |ps| && ps[j] in r && MatchesTerm(ps[i], t) ensures ps[i] in r {
        assert Matcher(t)(ps[i]);
        FilterPrefixClosed(ps, Matcher(t), |r|, i, j);
      }
    }
  }

  /** The dashboard's critical-stock list: products at or below their minimum, in catalog order. */
  function CriticalStock(ps: seq<Product>): (r: seq<Product>)
    ensures forall p :: p in r <==> p in ps && p.stock <= p.stockMin
    ensures forall p :: multiset(r)[p] == if p.stock <= p.stockMin then multiset(ps)[p] else 0
    ensures SubsequenceOf(r, ps)
  {
    var keep := (p: Product) => p.stock <= p.stockMin;
    FilterCount(ps, keep);
    Filter(ps, keep)
  }

  // ---------------------------------------------------------------------
  // Column ordering of the product table
  // ---------------------------------------------------------------------

  datatype SortKey = ByCodigo | ByDescripcion | ByImagen | ByPrecioCompra | ByPrecioVenta | ByStock | ByStockMin
  datatype SortDir = Asc | Desc

  /**
   * The comparator as written for a text column: numeric difference when `Number` of both
   * values is finite, otherwise the order of the lower-cased strings.
   */
  function CompareText(a: string, b: string): int
  {
    var na, nb := NumberValue(a), NumberValue(b);
    if na.Some? && nb.Some? then na.value - nb.value else StrOrder(Lower(a), Lower(b))
  }

  function Oriented(v: int, dir: SortDir): int
  {
    if dir == Asc then v else -v
  }

  /** The comparator handed to `list.sort` for a column and a direction, as written. */
  function CompareProducts(a: Product, b: Product, key: SortKey, dir: SortDir): int
  {
    Oriented(
      match key
      case ByCodigo => CompareText(a.codigo, b.codigo)
      case ByDescripcion => CompareText(a.descripcion, b.descripcion)
      case ByImagen => CompareText(a.imagen, b.imagen)
      case ByPrecioCompra => a.precioCompra - b.precioCompra
      case ByPrecioVenta => a.precioVenta - b.precioVenta
      case ByStock => a.stock - b.stock
      case ByStockMin => a.stockMin - b.stockMin,
      dir)
  }

  lemma StrOrderAntisymmetric(a: string, b: string)
    ensures StrOrder(a, b) == -StrOrder(b, a)
  {
    LexLessTrichotomy(a, b);
  }

  /** Swapping the operands negates the comparison, in every column and direction. */
  lemma CompareProductsAntisymmetric(a: Product, b: Product, key: SortKey, dir: SortDir)
    ensures CompareProducts(a, b, key, dir) == -CompareProducts(b, a, key, dir)
  {
    StrOrderAntisymmetric(Lower(a.codigo), Lower(b.codigo));
    StrOrderAntisymmetric(Lower(a.descripcion), Lower(b.descripcion));
    StrOrderAntisymmetric(Lower(a.imagen), Lower(b.imagen));
  }

  /**
   * The comparator as written is not transitive once numeric and non-numeric texts meet:
   * "9" sorts before "10" (numerically), "10" before "1a" and "1a" before "9" (as strings).
   */
  lemma CompareTextCycle()
    ensures CompareText("9", "10") < 0 && CompareText("10", "1a") < 0 && CompareText("1a", "9") < 0
  {
    NineBeforeTen();
    TenBeforeOneA();
    OneABeforeNine();
  }

  lemma NineBeforeTen()
    ensures CompareText("9", "10") < 0
  {
    NumbersOfCycle();
  }

  lemma TenBeforeOneA()
    ensures CompareText("10", "1a") < 0
  {
    OneAIsNotANumber();
    CompareTextAsStrings("10", "1a");
    LowerOfCycle();
    TenBeforeOneAAsStrings();
  }

  lemma TenBeforeOneAAsStrings()
    ensures LexLess("10", "1a")
  {
    assert "10"[1..] == "0" && "1a"[1..] == "a";
  }

  lemma OneAIsNotANumber()
    ensures NumberValue("1a") == None
  {
    TrimKeepsUnpadded("1a");
    assert !IsDigit("1a"[1]);
    NumberValueOfWord("1a");
  }

  lemma OneABeforeNine()
    ensures CompareText("1a", "9") < 0
  {
    OneAIsNotANumber();
    CompareTextAsStrings("1a", "9");
    LowerOfCycle();
    assert LexLess("1a", "9");
  }

  lemma CompareTextAsStrings(a: string, b: string)
    requires NumberValue(a).None? || NumberValue(b).None?
    ensures CompareText(a, b) < 0 <==> LexLess(Lower(a), Lower(b))
  {
  }

  lemma NumbersOfCycle()
    ensures NumberValue("9") == Some(9) && NumberValue("10") == Some(10) && NumberValue("1a") == None
  {
    assert DigitsValue("9") == 9;
    assert DigitsValue("10") == 10 by { assert "10"[..1] == "1"; }
    NumberValueOfDigits("9");
    NumberValueOfDigits("10");
    OneAIsNotANumber();
  }

  lemma LowerOfCycle()
    ensures Lower("10") == "10" && Lower("1a") == "1a" && Lower("9") == "9"
  {
  }

  /**
   * The corrected text comparator: finite numbers first, in numeric order, then the other
   * texts in the order of their lower-cased strings.
   */
  function CompareTextFixed(a: string, b: string): int
  {
    var na, nb := NumberValue(a), NumberValue(b);
    if na.Some? && nb.Some? then na.value - nb.value
    else if na.Some? then -1
    else if nb.Some? then 1
    else StrOrder(Lower(a), Lower(b))
  }

  /** The correction only changes comparisons between a numeric and a non-numeric text. */
  lemma FixedAgreesUnlessMixed(a: string, b: string)
    requires NumberValue(a).Some? <==> NumberValue(b).Some?
    ensures CompareTextFixed(a, b) == CompareText(a, b)
  {
  }

  lemma {:induction false} CompareTextFixedPreorder(a: string, b: string, c: string)
    ensures CompareTextFixed(a, b) == -CompareTextFixed(b, a)
    ensures CompareTextFixed(a, b) <= 0 && CompareTextFixed(b, c) <= 0 ==> CompareTextFixed(a, c) <= 0
  {
    var la, lb, lc := Lower(a), Lower(b), Lower(c);
    StrOrderAntisymmetric(la, lb);
    if NumberValue(a).None? && NumberValue(b).None? && NumberValue(c).None?
      && StrOrder(la, lb) <= 0 && StrOrder(lb, lc) <= 0
    {
      if la != lb && lb != lc {
        LexLessTransitive(la, lb, lc);
      }
    }
  }

  /** The ordering of a column by the corrected comparator. */
  function CompareProductsFixed(a: Product, b: Product, key: SortKey, dir: SortDir): int
  {
    Oriented(
      match key
      case ByCodigo => CompareTextFixed(a.codigo, b.codigo)
      case ByDescripcion => CompareTextFixed(a.descripcion, b.descripcion)
      case ByImagen => CompareTextFixed(a.imagen, b.imagen)
      case ByPrecioCompra => a.precioCompra - b.precioCompra
      case ByPrecioVenta => a.precioVenta - b.precioVenta
      case ByStock => a.stock - b.stock
      case ByStockMin => a.stockMin - b.stockMin,
      dir)
  }

  /** The corrected comparator is a total preorder in every column and direction. */
  lemma {:induction false} CompareProductsFixedPreorder(a: Product, b: Product, c: Product, key: SortKey, dir: SortDir)
    ensures CompareProductsFixed(a, b, key, dir) == -CompareProductsFixed(b, a, key, dir)
    ensures CompareProductsFixed(a, b, key, dir) <= 0 && CompareProductsFixed(b, c, key, dir) <= 0 ==>
      CompareProductsFixed(a, c, key, dir) <= 0
  {
    match key
    case ByCodigo =>
      CompareTextFixedPreorder(a.codigo, b.codigo, c.codigo);
      CompareTextFixedPreorder(c.codigo, b.codigo, a.codigo);
      CompareTextFixedPreorder(a.codigo, c.codigo, b.codigo);
    case ByDescripcion =>
      CompareTextFixedPreorder(a.descripcion, b.descripcion, c.descripcion);
      CompareTextFixedPreorder(c.descripcion, b.descripcion, a.descripcion);
      CompareTextFixedPreorder(a.descripcion, c.descripcion, b.descripcion);
    case ByImagen =>
      CompareTextFixedPreorder(a.imagen, b.imagen, c.imagen);
      CompareTextFixedPreorder(c.imagen, b.imagen, a.imagen);
      CompareTextFixedPreorder(a.imagen, c.imagen, b.imagen);
    case _ =>
  }
}
