/**
 * The customer list's rules: lookup by id and the walk-in customer
 * ("Mostrador") that `loadState` guarantees.
 */
module Customers {
  import opened Util
  import opened Model

  const WalkInId: string := "mostrador"
  const WalkInName: string := "Mostrador"

  /** The record `loadState` inserts: `{ id: 'mostrador', nombre: 'Mostrador', telefono: '' }`. */
  const WalkIn: Customer := Customer(WalkInId, WalkInName, "")

  /** `state.clientes.findIndex(c => c.id === id)`. */
  function CustomerIndex(cs: seq<Customer>, id: string): (r: Option<nat>)
    ensures r.Some? ==> r.value < |cs| && cs[r.value].id == id
    ensures r.Some? ==> forall j :: 0 <= j < r.value ==> cs[j].id != id
    ensures r.None? <==> forall j :: 0 <= j < |cs| ==> cs[j].id != id
  {
    FirstIndex(cs, (c: Customer) => c.id == id)
  }

  /** An appended customer whose id was absent is found at the end. */
  lemma CustomerIndexOfAppended(cs: seq<Customer>, c: Customer)
    requires CustomerIndex(cs, c.id).None?
    ensures CustomerIndex(cs + [c], c.id) == Some(|cs|)
  {
    assert (cs + [c])[|cs|].id == c.id;
    assert forall j :: 0 <= j < |cs| ==> (cs + [c])[j].id != c.id;
  }

  /** A customer replaced by a record with the same id is still the one found. */
  lemma CustomerIndexOfReplaced(cs: seq<Customer>, k: nat, c: Customer)
    requires CustomerIndex(cs, c.id) == Some(k)
    ensures CustomerIndex(cs[k := c], c.id) == Some(k)
  {
    var q := cs[k := c];
    assert q[k].id == c.id;
    assert forall j :: 0 <= j < k ==> q[j] == cs[j];
  }

  /** `state.clientes.find(c => c.nombre === 'Mostrador')`, as a position. */
  function WalkInNameIndex(cs: seq<Customer>): (r: Option<nat>)
    ensures r.Some? ==> r.value < |cs| && cs[r.value].nombre == WalkInName
    ensures r.None? <==> forall j :: 0 <= j < |cs| ==> cs[j].nombre != WalkInName
  {
    FirstIndex(cs, (c: Customer) => c.nombre == WalkInName)
  }

  /** A customer the counter sales can be booked to: named "Mostrador" or with id "mostrador". */
  predicate IsWalkIn(c: Customer)
  {
    c.nombre == WalkInName || c.id == WalkInId
  }

  ghost predicate HasWalkIn(cs: seq<Customer>)
  {
    exists i :: 0 <= i < |cs| && IsWalkIn(cs[i])
  }

  /**
   * The two nested guards of `loadState`: an empty list or no customer named "Mostrador",
   * and then no customer with id "mostrador". Together they fire exactly when no walk-in exists.
   */
  function NeedsWalkIn(cs: seq<Customer>): (r: bool)
    ensures r <==> !HasWalkIn(cs)
  {
    var r := (|cs| == 0 || WalkInNameIndex(cs).None?) && CustomerIndex(cs, WalkInId).None?;
    assert !r ==> HasWalkIn(cs) by {
      if !r {
        if WalkInNameIndex(cs).Some? {
          assert IsWalkIn(cs[WalkInNameIndex(cs).value]);
        } else {
          assert IsWalkIn(cs[CustomerIndex(cs, WalkInId).value]);
        }
      }
    }
    r
  }

  /** The walk-in guard as a value: prepend the walk-in customer when none exists. */
  function WithWalkIn(cs: seq<Customer>): (r: seq<Customer>)
    ensures HasWalkIn(r)
    ensures HasWalkIn(cs) ==> r == cs
    ensures !HasWalkIn(cs) ==> r == [WalkIn] + cs && r[0] == WalkIn
  {
    if NeedsWalkIn(cs) then
      assert IsWalkIn(([WalkIn] + cs)[0]);
      [WalkIn] + cs
    else cs
  }

  /** Running the guard a second time adds nothing. */
  lemma WithWalkInIdempotent(cs: seq<Customer>)
    ensures WithWalkIn(WithWalkIn(cs)) == WithWalkIn(cs)
  {
  }
}
