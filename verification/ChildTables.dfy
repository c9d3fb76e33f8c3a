// The delete-then-insert step on a child table in closed form: when it succeeds, and what it
// leaves behind.
module ChildTables {
  import opened Prelude
  import opened ConfigModel
  import opened ConfigImport

  // The rows of one owner replaced by `rows`, every other row kept.
  function Swap<K, V>(m: ChildTable<K, V>, owner: nat, rows: ChildTable<K, V>): ChildTable<K, V> {
    (map c | c in m && c.owner != owner :: m[c]) + rows
  }

  ghost predicate OwnedOnly<K, V>(rows: ChildTable<K, V>, owner: nat) {
    forall c :: c in rows ==> c.owner == owner
  }

  // Every row of the owner carries the given tenant.
  ghost predicate SameTenant<K, V>(m: ChildTable<K, V>, owner: nat, tenant: string) {
    forall c :: c in m && c.owner == owner ==> m[c].tenant == tenant
  }

  // Every item resolves, and no two items resolve to the same unique key.
  ghost predicate Insertable<I, K, V>(items: seq<I>, resolve: (I, nat) -> Option<(K, V)>) {
    InsertableFrom(items, 0, resolve)
  }

  ghost predicate InsertableFrom<I, K, V>(items: seq<I>, n: nat, resolve: (I, nat) -> Option<(K, V)>) {
    && (forall i :: n <= i < |items| ==> resolve(items[i], i).Some?)
    && (forall i, j :: n <= i < j < |items| ==> resolve(items[i], i).value.0 != resolve(items[j], j).value.0)
  }

  function RowsFrom<I, K, V>(owner: nat, tenant: string, items: seq<I>, i: nat,
                             resolve: (I, nat) -> Option<(K, V)>): (r: ChildTable<K, V>)
    requires i <= |items|
    ensures OwnedOnly(r, owner) && SameTenant(r, owner, tenant)
    decreases |items| - i
  {
    if i == |items| then map[]
    else
      var rest := RowsFrom(owner, tenant, items, i + 1, resolve);
      match resolve(items[i], i)
      case None => rest
      case Some((k, v)) => rest[Child(owner, k) := Owned(tenant, v)]
  }

  function Rows<I, K, V>(owner: nat, tenant: string, items: seq<I>,
                         resolve: (I, nat) -> Option<(K, V)>): (r: ChildTable<K, V>)
    ensures OwnedOnly(r, owner) && SameTenant(r, owner, tenant)
  {
    RowsFrom(owner, tenant, items, 0, resolve)
  }

  lemma {:induction false} RowsFromKeys<I, K, V>(owner: nat, tenant: string, items: seq<I>, i: nat,
                                                 resolve: (I, nat) -> Option<(K, V)>, c: Child<K>)
    requires i <= |items|
    ensures c in RowsFrom(owner, tenant, items, i, resolve)
        <==> c.owner == owner
             && exists j :: i <= j < |items| && resolve(items[j], j).Some? && resolve(items[j], j).value.0 == c.key
    decreases |items| - i
  {
    if i < |items| {
      RowsFromKeys(owner, tenant, items, i + 1, resolve, c);
    }
  }

  lemma {:induction false} RowsFromAt<I, K, V>(owner: nat, tenant: string, items: seq<I>, i: nat,
                                               resolve: (I, nat) -> Option<(K, V)>, j: nat)
    requires i <= j < |items| && Insertable(items, resolve)
    ensures var (k, v) := resolve(items[j], j).value;
            var r := RowsFrom(owner, tenant, items, i, resolve);
            Child(owner, k) in r && r[Child(owner, k)] == Owned(tenant, v)
    decreases |items| - i
  {
    if i < j { RowsFromAt(owner, tenant, items, i + 1, resolve, j); }
  }

  // The rows hold exactly what the items resolve to.
  lemma RowsAt<I, K, V>(owner: nat, tenant: string, items: seq<I>, resolve: (I, nat) -> Option<(K, V)>)
    requires Insertable(items, resolve)
    ensures var r := Rows(owner, tenant, items, resolve);
            && (forall j :: 0 <= j < |items| ==>
                  var (k, v) := resolve(items[j], j).value;
                  Child(owner, k) in r && r[Child(owner, k)] == Owned(tenant, v))
            && (forall c :: c in r ==>
                  exists j :: 0 <= j < |items| && c == Child(owner, resolve(items[j], j).value.0))
  {
    var r := Rows(owner, tenant, items, resolve);
    forall j | 0 <= j < |items|
      ensures var (k, v) := resolve(items[j], j).value;
              Child(owner, k) in r && r[Child(owner, k)] == Owned(tenant, v)
    {
      RowsFromAt(owner, tenant, items, 0, resolve, j);
    }
    forall c | c in r
      ensures exists j :: 0 <= j < |items| && c == Child(owner, resolve(items[j], j).value.0)
    {
      RowsFromKeys(owner, tenant, items, 0, resolve, c);
    }
  }

  // No item resolves to a key that is already in the table.
  ghost predicate Unoccupied<I, K, V>(m: ChildTable<K, V>, owner: nat, items: seq<I>, i: nat,
                                      resolve: (I, nat) -> Option<(K, V)>) {
    forall j :: i <= j < |items| && resolve(items[j], j).Some? ==> Child(owner, resolve(items[j], j).value.0) !in m
  }

  lemma {:induction false} InsertFromClosed<I, K, V>(m: ChildTable<K, V>, owner: nat, tenant: string, items: seq<I>,
                                                     i: nat, resolve: (I, nat) -> Option<(K, V)>)
    requires i <= |items| && Unoccupied(m, owner, items, i, resolve)
    requires InsertableFrom(items, i, resolve)
    ensures InsertFrom(m, owner, tenant, items, i, resolve) == Ok(m + RowsFrom(owner, tenant, items, i, resolve))
    decreases |items| - i
  {
    if i < |items| {
      var (k, v) := resolve(items[i], i).value;
      var m' := m[Child(owner, k) := Owned(tenant, v)];
      var rest := RowsFrom(owner, tenant, items, i + 1, resolve);
      InsertFromClosed(m', owner, tenant, items, i + 1, resolve);
      RowsFromKeys(owner, tenant, items, i + 1, resolve, Child(owner, k));
      assert Child(owner, k) !in rest;
      assert m' + rest == m + rest[Child(owner, k) := Owned(tenant, v)];
    } else {
      assert m + map[] == m;
    }
  }

  lemma {:induction false} InsertFromFails<I, K, V>(m: ChildTable<K, V>, owner: nat, tenant: string, items: seq<I>,
                                                    i: nat, resolve: (I, nat) -> Option<(K, V)>)
    requires i <= |items| && InsertFrom(m, owner, tenant, items, i, resolve).Ok?
    ensures InsertableFrom(items, i, resolve)
    decreases |items| - i
  {
    if i < |items| {
      var (k, v) := resolve(items[i], i).value;
      var m' := m[Child(owner, k) := Owned(tenant, v)];
      InsertFromFails(m', owner, tenant, items, i + 1, resolve);
      forall j | i < j < |items| ensures resolve(items[j], j).value.0 != k {
        if resolve(items[j], j).value.0 == k {
          InsertOccupied(m', owner, tenant, items, i + 1, resolve, j);
        }
      }
    }
  }

  // An item whose key is already taken makes the insertion fail wherever it stands.
  lemma {:induction false} InsertOccupied<I, K, V>(m: ChildTable<K, V>, owner: nat, tenant: string, items: seq<I>,
                                                   i: nat, resolve: (I, nat) -> Option<(K, V)>, j: nat)
    requires i <= j < |items| && resolve(items[j], j).Some?
    requires Child(owner, resolve(items[j], j).value.0) in m
    ensures InsertFrom(m, owner, tenant, items, i, resolve).Err?
    decreases |items| - i
  {
    if i < j && resolve(items[i], i).Some? {
      var (k, v) := resolve(items[i], i).value;
      if Child(owner, k) !in m {
        InsertOccupied(m[Child(owner, k) := Owned(tenant, v)], owner, tenant, items, i + 1, resolve, j);
      }
    }
  }

  // Replacing an owner's rows succeeds exactly when the items are insertable, and then swaps
  // them; SameTenant is kept by every writer and makes the delete reach every old row.
  lemma ReplaceClosed<I, K, V>(m: ChildTable<K, V>, owner: nat, tenant: string, items: seq<I>,
                               resolve: (I, nat) -> Option<(K, V)>)
    requires SameTenant(m, owner, tenant)
    ensures var r := ReplaceOwned(m, owner, tenant, items, resolve);
            && (r.Ok? <==> Insertable(items, resolve))
            && (r.Ok? ==> r.value == Swap(m, owner, Rows(owner, tenant, items, resolve)))
  {
    var d := DeleteOwned(m, owner, tenant);
    if ReplaceOwned(m, owner, tenant, items, resolve).Ok? {
      InsertFromFails(d, owner, tenant, items, 0, resolve);
    }
    if Insertable(items, resolve) {
      InsertFromClosed(d, owner, tenant, items, 0, resolve);
    }
    assert d == map c | c in m && c.owner != owner :: m[c];
  }

  // ---- the algebra of Swap ----

  lemma SwapAt<K, V>(m: ChildTable<K, V>, owner: nat, rows: ChildTable<K, V>, c: Child<K>)
    ensures c in Swap(m, owner, rows) <==> c in rows || (c in m && c.owner != owner)
    ensures c in Swap(m, owner, rows) ==> Swap(m, owner, rows)[c] == if c in rows then rows[c] else m[c]
  {
  }

  lemma SwapCommutes<K, V>(m: ChildTable<K, V>, o1: nat, rows1: ChildTable<K, V>, o2: nat, rows2: ChildTable<K, V>)
    requires o1 != o2 && OwnedOnly(rows1, o1) && OwnedOnly(rows2, o2)
    ensures Swap(Swap(m, o1, rows1), o2, rows2) == Swap(Swap(m, o2, rows2), o1, rows1)
  {
    var m1, m2 := Swap(m, o1, rows1), Swap(m, o2, rows2);
    SameSwaps(m1, o2, rows2, m2, o1, rows1) by {
      forall c
        ensures (c in rows2 || (c in m1 && c.owner != o2)) <==> (c in rows1 || (c in m2 && c.owner != o1))
        ensures c in rows2 || (c in m1 && c.owner != o2) ==>
                  (if c in rows2 then rows2[c] else m1[c]) == (if c in rows1 then rows1[c] else m2[c])
      {
        SwapAt(m, o1, rows1, c);
        SwapAt(m, o2, rows2, c);
      }
    }
  }

  lemma SameSwaps<K, V>(a: ChildTable<K, V>, o1: nat, rows1: ChildTable<K, V>,
                        b: ChildTable<K, V>, o2: nat, rows2: ChildTable<K, V>)
    requires forall c :: (c in rows1 || (c in a && c.owner != o1)) <==> (c in rows2 || (c in b && c.owner != o2))
    requires forall c :: c in rows1 || (c in a && c.owner != o1) ==>
               (if c in rows1 then rows1[c] else a[c]) == (if c in rows2 then rows2[c] else b[c])
    ensures Swap(a, o1, rows1) == Swap(b, o2, rows2)
  {
    var x, y := Swap(a, o1, rows1), Swap(b, o2, rows2);
    forall c ensures (c in x <==> c in y) && (c in x ==> x[c] == y[c]) {
      SwapAt(a, o1, rows1, c);
      SwapAt(b, o2, rows2, c);
    }
  }

}
