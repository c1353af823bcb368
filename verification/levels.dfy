/** The purchased-levels store `Game.upgrades`: a JavaScript object whose
    entries are visited in insertion order (section 10.1.11.1 of ECMA-262,
    OrdinaryOwnPropertyKeys). It is modelled as a sequence of entries in
    first-purchase order; assigning to an existing key keeps its place,
    assigning to a new key appends it. */
module Levels {
  import opened Catalog

  datatype Entry = Entry(id: UpgradeId, level: nat)

  type Store = seq<Entry>

  /** No key appears twice, as in any JavaScript object. */
  predicate Distinct(store: Store) {
    forall i, j :: 0 <= i < j < |store| ==> store[i].id != store[j].id
  }

  function Ids(store: Store): set<UpgradeId> {
    set e | e in store :: e.id
  }

  /** `Game.upgrades[u] || 0`: the stored level, or 0 when absent. */
  function LevelOf(store: Store, u: UpgradeId): (r: nat)
    ensures u !in Ids(store) ==> r == 0
    ensures Distinct(store) ==>
      forall i :: 0 <= i < |store| && store[i].id == u ==> r == store[i].level
  {
    if |store| == 0 then 0
    else if store[0].id == u then store[0].level
    else
      assert Ids(store[1..]) <= Ids(store) by {
        forall v | v in Ids(store[1..]) ensures v in Ids(store) {
          var e :| e in store[1..] && e.id == v;
          assert e in store;
        }
      }
      LevelOf(store[1..], u)
  }

  lemma IdsCons(e: Entry, rest: Store)
    ensures Ids([e] + rest) == {e.id} + Ids(rest)
  {
    var s := [e] + rest;
    forall v ensures v in Ids(s) <==> v in {e.id} + Ids(rest) {
      if v in Ids(s) {
        var x :| x in s && x.id == v;
        assert x == e || x in rest;
      }
      if v in Ids(rest) {
        var x :| x in rest && x.id == v;
        assert x in s;
      }
    }
  }

  lemma DistinctCons(e: Entry, rest: Store)
    ensures Distinct([e] + rest) <==> e.id !in Ids(rest) && Distinct(rest)
  {
    var s := [e] + rest;
    if Distinct(s) {
      assert Distinct(rest) by {
        forall i, j | 0 <= i < j < |rest| ensures rest[i].id != rest[j].id {
          assert s[i + 1] == rest[i] && s[j + 1] == rest[j];
        }
      }
      assert e.id !in Ids(rest) by {
        forall x | x in rest ensures x.id != e.id {
          var i :| 0 <= i < |rest| && rest[i] == x;
          assert s[0] == e && s[i + 1] == x;
        }
      }
    }
    if e.id !in Ids(rest) && Distinct(rest) {
      forall i, j | 0 <= i < j < |s| ensures s[i].id != s[j].id {
        if i == 0 {
          assert s[j] == rest[j - 1];
          assert s[j] in rest;
        } else {
          assert s[i] == rest[i - 1] && s[j] == rest[j - 1];
        }
      }
    }
  }

  /** `Game.upgrades[u] = n`: overwrite in place, or append a new key. */
  function SetLevel(store: Store, u: UpgradeId, n: nat): (r: Store)
    ensures LevelOf(r, u) == n
    ensures forall v :: v != u ==> LevelOf(r, v) == LevelOf(store, v)
    ensures Ids(r) == Ids(store) + {u}
  {
    if |store| == 0 then
      assert Ids([Entry(u, n)]) == {u} by { IdsCons(Entry(u, n), []); }
      [Entry(u, n)]
    else
      assert store == [store[0]] + store[1..];
      IdsCons(store[0], store[1..]);
      if store[0].id == u then
        IdsCons(Entry(u, n), store[1..]);
        [Entry(u, n)] + store[1..]
      else
        var rest := SetLevel(store[1..], u, n);
        IdsCons(store[0], rest);
        [store[0]] + rest
  }

  /** Insertion order: an existing key keeps its place. */
  lemma {:induction false} SetLevelKeepsPlaces(store: Store, u: UpgradeId, n: nat)
    requires u in Ids(store)
    ensures |SetLevel(store, u, n)| == |store|
    ensures forall i :: 0 <= i < |store| ==> SetLevel(store, u, n)[i].id == store[i].id
  {
    assert store == [store[0]] + store[1..];
    IdsCons(store[0], store[1..]);
    if store[0].id != u {
      SetLevelKeepsPlaces(store[1..], u, n);
    }
  }

  /** Insertion order: a new key goes last. */
  lemma {:induction false} SetLevelAppends(store: Store, u: UpgradeId, n: nat)
    requires u !in Ids(store)
    ensures SetLevel(store, u, n) == store + [Entry(u, n)]
  {
    if |store| > 0 {
      assert store == [store[0]] + store[1..];
      IdsCons(store[0], store[1..]);
      SetLevelAppends(store[1..], u, n);
    }
  }

  /** No key is ever duplicated. */
  lemma {:induction false} SetLevelKeepsDistinct(store: Store, u: UpgradeId, n: nat)
    requires Distinct(store)
    ensures Distinct(SetLevel(store, u, n))
  {
    if |store| > 0 {
      assert store == [store[0]] + store[1..];
      DistinctCons(store[0], store[1..]);
      if store[0].id == u {
        DistinctCons(Entry(u, n), store[1..]);
      } else {
        var rest := SetLevel(store[1..], u, n);
        assert SetLevel(store, u, n) == [store[0]] + rest;
        SetLevelKeepsDistinct(store[1..], u, n);
        assert store[0].id !in Ids(rest);
        DistinctCons(store[0], rest);
      }
    }
  }

  /** Every `(key, minLevel)` entry of a `requires` map is met. */
  predicate RequirementsMet(store: Store, req: map<UpgradeId, nat>) {
    forall v :: v in req ==> LevelOf(store, v) >= req[v]
  }

  /** Raising levels never un-meets a requirement. */
  lemma RequirementsMonotone(a: Store, b: Store, req: map<UpgradeId, nat>)
    requires forall v :: LevelOf(a, v) <= LevelOf(b, v)
    requires RequirementsMet(a, req)
    ensures RequirementsMet(b, req)
  {
  }
}
