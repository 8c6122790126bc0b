/**
 Sums of one faction's counter over a collection of per-account records: the
 reference against which the contract's faction totals are checked.
 */
module Ledger {
  import opened Factions

  /** Some element of a non-empty set; fixed, so that the sum below and the
      lemmas about it pick the same one. */
  ghost function Pick(keys: set<string>): (k: string)
    requires keys != {}
    ensures k in keys
  {
    var k :| k in keys; k
  }

  /** Sum of faction `f`'s counter over the records of `keys`. */
  ghost function SumOver(users: map<string, Support>, keys: set<string>, f: Faction): int
    requires keys <= users.Keys
    decreases keys
  {
    if keys == {} then 0
    else
      var k := Pick(keys);
      Counter(users[k], f) + SumOver(users, keys - {k}, f)
  }

  /** Sum of faction `f`'s counter over every stored record. */
  ghost function Total(users: map<string, Support>, f: Faction): int {
    SumOver(users, users.Keys, f)
  }

  /** Any key of the set may be taken out first. */
  lemma {:induction false} SumOverRemove(users: map<string, Support>, keys: set<string>, k: string, f: Faction)
    requires keys <= users.Keys
    requires k in keys
    ensures SumOver(users, keys, f) == Counter(users[k], f) + SumOver(users, keys - {k}, f)
    decreases keys
  {
    var j := Pick(keys);
    if j != k {
      SumOverRemove(users, keys - {j}, k, f);
      SumOverRemove(users, keys - {k}, j, f);
      assert keys - {j} - {k} == keys - {k} - {j};
    }
  }

  /** The sum only depends on the counters of the keys it ranges over. */
  lemma {:induction false} SumOverFrame(users: map<string, Support>, users': map<string, Support>, keys: set<string>, f: Faction)
    requires keys <= users.Keys && keys <= users'.Keys
    requires forall k :: k in keys ==> Counter(users[k], f) == Counter(users'[k], f)
    ensures SumOver(users, keys, f) == SumOver(users', keys, f)
    decreases keys
  {
    if keys != {} {
      var k := Pick(keys);
      SumOverFrame(users, users', keys - {k}, f);
    }
  }

  /** A sum of non-negative counters is non-negative. */
  lemma {:induction false} SumOverNonNegative(users: map<string, Support>, keys: set<string>, f: Faction)
    requires keys <= users.Keys
    requires forall k :: k in keys ==> Counter(users[k], f) >= 0
    ensures SumOver(users, keys, f) >= 0
    decreases keys
  {
    if keys != {} {
      var k := Pick(keys);
      SumOverNonNegative(users, keys - {k}, f);
    }
  }

  /** No records, no support. */
  lemma TotalEmpty(f: Faction)
    ensures Total(map[], f) == 0
  {
  }

  /** Writing record `v` under `a` changes the total by the difference between
      `v`'s counter and the counter it replaces (zero for a new account). */
  lemma TotalUpdate(users: map<string, Support>, a: string, v: Support, f: Faction)
    ensures Total(users[a := v], f)
         == Total(users, f) - (if a in users then Counter(users[a], f) else 0) + Counter(v, f)
  {
    var users' := users[a := v];
    var rest := users.Keys - {a};
    assert users'.Keys - {a} == rest;
    SumOverRemove(users', users'.Keys, a, f);
    SumOverFrame(users, users', rest, f);
    if a in users {
      SumOverRemove(users, users.Keys, a, f);
    } else {
      assert users.Keys == rest;
    }
  }
}
