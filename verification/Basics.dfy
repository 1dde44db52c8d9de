// Small vocabulary shared by every module.
module Basics {

  datatype Option<+T> = None | Some(value: T)

  // A Go `(value, error)` pair. Error texts are not modelled.
  datatype Result<+T> = Ok(value: T) | Err {
    predicate IsFailure() { Err? }
    function PropagateFailure<U>(): Result<U>
      requires Err?
    {
      Err
    }
    function Extract(): T
      requires Ok?
    {
      value
    }
  }

  // A Go map value: reflect.DeepEqual tells a nil map from an empty one.
  datatype GoMap<!K, V> = Nil | Of(entries: map<K, V>)

  function Entries<K, V>(m: GoMap<K, V>): map<K, V> {
    match m
    case Nil => map[]
    case Of(entries) => entries
  }

  // What survives a round trip through `json:",omitempty"`.
  function Persisted<K, V>(m: GoMap<K, V>): GoMap<K, V> {
    if m.Of? && m.entries == map[] then Nil else m
  }

  function Lookup<V>(m: map<string, V>, k: string): Option<V> {
    if k in m then Some(m[k]) else None
  }

  // `order` visits every key once: one possible outcome of ranging over a Go map.
  ghost predicate Enumerates<K>(order: seq<K>, keys: set<K>) {
    multiset(order) == multiset(keys)
  }

  lemma EnumeratesMembers<K>(order: seq<K>, keys: set<K>)
    requires Enumerates(order, keys)
    ensures forall k :: k in order <==> k in keys
    ensures forall i, j :: 0 <= i < j < |order| ==> order[i] != order[j]
  {
    forall k ensures k in order <==> k in keys {
      assert k in multiset(order) <==> k in multiset(keys);
    }
    forall i, j | 0 <= i < j < |order| ensures order[i] != order[j] {
      assert order == order[..j] + order[j..];
      assert multiset(order)[order[j]] == multiset(order[..j])[order[j]] + multiset(order[j..])[order[j]];
      assert order[j..][0] == order[j];
      assert multiset(order[..j])[order[j]] == 0;
      assert order[..j][i] == order[i];
      assert order[i] in order[..j] && order[j] !in order[..j];
    }
  }

  // Distinct elements enumerate the set they make up.
  lemma {:induction false} DistinctEnumerates<K>(names: seq<K>, keys: set<K>)
    requires forall n :: n in names <==> n in keys
    requires forall i, j :: 0 <= i < j < |names| ==> names[i] != names[j]
    ensures Enumerates(names, keys)
  {
    if names == [] {
      assert keys == {};
    } else {
      var rest, last := names[..|names| - 1], names[|names| - 1];
      assert names == rest + [last];
      forall n ensures n in rest <==> n in keys - {last} {
        if n in rest {
          var i :| 0 <= i < |rest| && rest[i] == n;
          assert names[i] != names[|names| - 1];
        }
      }
      DistinctEnumerates(rest, keys - {last});
      assert keys == keys - {last} + {last};
    }
  }

  // Ranging over a map's keys, in whatever order the runtime picks.
  method RangeKeys<K(==)>(keys: set<K>) returns (order: seq<K>)
    ensures Enumerates(order, keys)
  {
    order := [];
    var todo := keys;
    while todo != {}
      invariant multiset(order) + multiset(todo) == multiset(keys)
    {
      var k :| k in todo;
      assert multiset(todo) == multiset(todo - {k}) + multiset{k};
      todo := todo - {k};
      order := order + [k];
    }
  }
}
