/** Results shared by the modules of the model. */
module Wrappers {

  datatype Option<+T> = None | Some(value: T)

  /** A value, or the error that a service throws or an engine returns. */
  datatype Result<+T, +E> = Ok(value: T) | Err(error: E) {
    predicate IsFailure() {
      Err?
    }

    function PropagateFailure<U>(): Result<U, E>
      requires Err?
    {
      Err(error)
    }

    function Extract(): T
      requires Ok?
    {
      value
    }
  }

  /** What a method that returns nothing returns, or the error that it throws. */
  datatype Outcome<+E> = Pass | Fail(error: E) {
    predicate IsFailure() {
      Fail?
    }

    function PropagateFailure(): Outcome<E>
      requires Fail?
    {
      this
    }
  }

  /** The outcome of a method whose effect this describes. */
  function OutcomeOf<T, E>(r: Result<T, E>): Outcome<E> {
    match r
    case Ok(_) => Pass
    case Err(e) => Fail(e)
  }

  /** Some element of a set that has one. */
  ghost function Pick<T>(s: set<T>): (x: T)
    requires s != {}
    ensures x in s
  {
    var x :| x in s;
    x
  }

  /** Some key under which a map holds a value. */
  ghost function KeyOf<K, V>(m: map<K, V>, v: V): (k: K)
    requires v in m.Values
    ensures k in m && m[k] == v
  {
    var k :| k in m && m[k] == v;
    k
  }

  /** A value added under a new key. */
  lemma ValuesWith<K, V>(m: map<K, V>, k: K, v: V)
    requires k !in m && v !in m.Values
    ensures m[k := v].Values == m.Values + {v}
    ensures multiset(m[k := v].Values) == multiset(m.Values) + multiset{v}
  {
    var n := m[k := v];
    assert n[k] == v;
    forall w | w in m.Values ensures w in n.Values {
      var j := KeyOf(m, w);
      assert n[j] == w;
    }
    assert n.Values == m.Values + {v};
  }

  /** A value taken away that no other key held. */
  lemma ValuesWithout<K, V>(m: map<K, V>, k: K)
    requires k in m && forall j :: j in m && j != k ==> m[j] != m[k]
    ensures (m - {k}).Values == m.Values - {m[k]}
    ensures multiset((m - {k}).Values) == multiset(m.Values) - multiset{m[k]}
  {
    var n := m - {k};
    forall w | w in m.Values && w != m[k] ensures w in n.Values {
      var j := KeyOf(m, w);
      assert n[j] == w;
    }
    assert n.Values == m.Values - {m[k]};
  }

  lemma UpdatedTwice<K, V>(m: map<K, V>, k: K, v: V, w: V)
    ensures m[k := v][k := w] == m[k := w]
  {
  }
}
