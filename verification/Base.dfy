/** Definitions shared by all modules. */
module Base {

  datatype Option<+T> = None | Some(value: T)

  /** A 32-bit request or stream id of the protocol. */
  type Id = nat

  /** Identity of a task, of a slot's holder, or of a stream handle. */
  type Tid = nat

  /** One past the largest value of the unsigned 32-bit counters. */
  const U32: nat := 0x1_0000_0000

  function Max(a: nat, b: nat): nat {
    if a < b then b else a
  }

  /** The map without the entry under `k`, if there is one. */
  function Without(m: map<Id, nat>, k: Id): map<Id, nat> {
    map j | j in m && j != k :: m[j]
  }

  predicate NoDup<T(==)>(xs: seq<T>) {
    forall i, j :: 0 <= i < j < |xs| ==> xs[i] != xs[j]
  }

  /** A set of naturals below `n` has at most `n` elements. */
  lemma {:induction false} BoundedSet(xs: set<nat>, n: nat)
    requires forall x :: x in xs ==> x < n
    ensures |xs| <= n
  {
    if n > 0 {
      BoundedSet(xs - {n - 1}, n - 1);
      if n - 1 in xs {
        assert xs == (xs - {n - 1}) + {n - 1};
      } else {
        assert xs == xs - {n - 1};
      }
    } else {
      assert xs == {};
    }
  }

  /** The naturals below `n`. */
  function Upto(n: nat): (r: set<nat>)
    ensures |r| == n
    ensures forall x: nat :: x in r <==> x < n
  {
    if n == 0 then {} else Upto(n - 1) + {n - 1}
  }

  lemma NoDupSuffix<T>(xs: seq<T>, ys: seq<T>, x: T)
    requires NoDup(xs + ys) && x in xs + ys && x !in xs
    ensures NoDup(ys) && x in ys
  {
    forall i, j | 0 <= i < j < |ys| ensures ys[i] != ys[j] {
      assert ys[i] == (xs + ys)[|xs| + i] && ys[j] == (xs + ys)[|xs| + j];
    }
  }
}
