/**
  `memoOf`: a supplier wrapper that computes its value at most once and then hands back the
  stored value. The wrapped supplier may be impure, so it is given as the outcome of its
  i-th invocation; a Kotlin supplier either returns a value, returns null, or throws.
*/
module Memoizing {

  import opened Wrappers

  /** What one invocation of the wrapped supplier produced. */
  datatype Returned<+T, +E> = Value(value: T) | Null | Threw(error: E)

  /** The wrapper's state: the stored value (the AtomicReference), and how often the supplier ran. */
  datatype Memo<T> = Memo(stored: Option<T>, invocations: nat)

  /** The state of a freshly created `memoOf { ... }`. */
  function Fresh<T>(): Memo<T> {
    Memo(None, 0)
  }

  datatype Call<T, E> = Call(result: Returned<T, E>, memo: Memo<T>)

  /** One call of the memoising supplier. */
  function Invoke<T, E>(m: Memo<T>, supplier: nat -> Returned<T, E>): (c: Call<T, E>)
    // a stored value is handed back and the supplier is not run
    ensures m.stored.Some? ==> c.result == Value(m.stored.value) && c.memo == m
    // otherwise the supplier runs once and its outcome is what the caller sees
    ensures m.stored.None? ==>
              c.result == supplier(m.invocations) && c.memo.invocations == m.invocations + 1
    // only a non-null value is remembered; null and exceptions leave nothing stored
    ensures m.stored.None? ==> (c.memo.stored.Some? <==> c.result.Value?)
    ensures c.memo.stored.Some? ==> c.result == Value(c.memo.stored.value)
  {
    match m.stored
    case Some(v) => Call(Value(v), m)
    case None =>
      var out := supplier(m.invocations);
      var kept := if out.Value? then Some(out.value) else None;
      Call(out, Memo(kept, m.invocations + 1))
  }

  /** `n` successive calls: the outcomes in order, and the final state. */
  function InvokeMany<T, E>(m: Memo<T>, supplier: nat -> Returned<T, E>, n: nat): (r: (seq<Returned<T, E>>, Memo<T>))
    ensures |r.0| == n
    decreases n
  {
    if n == 0 then ([], m)
    else
      var c := Invoke(m, supplier);
      var rest := InvokeMany(c.memo, supplier, n - 1);
      ([c.result] + rest.0, rest.1)
  }

  /** Once a value is stored, every later call returns it and nothing changes. */
  lemma {:induction false} StoredValueIsFinal<T, E>(m: Memo<T>, supplier: nat -> Returned<T, E>, n: nat)
    requires m.stored.Some?
    ensures InvokeMany(m, supplier, n).1 == m
    ensures forall i :: 0 <= i < n ==> InvokeMany(m, supplier, n).0[i] == Value(m.stored.value)
    decreases n
  {
    if n > 0 {
      StoredValueIsFinal(m, supplier, n - 1);
    }
  }

  /**
    Over any sequence of calls, a supplier that never returns null and never throws runs at most
    once, and every call returns the value of its first run.
  */
  lemma {:induction false} SuppliedAtMostOnce<T, E>(m: Memo<T>, supplier: nat -> Returned<T, E>, n: nat)
    requires forall i :: supplier(i).Value?
    ensures InvokeMany(m, supplier, n).1.invocations <= m.invocations + 1
    ensures n > 0 ==> InvokeMany(m, supplier, n).1.stored.Some?
    ensures forall i :: 0 <= i < n ==>
      InvokeMany(m, supplier, n).0[i]
        == Value(if m.stored.Some? then m.stored.value else supplier(m.invocations).value)
    decreases n
  {
    if n > 0 {
      var c := Invoke(m, supplier);
      StoredValueIsFinal(c.memo, supplier, n - 1);
    }
  }

  /** A null outcome is not remembered: the next call runs the supplier again. */
  lemma NullIsNotMemoised<T, E>(m: Memo<T>, supplier: nat -> Returned<T, E>)
    requires m.stored.None?
    requires supplier(m.invocations).Null?
    ensures Invoke(m, supplier).memo.stored.None?
    ensures Invoke(Invoke(m, supplier).memo, supplier).result == supplier(m.invocations + 1)
    ensures Invoke(Invoke(m, supplier).memo, supplier).memo.invocations == m.invocations + 2
  {
  }
}
