/** Repeating one step, and applying a numbered series of steps in turn, with
    the facts about them that do not depend on what the steps do. */
module Iteration {

  /** `f` applied `n` times to `s`; not at all when `n <= 0`. */
  function Iterate<T>(f: T -> T, s: T, n: int): T
    decreases n
  {
    if n <= 0 then s else f(Iterate(f, s, n - 1))
  }

  /** Applying `f` `a` times and then `b` more times is applying it `a + b` times. */
  lemma {:induction false} IterateAdd<T>(f: T -> T, s: T, a: nat, b: nat)
    ensures Iterate(f, s, a + b) == Iterate(f, Iterate(f, s, a), b)
    decreases b
  {
    if b > 0 {
      IterateAdd(f, s, a, b - 1);
    }
  }

  /** A property that every application of `f` keeps holds after any number
      of them. */
  lemma {:induction false} IterateKeeps<T>(f: T -> T, P: T -> bool, s: T, n: int)
    requires P(s)
    requires forall y :: P(y) ==> P(f(y))
    ensures P(Iterate(f, s, n))
    decreases n
  {
    if n > 0 {
      IterateKeeps(f, P, s, n - 1);
    }
  }

  /** When a second application of `f` to `s` changes nothing, any positive
      number of applications amounts to one. */
  lemma {:induction false} IterateSettles<T>(f: T -> T, s: T, n: int)
    requires n >= 1 && f(f(s)) == f(s)
    ensures Iterate(f, s, n) == f(s)
    decreases n
  {
    if n > 1 {
      IterateSettles(f, s, n - 1);
    }
  }

  /** The steps `g(0, _)`, `g(1, _)`, ..., `g(n - 1, _)` applied to `s` in turn. */
  function Sweep<T>(g: (nat, T) -> T, s: T, n: nat): T
  {
    if n == 0 then s else g(n - 1, Sweep(g, s, n - 1))
  }

  /** Two series of steps whose first `n` steps agree wherever a property
      holds, and keep that property, are in the same place after `n` steps. */
  lemma {:induction false} SweepAgree<T>(g: (nat, T) -> T, h: (nat, T) -> T, P: T -> bool, s: T, n: nat)
    requires P(s)
    requires forall i: nat, y :: i < n && P(y) ==> P(g(i, y)) && g(i, y) == h(i, y)
    ensures Sweep(g, s, n) == Sweep(h, s, n) && P(Sweep(g, s, n))
  {
    if n > 0 {
      SweepAgree(g, h, P, s, n - 1);
    }
  }

  /** A series whose first `n` steps are all the same step `f` is, after `n`
      steps, `f` repeated `n` times. */
  lemma {:induction false} SweepRepeats<T>(g: (nat, T) -> T, f: T -> T, s: T, n: nat)
    requires forall i: nat, y :: i < n ==> g(i, y) == f(y)
    ensures Sweep(g, s, n) == Iterate(f, s, n)
  {
    if n > 0 {
      SweepRepeats(g, f, s, n - 1);
    }
  }
}
