/**
 * The scope discipline of `LogHelper_` (logger.hpp, logger.cpp): a helper's
 * constructor raises the shared indentation level and its destructor, which
 * C++ runs on every exit from the helper's scope, lowers it again. Because
 * scopes nest, the constructions and destructions a program performs are
 * always bracketed like the scopes themselves; this module describes that
 * bracketing and what it does to the level.
 */
module Scopes {

  datatype ScopeEvent = Construct | Destroy

  /** A scope holding one helper (one traced function activation) and the traced scopes run inside it, in order. */
  datatype Scope = Scope(nested: seq<Scope>)

  /** The level after one constructor or destructor call. */
  function Step(level: int, e: ScopeEvent): int
  {
    match e
    case Construct => level + 1
    case Destroy => level - 1
  }

  /** The level after a run of constructor and destructor calls. */
  function LevelAfter(level: int, events: seq<ScopeEvent>): int
    decreases |events|
  {
    if events == [] then level else LevelAfter(Step(level, events[0]), events[1..])
  }

  /** The calls a scope performs: its helper's construction, those of its nested scopes, its helper's destruction. */
  function Events(s: Scope): seq<ScopeEvent>
    decreases s
  {
    [Construct] + EventsOf(s.nested) + [Destroy]
  }

  function EventsOf(ss: seq<Scope>): seq<ScopeEvent>
    decreases ss
  {
    if ss == [] then [] else Events(ss[0]) + EventsOf(ss[1..])
  }

  lemma {:induction false} LevelAfterConcat(level: int, a: seq<ScopeEvent>, b: seq<ScopeEvent>)
    ensures LevelAfter(level, a + b) == LevelAfter(LevelAfter(level, a), b)
    decreases |a|
  {
    if a == [] {
      assert a + b == b;
    } else {
      assert (a + b)[0] == a[0];
      assert (a + b)[1..] == a[1..] + b;
      LevelAfterConcat(Step(level, a[0]), a[1..], b);
    }
  }

  /** Leaving a scope restores the level it was entered at, however its nested scopes ran. */
  lemma {:induction false} ScopeRestoresLevel(level: int, s: Scope)
    ensures LevelAfter(level, Events(s)) == level
    decreases s
  {
    LevelAfterConcat(level, [Construct] + EventsOf(s.nested), [Destroy]);
    LevelAfterConcat(level, [Construct], EventsOf(s.nested));
    ScopesRestoreLevel(level + 1, s.nested);
  }

  lemma {:induction false} ScopesRestoreLevel(level: int, ss: seq<Scope>)
    ensures LevelAfter(level, EventsOf(ss)) == level
    decreases ss
  {
    if ss != [] {
      LevelAfterConcat(level, Events(ss[0]), EventsOf(ss[1..]));
      ScopeRestoresLevel(level, ss[0]);
      ScopesRestoreLevel(level, ss[1..]);
    }
  }

  /** `n` scopes, each nested in the one before. */
  function Chain(n: nat): seq<Scope>
  {
    if n == 0 then [] else [Scope(Chain(n - 1))]
  }

  /** `n` copies of one event. */
  function Repeat(e: ScopeEvent, n: nat): (r: seq<ScopeEvent>)
    ensures |r| == n
  {
    if n == 0 then [] else [e] + Repeat(e, n - 1)
  }

  /** A chain of `n` nested scopes constructs `n` helpers, then destroys them. */
  lemma {:induction false} ChainEvents(n: nat)
    ensures EventsOf(Chain(n)) == Repeat(Construct, n) + Repeat(Destroy, n)
  {
    if n > 0 {
      ChainEvents(n - 1);
      var inner := EventsOf(Chain(n - 1));
      assert EventsOf(Chain(n)) == Events(Scope(Chain(n - 1))) + EventsOf([]);
      assert Repeat(Destroy, n) == Repeat(Destroy, n - 1) + [Destroy] by {
        RepeatSnoc(Destroy, n - 1);
      }
    }
  }

  lemma {:induction false} RepeatSnoc(e: ScopeEvent, n: nat)
    ensures Repeat(e, n) + [e] == Repeat(e, n + 1)
  {
    if n > 0 {
      RepeatSnoc(e, n - 1);
    }
  }

  /** Each construction adds one level: `n` nested helpers raise the level by exactly `n`. */
  lemma {:induction false} ConstructsRaiseLevel(level: int, n: nat)
    ensures LevelAfter(level, Repeat(Construct, n)) == level + n
    decreases n
  {
    if n > 0 {
      assert Repeat(Construct, n)[1..] == Repeat(Construct, n - 1);
      ConstructsRaiseLevel(level + 1, n - 1);
    }
  }

  /**
   * In a chain of `n` nested scopes the innermost runs `n` levels deep, and the
   * level drops back once all of them are left.
   */
  lemma NestedScopes(level: int, n: nat)
    ensures |EventsOf(Chain(n))| == 2 * n
    ensures n <= |EventsOf(Chain(n))| && LevelAfter(level, EventsOf(Chain(n))[..n]) == level + n
    ensures LevelAfter(level, EventsOf(Chain(n))) == level
  {
    ChainEvents(n);
    assert EventsOf(Chain(n))[..n] == Repeat(Construct, n);
    ConstructsRaiseLevel(level, n);
    ScopesRestoreLevel(level, Chain(n));
  }
}
