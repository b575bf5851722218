/**
 * The reentrancy counter `_in_context` of `SimpleModel`
 * (dffml/model/model.py), on its own: `__aenter__` adds one and loads
 * storage only when the new count is at most 1; `__aexit__` subtracts one
 * and saves storage when the new count is 0.
 */
module ModelLifecycle {

  /** What a caller does to a model: enter its context, fail to, or exit it. */
  datatype Event = Enter | FailedEnter | Exit

  /** `__aenter__` goes on to create the location and load storage. */
  predicate Loads(count: int, e: Event)
    ensures Loads(count, e) ==> e == Enter
    ensures count >= 1 ==> !Loads(count, e)
    ensures count == 0 && e == Enter ==> Loads(count, e)
  {
    e == Enter && count + 1 <= 1
  }

  /** `__aexit__` goes on to save storage. */
  predicate Saves(count: int, e: Event)
    ensures Saves(count, e) <==> e == Exit && count == 1
  {
    e == Exit && count - 1 == 0
  }

  /**
   * The counter after an event as the source updates it: `__aenter__`
   * increments before it creates the location and loads, so an enter that
   * raises keeps its increment.
   */
  function StepAsWritten(count: int, e: Event): (r: int)
    ensures Loads(count, e) ==> r <= 1
    ensures Saves(count, e) ==> r == 0
    ensures e != Exit ==> r > count
  {
    match e
    case Enter => count + 1
    case FailedEnter => count + 1
    case Exit => count - 1
  }

  /** The counter after an event when an enter that raises takes its increment back. */
  function Step(count: int, e: Event): (r: int)
    ensures e != FailedEnter ==> r == StepAsWritten(count, e)
    ensures e == FailedEnter ==> r == count
    ensures Saves(count, e) ==> r == 0
  {
    match e
    case Enter => count + 1
    case FailedEnter => count
    case Exit => count - 1
  }

  /** The counter after a run of events. */
  function Run(count: int, es: seq<Event>): int
    decreases |es|
  {
    if es == [] then count else Run(Step(count, es[0]), es[1..])
  }

  /** How many events of the run load storage. */
  function LoadCount(count: int, es: seq<Event>): nat
    decreases |es|
  {
    if es == [] then 0
    else (if Loads(count, es[0]) then 1 else 0) + LoadCount(Step(count, es[0]), es[1..])
  }

  /** How many events of the run save storage. */
  function SaveCount(count: int, es: seq<Event>): nat
    decreases |es|
  {
    if es == [] then 0
    else (if Saves(count, es[0]) then 1 else 0) + SaveCount(Step(count, es[0]), es[1..])
  }

  function Repeat(e: Event, n: nat): (r: seq<Event>)
    ensures |r| == n
    ensures forall i :: 0 <= i < n ==> r[i] == e
  {
    if n == 0 then [] else [e] + Repeat(e, n - 1)
  }

  /** A run split in two is the second half run from where the first ends. */
  lemma {:induction false} RunAppend(count: int, a: seq<Event>, b: seq<Event>)
    ensures Run(count, a + b) == Run(Run(count, a), b)
    ensures LoadCount(count, a + b) == LoadCount(count, a) + LoadCount(Run(count, a), b)
    ensures SaveCount(count, a + b) == SaveCount(count, a) + SaveCount(Run(count, a), b)
    decreases |a|
  {
    if a == [] {
      assert a + b == b;
    } else {
      assert (a + b)[0] == a[0] && (a + b)[1..] == a[1..] + b;
      RunAppend(Step(count, a[0]), a[1..], b);
    }
  }

  /**
   * `n` enters from a count of `c >= 0` reach `c + n`, load only if `c`
   * was 0, and never save.
   */
  lemma {:induction false} EntersFrom(c: nat, n: nat)
    ensures Run(c, Repeat(Enter, n)) == c + n
    ensures LoadCount(c, Repeat(Enter, n)) == if c == 0 && n > 0 then 1 else 0
    ensures SaveCount(c, Repeat(Enter, n)) == 0
    decreases n
  {
    if n > 0 {
      var es := Repeat(Enter, n);
      assert es[0] == Enter && es[1..] == Repeat(Enter, n - 1);
      EntersFrom(c + 1, n - 1);
    }
  }

  /**
   * `n` exits from a count of `c` save once exactly when the count passes
   * through 0, and never load.
   */
  lemma {:induction false} ExitsFrom(c: int, n: nat)
    ensures Run(c, Repeat(Exit, n)) == c - n
    ensures SaveCount(c, Repeat(Exit, n)) == if 1 <= c <= n then 1 else 0
    ensures LoadCount(c, Repeat(Exit, n)) == 0
    decreases n
  {
    if n > 0 {
      var es := Repeat(Exit, n);
      assert es[0] == Exit && es[1..] == Repeat(Exit, n - 1);
      ExitsFrom(c - 1, n - 1);
    }
  }

  /**
   * Entering a fresh model `n >= 1` times and exiting it `n` times brings
   * the counter back to 0 and loads and saves storage exactly once.
   */
  lemma NestedScopesLoadAndSaveOnce(n: nat)
    requires n >= 1
    ensures Run(0, Repeat(Enter, n) + Repeat(Exit, n)) == 0
    ensures LoadCount(0, Repeat(Enter, n) + Repeat(Exit, n)) == 1
    ensures SaveCount(0, Repeat(Enter, n) + Repeat(Exit, n)) == 1
  {
    RunAppend(0, Repeat(Enter, n), Repeat(Exit, n));
    EntersFrom(0, n);
    ExitsFrom(n, n);
  }

  /**
   * As written, an enter that raises leaves the counter at 1, so the next
   * enter neither creates the location nor loads, and the exit after it
   * does not save. With the increment taken back, the next scope loads and
   * saves as a first scope does.
   */
  lemma FailedEnterSuppressesNextScope()
    ensures StepAsWritten(0, FailedEnter) == 1
    ensures !Loads(StepAsWritten(0, FailedEnter), Enter)
    ensures !Saves(StepAsWritten(StepAsWritten(0, FailedEnter), Enter), Exit)
    ensures Step(0, FailedEnter) == 0
    ensures Loads(Step(0, FailedEnter), Enter)
    ensures Saves(Step(Step(0, FailedEnter), Enter), Exit)
  {
  }
}
