/**
 * The shape shared by the `validate` methods: a `for` loop over a list that
 * returns `Err(message)` at the first element failing a test, and the list of
 * every violation it is measured against.
 */
module Checks {
  import opened Wrappers

  /** `for x in xs { if !ok(x) { return Err(msg(x)); } }`, then `Ok(())`. */
  function CheckEach<T>(xs: seq<T>, ok: T -> bool, msg: T -> string): Result<(), string> {
    if |xs| == 0 then Ok(())
    else if !ok(xs[0]) then Err(msg(xs[0]))
    else CheckEach(xs[1..], ok, msg)
  }

  /** `CheckEach` over an optional list: an absent list is not checked. */
  function CheckEachPresent<T>(o: Option<seq<T>>, ok: T -> bool, msg: T -> string): Result<(), string> {
    match o
    case None => Ok(())
    case Some(xs) => CheckEach(xs, ok, msg)
  }

  /** Runs `next` only when `first` passed: the early `return` between two loops. */
  function AndThen(first: Result<(), string>, next: Result<(), string>): (r: Result<(), string>)
    ensures r.Ok? <==> first.Ok? && next.Ok?
    ensures first.Err? ==> r == first
  {
    if first.Err? then first else next
  }

  /** Reference definition: the message for every failing element, in list order. */
  function Violations<T>(xs: seq<T>, ok: T -> bool, msg: T -> string): seq<string> {
    if |xs| == 0 then []
    else (if ok(xs[0]) then [] else [msg(xs[0])]) + Violations(xs[1..], ok, msg)
  }

  function PresentViolations<T>(o: Option<seq<T>>, ok: T -> bool, msg: T -> string): seq<string> {
    match o
    case None => []
    case Some(xs) => Violations(xs, ok, msg)
  }

  predicate AllOk<T>(xs: seq<T>, ok: T -> bool) {
    forall i :: 0 <= i < |xs| ==> ok(xs[i])
  }

  predicate AllPresentOk<T>(o: Option<seq<T>>, ok: T -> bool) {
    o.Some? ==> AllOk(o.value, ok)
  }

  /** The result of a checking loop is fixed by the list of all violations. */
  function Verdict(violations: seq<string>): Result<(), string> {
    if |violations| == 0 then Ok(()) else Err(violations[0])
  }

  /**
   * The early-return loop reports exactly the first violation in list order,
   * and there is none iff every element passes.
   */
  lemma {:induction false} CheckEachFirstViolation<T>(xs: seq<T>, ok: T -> bool, msg: T -> string)
    ensures CheckEach(xs, ok, msg) == Verdict(Violations(xs, ok, msg))
    ensures Violations(xs, ok, msg) == [] <==> AllOk(xs, ok)
  {
    if |xs| > 0 {
      CheckEachFirstViolation(xs[1..], ok, msg);
      if ok(xs[0]) {
        assert AllOk(xs, ok) <==> AllOk(xs[1..], ok) by {
          if AllOk(xs[1..], ok) {
            forall i | 0 <= i < |xs| ensures ok(xs[i]) {
              if i > 0 {
                assert xs[i] == xs[1..][i - 1];
              }
            }
          }
        }
      }
    }
  }

  /** The first failing element is the one whose message is reported. */
  lemma {:induction false} CheckEachReportsFirst<T>(xs: seq<T>, ok: T -> bool, msg: T -> string, i: nat)
    requires i < |xs| && !ok(xs[i])
    requires forall j :: 0 <= j < i ==> ok(xs[j])
    ensures CheckEach(xs, ok, msg) == Err(msg(xs[i]))
  {
    if i > 0 {
      assert ok(xs[0]);
      CheckEachReportsFirst(xs[1..], ok, msg, i - 1);
    }
  }

  lemma CheckEachPresentFirstViolation<T>(o: Option<seq<T>>, ok: T -> bool, msg: T -> string)
    ensures CheckEachPresent(o, ok, msg) == Verdict(PresentViolations(o, ok, msg))
    ensures PresentViolations(o, ok, msg) == [] <==> AllPresentOk(o, ok)
  {
    if o.Some? {
      CheckEachFirstViolation(o.value, ok, msg);
    }
  }

  /** Chaining two loops reports the first violation of the concatenated lists. */
  lemma VerdictAppend(a: seq<string>, b: seq<string>)
    ensures AndThen(Verdict(a), Verdict(b)) == Verdict(a + b)
  {
    if |a| > 0 {
      assert (a + b)[0] == a[0];
    }
  }
}
