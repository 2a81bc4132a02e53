/**
 * src/utils/debounce.js: a wrapper owning one `timeout` slot. Each call clears the slot
 * and schedules the wrapped function with that call's arguments after `delay`. Time is an
 * abstract clock per wrapper; `Tick(dt)` lets `dt` units pass and runs a due timer.
 */
module Debounce {
  import opened Wrappers

  /** A scheduled execution of the wrapped function. */
  datatype Timer<A> = Timer(args: A, due: nat)

  /** The observable state of one wrapper; `fired` lists the arguments it has run with. */
  datatype State<A> = State(delay: nat, now: nat, pending: Option<Timer<A>>, fired: seq<A>)

  /** A pending timer is never overdue and never further away than `delay`. */
  predicate WellFormed<A>(s: State<A>) {
    s.pending.Some? ==> s.now <= s.pending.value.due <= s.now + s.delay
  }

  /** A wrapper just returned by `debounce(func, delay)`. */
  function Fresh<A>(delay: nat): (s: State<A>)
    ensures WellFormed(s) && s.pending.None? && s.fired == [] && s.delay == delay
  {
    State(delay, 0, None, [])
  }

  /** Calling the wrapper: the slot is cleared and refilled with these arguments. */
  function Called<A>(s: State<A>, args: A): (s': State<A>)
    ensures WellFormed(s')
    ensures s'.pending == Some(Timer(args, s.now + s.delay))
    ensures s'.fired == s.fired && s'.now == s.now && s'.delay == s.delay
  {
    s.(pending := Some(Timer(args, s.now + s.delay)))
  }

  /** `dt` units pass; a pending timer that falls due in that time runs once. */
  function Ticked<A>(s: State<A>, dt: nat): (s': State<A>)
    requires WellFormed(s)
    ensures WellFormed(s')
    ensures s'.now == s.now + dt && s'.delay == s.delay
    ensures s.pending.Some? && s.pending.value.due <= s.now + dt ==>
              s'.pending.None? && s'.fired == s.fired + [s.pending.value.args]
    ensures !(s.pending.Some? && s.pending.value.due <= s.now + dt) ==>
              s'.pending == s.pending && s'.fired == s.fired
  {
    var t := s.now + dt;
    if s.pending.Some? && s.pending.value.due <= t
    then State(s.delay, t, None, s.fired + [s.pending.value.args])
    else s.(now := t)
  }

  /** After a call, the function runs only once `delay` has passed with no further call. */
  lemma FiresOnlyAfterDelay<A>(s: State<A>, args: A, dt: nat)
    ensures var e := Ticked(Called(s, args), dt);
            (dt >= s.delay ==> e.fired == s.fired + [args] && e.pending.None?) &&
            (dt < s.delay ==> e.fired == s.fired && e.pending == Some(Timer(args, s.now + s.delay)))
  {
  }

  /** A wrapper called once runs its function exactly once, with those arguments. */
  lemma FreshWrapperFiresOnce<A>(delay: nat, args: A, dt: nat)
    requires dt >= delay
    ensures Ticked(Called(Fresh<A>(delay), args), dt).fired == [args]
  {
  }

  /**
   * A burst: each entry is a call followed by a pause of `gap`. Gaps shorter than `delay`
   * keep cancelling the previous call.
   */
  function Burst<A>(s: State<A>, calls: seq<(A, nat)>): (s': State<A>)
    requires WellFormed(s)
    ensures WellFormed(s') && s'.delay == s.delay
    decreases |calls|
  {
    if calls == [] then s else Burst(Ticked(Called(s, calls[0].0), calls[0].1), calls[1..])
  }

  predicate Quick<A>(calls: seq<(A, nat)>, delay: nat) {
    forall k :: 0 <= k < |calls| ==> calls[k].1 < delay
  }

  lemma {:induction false} BurstKeepsLast<A>(s: State<A>, calls: seq<(A, nat)>)
    requires WellFormed(s) && |calls| > 0 && Quick(calls, s.delay)
    ensures var e := Burst(s, calls);
            e.fired == s.fired && e.pending.Some? && e.pending.value.args == calls[|calls| - 1].0
    decreases |calls|
  {
    var s1 := Ticked(Called(s, calls[0].0), calls[0].1);
    assert s1.fired == s.fired && s1.pending == Some(Timer(calls[0].0, s.now + s.delay));
    if |calls| > 1 {
      var tail := calls[1..];
      assert Quick(tail, s1.delay) by {
        forall k | 0 <= k < |tail| ensures tail[k].1 < s1.delay { assert tail[k] == calls[k + 1]; }
      }
      BurstKeepsLast(s1, tail);
    }
  }

  /**
   * n calls each closer than `delay` to the next, then a quiet `delay`: exactly one
   * execution, with the last call's arguments.
   */
  lemma BurstFiresOnce<A>(s: State<A>, calls: seq<(A, nat)>)
    requires WellFormed(s) && |calls| > 0 && Quick(calls, s.delay)
    ensures var e := Ticked(Burst(s, calls), s.delay);
            e.fired == s.fired + [calls[|calls| - 1].0] && e.pending.None?
  {
    BurstKeepsLast(s, calls);
  }

  /** The wrapper returned by `debounce`; calling it returns nothing. */
  class Debouncer<A> {
    const delay: nat
    var now: nat
    var pending: Option<Timer<A>>
    var fired: seq<A>

    function Current(): State<A>
      reads this
    {
      State(delay, now, pending, fired)
    }

    ghost predicate Valid()
      reads this
    {
      WellFormed(Current())
    }

    constructor (delay: nat)
      ensures Valid() && Current() == Fresh<A>(delay)
    {
      this.delay := delay;
      now := 0;
      pending := None;
      fired := [];
    }

    /** clearTimeout(timeout); timeout = setTimeout(...): only this wrapper's slot changes. */
    method Call(args: A)
      requires Valid()
      modifies this
      ensures Valid()
      ensures Current() == Called(old(Current()), args)
    {
      pending := Some(Timer(args, now + delay));
    }

    /** The host's timer queue: `dt` units pass and a due timer runs `func.apply(context, args)`. */
    method Tick(dt: nat)
      requires Valid()
      modifies this
      ensures Valid()
      ensures Current() == Ticked(old(Current()), dt)
    {
      now := now + dt;
      if pending.Some? && pending.value.due <= now {
        fired := fired + [pending.value.args];
        pending := None;
      }
    }
  }
}
