/** Browser timers (`setTimeout`) on a logical clock: a table of pending actions with their due
    times. The event loop fires the timer with the earliest due time first, and among timers due
    at the same time the one scheduled first. */
module Timers {
  import opened Wrappers

  datatype Timer<A> = Timer(due: nat, action: A)

  /** The timer that fires first: the earliest due, the first scheduled among equals. */
  function MinDue<A>(timers: seq<Timer<A>>): (k: nat)
    requires timers != []
    ensures k < |timers|
    ensures forall i :: 0 <= i < |timers| ==> timers[k].due <= timers[i].due
    ensures forall i :: 0 <= i < k ==> timers[i].due > timers[k].due
  {
    if |timers| == 1 then 0
    else
      var m := MinDue(timers[..|timers| - 1]);
      if timers[|timers| - 1].due < timers[m].due then |timers| - 1 else m
  }

  /** The timer that is due by time `t`, if any. */
  function Earliest<A>(timers: seq<Timer<A>>, t: nat): (r: Option<nat>)
    ensures r.Some? ==> r.value < |timers| && timers[r.value].due <= t
    ensures r.Some? ==> forall i :: 0 <= i < |timers| ==> timers[r.value].due <= timers[i].due
    ensures r.Some? ==> forall i :: 0 <= i < r.value ==> timers[i].due > timers[r.value].due
    ensures r.None? <==> forall i :: 0 <= i < |timers| ==> timers[i].due > t
  {
    if timers == [] then None
    else
      var k := MinDue(timers);
      if timers[k].due <= t then Some(k) else None
  }

  /** The table once timer `k` has fired. */
  function Without<A>(timers: seq<Timer<A>>, k: nat): (r: seq<Timer<A>>)
    requires k < |timers|
    ensures |r| == |timers| - 1
    ensures forall i :: 0 <= i < |r| ==> r[i] == if i < k then timers[i] else timers[i + 1]
  {
    timers[..k] + timers[k + 1..]
  }

  ghost predicate Scheduled<A>(timers: seq<Timer<A>>, a: A)
  {
    exists i :: 0 <= i < |timers| && timers[i].action == a
  }

  /** Removing timer `k` keeps every other action scheduled. */
  lemma WithoutKeeps<A>(timers: seq<Timer<A>>, k: nat, a: A)
    requires k < |timers| && Scheduled(timers, a) && a != timers[k].action
    ensures Scheduled(Without(timers, k), a)
  {
    var i :| 0 <= i < |timers| && timers[i].action == a;
    if i < k {
      assert Without(timers, k)[i] == timers[i];
    } else {
      assert Without(timers, k)[i - 1] == timers[i];
    }
  }
}
