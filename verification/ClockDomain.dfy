/** The clock-domain crosser: so many callbacks of the slow clock for each update of the fast one. */
module ClockDomain {
  import opened Basics

  // ceil(n * clock1 / clock2)
  function CallbacksDue(n: nat, clock1: nat, clock2: nat): nat
    requires clock2 >= 1
  {
    (n * clock1 + clock2 - 1) / clock2
  }

  lemma CeilUnique(x: nat, q: nat, d: nat, slack: nat)
    requires d >= 1 && slack < d && q * d == x + slack
    ensures (x + d - 1) / d == q
  {
    DivModUnique(x + d - 1, q, d - 1 - slack, d);
  }

  lemma OneMore(k: nat, m: nat)
    ensures (k + 1) * m == k * m + m
  {
  }

  class ClockDomainCrosser {
    const clock1: nat
    const clock2: nat
    var counter1: nat
    var counter2: nat
    ghost var updates: nat
    ghost var callbacks: nat

    // Both counters lag behind the exact products by the same amount, and the second is ahead by less
    // than one of its own ticks.
    ghost predicate Valid()
      reads this
    {
      && clock1 >= 1 && clock2 >= 1
      && callbacks * clock2 - counter2 == updates * clock1 - counter1
      && counter1 <= counter2 < counter1 + clock2
    }

    constructor (clock1: nat, clock2: nat)
      requires clock1 >= 1 && clock2 >= 1
      ensures Valid() && this.clock1 == clock1 && this.clock2 == clock2 && updates == 0 && callbacks == 0
    {
      this.clock1, this.clock2 := clock1, clock2;
      counter1, counter2 := 0, 0;
      updates, callbacks := 0, 0;
    }

    // One update; calls is how often it ran the callback.
    method Update() returns (calls: nat)
      requires Valid()
      modifies this
      ensures Valid() && updates == old(updates) + 1 && callbacks == old(callbacks) + calls
      ensures callbacks == CallbacksDue(updates, clock1, clock2)
    {
      updates := updates + 1;
      OneMore(old(updates), clock1);
      calls := 0;
      if clock1 == clock2 {
        calls := 1;
        callbacks := callbacks + 1;
        OneMore(old(callbacks), clock2);
        Due();
        return;
      }
      counter1 := counter1 + clock1;
      while counter2 < counter1
        invariant callbacks == old(callbacks) + calls && updates == old(updates) + 1
        invariant callbacks * clock2 - counter2 == updates * clock1 - counter1
        invariant counter2 < counter1 + clock2
        modifies this`counter2, this`callbacks
        decreases counter1 + clock2 - counter2
      {
        OneMore(callbacks, clock2);
        counter2 := counter2 + clock2;
        calls := calls + 1;
        callbacks := callbacks + 1;
      }
      if counter1 == counter2 { counter1, counter2 := 0, 0; }
      Due();
    }

    // However the counters were reset, the callbacks so far are the updates scaled and rounded up.
    lemma Due()
      requires Valid()
      ensures callbacks == CallbacksDue(updates, clock1, clock2)
    {
      CeilUnique(updates * clock1, callbacks, clock2, counter2 - counter1);
    }
  }

  // Any number of updates from a new crosser.
  method Drive(clock1: nat, clock2: nat, n: nat) returns (total: nat)
    requires clock1 >= 1 && clock2 >= 1
    ensures total == CallbacksDue(n, clock1, clock2)
  {
    var crosser := new ClockDomainCrosser(clock1, clock2);
    total := 0;
    NoneDue(clock1, clock2);
    for i := 0 to n
      invariant fresh(crosser) && crosser.Valid() && crosser.clock1 == clock1 && crosser.clock2 == clock2
      invariant crosser.updates == i && crosser.callbacks == total == CallbacksDue(i, clock1, clock2)
    {
      var calls := crosser.Update();
      total := total + calls;
    }
  }

  lemma NoneDue(clock1: nat, clock2: nat)
    requires clock2 >= 1
    ensures CallbacksDue(0, clock1, clock2) == 0
  {
    CeilUnique(0, 0, clock2, 0);
  }
}
