/**
 How long a claimed batch takes. The entries queue, in order, for the slots of a
 semaphore: each starts when the first slot is free and holds it for as long as its
 delivery lasts. Times count from the claim.
 */
module Schedule {
  /** The slot that is free first. */
  function Earliest(free: seq<int>): (k: nat)
    requires free != []
    ensures k < |free| && forall j | 0 <= j < |free| :: free[k] <= free[j]
  {
    if |free| == 1 then 0
    else
      var k := Earliest(free[..|free| - 1]);
      if free[|free| - 1] < free[k] then |free| - 1 else k
  }

  /** When each of the `workers` slots is free, after deliveries that last as `lasts` says. */
  function FreeAfter(workers: nat, lasts: seq<int>): (free: seq<int>)
    requires 1 <= workers
    ensures |free| == workers
  {
    if lasts == [] then seq(workers, _ => 0)
    else
      var free := FreeAfter(workers, lasts[..|lasts| - 1]);
      free[Earliest(free) := free[Earliest(free)] + lasts[|lasts| - 1]]
  }

  function Start(workers: nat, lasts: seq<int>, i: nat): int
    requires 1 <= workers && i < |lasts|
  {
    var free := FreeAfter(workers, lasts[..i]);
    free[Earliest(free)]
  }

  function End(workers: nat, lasts: seq<int>, i: nat): int
    requires 1 <= workers && i < |lasts|
  {
    Start(workers, lasts, i) + lasts[i]
  }

  /** The loop of `dispatchBatch` that acquires a slot for each entry: when each one starts. */
  method Acquire(workers: nat, lasts: seq<int>) returns (starts: seq<int>)
    requires 1 <= workers
    ensures |starts| == |lasts| && forall i | 0 <= i < |lasts| :: starts[i] == Start(workers, lasts, i)
  {
    var free := seq(workers, _ => 0);
    starts := [];
    for i := 0 to |lasts|
      invariant |starts| == i && free == FreeAfter(workers, lasts[..i])
      invariant forall j | 0 <= j < i :: starts[j] == Start(workers, lasts, j)
    {
      var slot := Earliest(free);
      starts := starts + [free[slot]];
      free := free[slot := free[slot] + lasts[i]];
      assert lasts[..i + 1][..i] == lasts[..i];
    }
  }

  ghost predicate EachLasts(lasts: seq<int>, longest: nat) {
    forall i | 0 <= i < |lasts| :: 0 <= lasts[i] <= longest
  }

  /** Entry i is number `place` of round `number`, with one entry per worker in a round. */
  datatype Round = Round(number: nat, place: nat)

  function RoundOf(i: nat, workers: nat): (r: Round)
    requires 1 <= workers
    ensures r.place < workers
  {
    if i == 0 then Round(0, 0)
    else
      var r := RoundOf(i - 1, workers);
      if r.place + 1 < workers then Round(r.number, r.place + 1) else Round(r.number + 1, 0)
  }

  lemma {:induction false} RoundIsQuotient(i: nat, workers: nat)
    requires 1 <= workers
    ensures var r := RoundOf(i, workers); i == r.number * workers + r.place
  {
    if i > 0 {
      RoundIsQuotient(i - 1, workers);
      Distribute(RoundOf(i - 1, workers).number, workers);
    }
  }

  /** ceil(n / workers). */
  function CeilDiv(n: nat, workers: nat): nat
    requires 1 <= workers
  {
    if n == 0 then 0 else RoundOf(n - 1, workers).number + 1
  }

  lemma AtMostOne(q: nat, place: nat, workers: nat)
    requires q * workers + place < 2 * workers
    ensures q <= 1
  {
    if 2 <= q {
      Distribute(q - 1, workers);
      Distribute(q - 2, workers);
      assert false;
    }
  }

  /** A batch of at most twice the workers takes two rounds at most. */
  lemma {:induction false} TwoRounds(n: nat, workers: nat, longest: nat, lease: nat)
    requires 1 <= n <= 2 * workers && longest <= lease / 2
    ensures CeilDiv(n, workers) * longest <= lease
  {
    RoundIsQuotient(n - 1, workers);
    var r := RoundOf(n - 1, workers);
    AtMostOne(r.number, r.place, workers);
    assert CeilDiv(n, workers) == r.number + 1;
    Distribute(r.number, longest);
    assert r.number * longest <= longest by {
      if r.number == 0 {
        assert r.number * longest == 0;
      }
    }
  }

  lemma Distribute(q: int, d: int)
    ensures (q + 1) * d == q * d + d
  {
  }

  /** When the round of entry i begins if every delivery lasts the longest. */
  function Begins(i: nat, workers: nat, longest: nat): int
    requires 1 <= workers
  {
    if i == 0 then 0
    else Begins(i - 1, workers, longest) + if RoundOf(i - 1, workers).place + 1 < workers then 0 else longest
  }

  lemma {:induction false} BeginsIs(i: nat, workers: nat, longest: nat)
    requires 1 <= workers
    ensures Begins(i, workers, longest) == RoundOf(i, workers).number * longest
  {
    if i > 0 {
      BeginsIs(i - 1, workers, longest);
      Distribute(RoundOf(i - 1, workers).number, longest);
    }
  }

  lemma {:induction false} BeginsGrows(i: nat, j: nat, workers: nat, longest: nat)
    requires 1 <= workers && i <= j
    ensures Begins(i, workers, longest) <= Begins(j, workers, longest)
    decreases j
  {
    if i < j {
      BeginsGrows(i, j - 1, workers, longest);
    }
  }

  /** The end of the last round. */
  lemma LastRoundEnds(n: nat, workers: nat, longest: nat)
    requires 1 <= workers && 1 <= n
    ensures Begins(n - 1, workers, longest) + longest == CeilDiv(n, workers) * longest
  {
    BeginsIs(n - 1, workers, longest);
    Distribute(RoundOf(n - 1, workers).number, longest);
  }

  lemma SmallerBatch(m: nat, n: nat, workers: nat, longest: nat)
    requires 1 <= workers && m <= n
    ensures CeilDiv(m, workers) * longest <= CeilDiv(n, workers) * longest
  {
    if 0 < m {
      LastRoundEnds(m, workers, longest);
      LastRoundEnds(n, workers, longest);
      BeginsGrows(m - 1, n - 1, workers, longest);
    }
  }

  /* ----- counting slots ----- */

  ghost function Indices(n: nat): (r: set<nat>)
    ensures |r| == n && forall k: nat :: k in r <==> k < n
  {
    if n == 0 then {} else Indices(n - 1) + {n - 1}
  }

  ghost function SlotsBy(free: seq<int>, t: int): set<nat> {
    set k | k in Indices(|free|) && free[k] <= t
  }

  lemma AllSlots(free: seq<int>, t: int)
    requires forall k | 0 <= k < |free| :: free[k] <= t
    ensures |SlotsBy(free, t)| == |free|
  {
    assert SlotsBy(free, t) == Indices(|free|);
  }

  predicate IsEarliest(free: seq<int>, slot: nat) {
    slot < |free| && forall j | 0 <= j < |free| :: free[slot] <= free[j]
  }

  lemma {:induction false} Smaller(a: set<nat>, b: set<nat>)
    requires a <= b
    ensures |a| <= |b|
    decreases a
  {
    if a != {} {
      var x :| x in a;
      Smaller(a - {x}, b - {x});
    }
  }

  lemma OneSlotLess(free: seq<int>, slot: nat, until: int, t: int)
    requires slot < |free|
    ensures |SlotsBy(free[slot := until], t)| >= |SlotsBy(free, t)| - 1
    ensures free[slot] <= t < until ==> |SlotsBy(free[slot := until], t)| == |SlotsBy(free, t)| - 1
  {
    var was, now := SlotsBy(free, t), SlotsBy(free[slot := until], t);
    Smaller(was - {slot}, now);
    if free[slot] <= t < until {
      assert now == was - {slot};
    }
  }

  /* ----- upper bound ----- */

  /** In a round that began by `t`, all slots but those the round has used are free at `t`, and all a round later. */
  ghost predicate InRound(free: seq<int>, workers: nat, t: int, place: nat, longest: nat) {
    && |free| == workers && place < workers
    && |SlotsBy(free, t)| + place >= workers
    && forall k | 0 <= k < |free| :: free[k] <= t + longest
  }

  /** The round and place after (t, place). */
  predicate Follows(workers: nat, longest: nat, t: int, place: nat, t': int, place': nat) {
    if place + 1 < workers then t' == t && place' == place + 1 else t' == t + longest && place' == 0
  }

  lemma NextInRound(
    free: seq<int>, slot: nat, next: seq<int>, workers: nat, t: int, place: nat, t': int, place': nat,
    longest: nat, last: int)
    requires InRound(free, workers, t, place, longest) && 0 <= last <= longest
    requires IsEarliest(free, slot) && next == free[slot := free[slot] + last]
    requires Follows(workers, longest, t, place, t', place')
    ensures InRound(next, workers, t', place', longest)
  {
    OneSlotLess(free, slot, free[slot] + last, t);
    if place + 1 == workers {
      AllSlots(next, t + longest);
    }
  }

  lemma {:induction false} InRounds(workers: nat, lasts: seq<int>, longest: nat)
    requires 1 <= workers && EachLasts(lasts, longest)
    ensures var r := RoundOf(|lasts|, workers);
      InRound(FreeAfter(workers, lasts), workers, Begins(|lasts|, workers, longest), r.place, longest)
  {
    if lasts == [] {
      AllSlots(FreeAfter(workers, lasts), 0);
    } else {
      var front, i := lasts[..|lasts| - 1], |lasts| - 1;
      InRounds(workers, front, longest);
      var free := FreeAfter(workers, front);
      NextInRound(free, Earliest(free), FreeAfter(workers, lasts), workers,
                  Begins(i, workers, longest), RoundOf(i, workers).place,
                  Begins(i + 1, workers, longest), RoundOf(i + 1, workers).place, longest, lasts[i]);
    }
  }

  /** Entry i starts within as many longest deliveries as there are full rounds before it. */
  lemma {:induction false} StartsWithin(workers: nat, lasts: seq<int>, longest: nat, i: nat)
    requires 1 <= workers && EachLasts(lasts, longest) && i < |lasts|
    ensures Start(workers, lasts, i) <= RoundOf(i, workers).number * longest
  {
    InRounds(workers, lasts[..i], longest);
    var free := FreeAfter(workers, lasts[..i]);
    BeginsIs(i, workers, longest);
  }

  lemma EndsWithin(workers: nat, lasts: seq<int>, longest: nat, i: nat)
    requires 1 <= workers && EachLasts(lasts, longest) && i < |lasts|
    ensures End(workers, lasts, i) <= CeilDiv(|lasts|, workers) * longest
  {
    StartsWithin(workers, lasts, longest, i);
    BeginsIs(i, workers, longest);
    BeginsGrows(i, |lasts| - 1, workers, longest);
    LastRoundEnds(|lasts|, workers, longest);
  }

  /* ----- and it is reached ----- */

  /** Every delivery lasting the longest, exactly the slots that the round has used are busy after `t`. */
  ghost predicate LockStep(free: seq<int>, workers: nat, t: int, place: nat, longest: nat) {
    && |free| == workers && place < workers
    && |SlotsBy(free, t)| + place == workers
    && forall k | 0 <= k < |free| :: free[k] == t || free[k] == t + longest
  }

  lemma NextLockStep(
    free: seq<int>, slot: nat, next: seq<int>, workers: nat, t: int, place: nat, t': int, place': nat, longest: nat)
    requires LockStep(free, workers, t, place, longest) && 1 <= longest
    requires IsEarliest(free, slot) && next == free[slot := free[slot] + longest]
    requires Follows(workers, longest, t, place, t', place')
    ensures LockStep(next, workers, t', place', longest)
  {
    OneSlotLess(free, slot, t + longest, t);
    if place + 1 == workers {
      AllSlots(next, t + longest);
      forall k | 0 <= k < |next| ensures next[k] == t + longest {
        assert k in Indices(|next|) && k !in SlotsBy(next, t);
      }
    }
  }

  lemma {:induction false} LockStepStart(workers: nat, longest: nat)
    requires 1 <= workers
    ensures LockStep(FreeAfter(workers, []), workers, 0, 0, longest)
  {
    AllSlots(FreeAfter(workers, []), 0);
  }

  lemma {:induction false} LockStepOneMore(workers: nat, lasts: seq<int>, longest: nat)
    requires 1 <= workers && 1 <= longest && lasts != [] && lasts[|lasts| - 1] == longest
    requires var i := |lasts| - 1;
      LockStep(FreeAfter(workers, lasts[..i]), workers, Begins(i, workers, longest), RoundOf(i, workers).place, longest)
    ensures LockStep(FreeAfter(workers, lasts), workers,
                     Begins(|lasts|, workers, longest), RoundOf(|lasts|, workers).place, longest)
  {
    var i := |lasts| - 1;
    var free := FreeAfter(workers, lasts[..i]);
    NextLockStep(free, Earliest(free), FreeAfter(workers, lasts), workers,
                 Begins(i, workers, longest), RoundOf(i, workers).place,
                 Begins(i + 1, workers, longest), RoundOf(i + 1, workers).place, longest);
  }

  lemma {:induction false} LockSteps(workers: nat, lasts: seq<int>, longest: nat)
    requires 1 <= workers && 1 <= longest
    requires forall j | 0 <= j < |lasts| :: lasts[j] == longest
    ensures LockStep(FreeAfter(workers, lasts), workers,
                     Begins(|lasts|, workers, longest), RoundOf(|lasts|, workers).place, longest)
  {
    if lasts == [] {
      LockStepStart(workers, longest);
    } else {
      LockSteps(workers, lasts[..|lasts| - 1], longest);
      LockStepOneMore(workers, lasts, longest);
    }
  }

  /** If every delivery before it lasts the longest, an entry starts when its round begins. */
  lemma {:induction false} StartsExactly(workers: nat, lasts: seq<int>, longest: nat, i: nat)
    requires 1 <= workers && 1 <= longest && i < |lasts|
    requires forall j | 0 <= j < i :: lasts[j] == longest
    ensures Start(workers, lasts, i) == Begins(i, workers, longest)
  {
    LockSteps(workers, lasts[..i], longest);
    var free := FreeAfter(workers, lasts[..i]);
  }

  lemma {:induction false} WorstCase(workers: nat, lasts: seq<int>, longest: nat)
    requires 1 <= workers && 1 <= longest && lasts != []
    requires forall j | 0 <= j < |lasts| :: lasts[j] == longest
    ensures End(workers, lasts, |lasts| - 1) == CeilDiv(|lasts|, workers) * longest
  {
    StartsExactly(workers, lasts, longest, |lasts| - 1);
    LastRoundEnds(|lasts|, workers, longest);
  }

  lemma {:induction false} FreeLater(workers: nat, lasts: seq<int>, longest: nat)
    requires 1 <= workers && EachLasts(lasts, longest)
    ensures forall k | 0 <= k < workers :: 0 <= FreeAfter(workers, lasts)[k]
  {
    if lasts != [] {
      FreeLater(workers, lasts[..|lasts| - 1], longest);
    }
  }

  lemma {:induction false} StartsLater(workers: nat, lasts: seq<int>, longest: nat, i: nat)
    requires 1 <= workers && EachLasts(lasts, longest) && i < |lasts|
    ensures 0 <= Start(workers, lasts, i) <= End(workers, lasts, i)
  {
    FreeLater(workers, lasts[..i], longest);
  }

  /** A batch of `n` entries is over by `deadline`, however long each of its deliveries takes, up to `longest`. */
  ghost predicate AlwaysOverBy(workers: nat, n: nat, longest: nat, deadline: int)
    requires 1 <= workers
  {
    forall lasts, i | |lasts| == n && EachLasts(lasts, longest) && 0 <= i < n :: End(workers, lasts, i) <= deadline
  }

  /** Exactly when ceil(n / workers) of the longest deliveries are. */
  lemma BatchFitsIff(workers: nat, n: nat, longest: nat, deadline: nat)
    requires 1 <= workers
    ensures AlwaysOverBy(workers, n, longest, deadline) <==> CeilDiv(n, workers) * longest <= deadline
  {
    forall lasts, i | |lasts| == n && EachLasts(lasts, longest) && 0 <= i < n
      ensures End(workers, lasts, i) <= CeilDiv(n, workers) * longest
    {
      EndsWithin(workers, lasts, longest, i);
    }
    if 0 < n && 0 < longest {
      var worst := seq(n, _ => longest as int);
      WorstCase(workers, worst, longest);
      assert EachLasts(worst, longest);
    }
  }
}
