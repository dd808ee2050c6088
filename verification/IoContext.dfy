/** The round-robin choice of event bases.

    Base 0 belongs to the main thread; with more than one thread, connections are spread over the
    others.  The constructor does not set the running index, so it starts as whatever the memory
    holds. */
module IoContext {

  class EventBase {
    constructor () {}
  }

  /** The index used by a call, and the index left for the next one. */
  function Pick(threads: int, index: int): int {
    if threads == 1 then 0 else if index >= threads then 1 else index
  }

  function Advance(threads: int, index: int): int {
    if threads == 1 then index else Pick(threads, index) + 1
  }

  class Context {
    const threads: int
    const bases: array<EventBase?>
    var index: int

    ghost predicate Valid()
      reads bases
    {
      && 0 <= threads == bases.Length
      && (forall i :: 0 <= i < bases.Length ==> bases[i] != null)
      && (forall i, j :: 0 <= i < j < bases.Length ==> bases[i] != bases[j])
    }

    /** `memory` is what the unset index happens to hold. */
    constructor (threads: int, memory: int)
      requires threads >= 0
      ensures Valid() && this.threads == threads && index == memory
      ensures fresh(bases) && forall i :: 0 <= i < bases.Length ==> fresh(bases[i])
    {
      var all := new EventBase?[threads](_ => null);
      for i := 0 to threads
        invariant fresh(all)
        invariant forall k :: 0 <= k < i ==> all[k] != null && fresh(all[k])
        invariant forall j, k :: 0 <= j < k < i ==> all[j] != all[k]
      {
        all[i] := new EventBase();
      }
      this.threads, bases, index := threads, all, memory;
    }

    method MainBase() returns (b: EventBase)
      requires Valid() && threads >= 1
      ensures b == bases[0]
    {
      b := bases[0];
    }

    method IoBase() returns (b: EventBase)
      requires Valid() && threads >= 1 && (threads == 1 || index >= 0)
      modifies this`index
      ensures 0 <= Pick(threads, old(index)) < threads
      ensures b == bases[Pick(threads, old(index))] && index == Advance(threads, old(index))
    {
      if threads == 1 {
        return bases[0];
      }
      if index >= threads {
        index := 1;
      }
      b := bases[index];
      index := index + 1;
    }
  }

  // Any number of calls.

  /** The indices used by `n` calls in a row. */
  function Picks(threads: int, index: int, n: nat): (r: seq<int>)
    ensures |r| == n
    decreases n
  {
    if n == 0 then [] else [Pick(threads, index)] + Picks(threads, Advance(threads, index), n - 1)
  }

  function Count(s: seq<int>, j: int): nat {
    if s == [] then 0 else (if s[0] == j then 1 else 0) + Count(s[1..], j)
  }

  lemma {:induction false} PicksWithin(threads: int, index: int, n: nat, least: int)
    requires threads >= 2 && least <= index && least <= 1
    ensures forall k :: 0 <= k < n ==> least <= Picks(threads, index, n)[k] < threads
    decreases n
  {
    if n == 0 {
    } else {
      PicksWithin(threads, Advance(threads, index), n - 1, least);
    }
  }

  lemma {:induction false} OneThreadPicksMain(index: int, n: nat)
    ensures forall k :: 0 <= k < n ==> Picks(1, index, n)[k] == 0
    decreases n
  {
    if n == 0 {
    } else {
      OneThreadPicksMain(index, n - 1);
    }
  }

  /** Every access stays inside the array if and only if there is one thread, or there are more and the
      index does not start out negative. */
  lemma InBoundsIff(threads: int, index: int, n: nat)
    requires n >= 1
    ensures (forall k :: 0 <= k < n ==> 0 <= Picks(threads, index, n)[k] < threads) <==>
              threads == 1 || (threads >= 2 && index >= 0)
  {
    if threads == 1 {
      OneThreadPicksMain(index, n);
    } else if threads >= 2 && index >= 0 {
      PicksWithin(threads, index, n, 0);
    } else {
      assert Picks(threads, index, n)[0] == Pick(threads, index);
    }
  }

  /** The main base is left alone, and every access is inside the array, if and only if there is more
      than one thread and the index starts at 1 or above. */
  lemma AvoidsMainIff(threads: int, index: int, n: nat)
    requires n >= 1
    ensures (forall k :: 0 <= k < n ==> 1 <= Picks(threads, index, n)[k] < threads) <==> threads >= 2 && index >= 1
  {
    if threads >= 2 && index >= 1 {
      PicksWithin(threads, index, n, 1);
    } else {
      assert Picks(threads, index, n)[0] == Pick(threads, index);
      assert !(1 <= Picks(threads, index, n)[0] < threads);
    }
  }

  /** How many calls it takes until base `j` is used for the first time. */
  function Wait(threads: int, index: int, j: int): int {
    var at := if index >= threads then 1 else index;
    if j >= at then j - at else j - at + (threads - 1)
  }

  lemma TimesMonotone(a: int, b: int, m: int)
    requires m > 0 && a <= b
    ensures m * a <= m * b
  {
  }

  lemma QuotientIsUnique(x: int, m: int, q: int, r: int)
    requires m > 0 && x == m * q + r && 0 <= r < m
    ensures x / m == q
  {
    var q' := x / m;
    assert x == m * q' + x % m;
    if q' > q {
      TimesMonotone(q + 1, q', m);
    } else if q' < q {
      TimesMonotone(q' + 1, q, m);
    }
  }

  lemma DivideStep(x: int, m: int)
    requires m > 0
    ensures (x + m) / m == x / m + 1
  {
    assert x + m == m * (x / m + 1) + x % m;
    QuotientIsUnique(x + m, m, x / m + 1, x % m);
  }

  lemma RemainderIsUnique(x: int, m: int, q: int, r: int)
    requires m > 0 && x == m * q + r && 0 <= r < m
    ensures x % m == r
  {
    QuotientIsUnique(x, m, q, r);
  }

  lemma RemainderStep(x: int, m: int)
    requires m > 0
    ensures (x + m) % m == x % m
  {
    assert x + m == m * (x / m + 1) + x % m;
    RemainderIsUnique(x + m, m, x / m + 1, x % m);
  }

  lemma SmallRemainder(x: int, m: int)
    requires 0 <= x < m
    ensures x % m == x
  {
    RemainderIsUnique(x, m, 0, x);
  }

  /** Which base every call uses: the io bases in turn, from the index on, or from base 1 if the index
      starts beyond the array. */
  lemma {:induction false} InTurn(threads: int, index: int, n: nat, k: nat)
    requires threads >= 2 && index >= 1 && k < n
    ensures Picks(threads, index, n)[k] == 1 + ((if index >= threads then 1 else index) - 1 + k) % (threads - 1)
    decreases n
  {
    var m, at := threads - 1, if index >= threads then 1 else index;
    if k == 0 {
      SmallRemainder(at - 1, m);
    } else {
      InTurn(threads, at + 1, n - 1, k - 1);
      assert Picks(threads, index, n)[k] == Picks(threads, at + 1, n - 1)[k - 1];
      if at + 1 >= threads {
        RemainderStep(k - 1, m);
      }
    }
  }

  /** The exact share of every io base in `n` calls. */
  lemma {:induction false} ExactShare(threads: int, index: int, n: nat, j: int)
    requires threads >= 2 && index >= 1 && 1 <= j < threads
    ensures 0 <= Wait(threads, index, j) < threads - 1
    ensures Count(Picks(threads, index, n), j) == (n + (threads - 2 - Wait(threads, index, j))) / (threads - 1)
    decreases n
  {
    var m, wait := threads - 1, Wait(threads, index, j);
    if n == 0 {
      QuotientIsUnique(m - 1 - wait, m, 0, m - 1 - wait);
    } else {
      var rest := Picks(threads, Advance(threads, index), n - 1);
      ExactShare(threads, Advance(threads, index), n - 1, j);
      assert Picks(threads, index, n)[1..] == rest;
      if Pick(threads, index) == j {
        assert Wait(threads, Advance(threads, index), j) == m - 1;
        DivideStep(n - 1, m);
      } else {
        assert Wait(threads, Advance(threads, index), j) == wait - 1;
      }
    }
  }

  lemma DivideMonotone(x: int, y: int, m: int)
    requires m > 0 && x <= y < x + m
    ensures x / m <= y / m <= x / m + 1
  {
    var q, p := x / m, y / m;
    assert x == m * q + x % m && y == m * p + y % m;
    if p < q {
      TimesMonotone(p + 1, q, m);
    } else if p > q + 1 {
      TimesMonotone(q + 2, p, m);
    }
  }

  lemma FairFromOne(threads: int, index: int, n: nat, j: int, k: int)
    requires threads >= 2 && index >= 1 && 1 <= j < threads && 1 <= k < threads
    ensures Count(Picks(threads, index, n), j) <= Count(Picks(threads, index, n), k) + 1
  {
    var m := threads - 1;
    ExactShare(threads, index, n, j);
    ExactShare(threads, index, n, k);
    DivideMonotone(n, n + (m - 1 - Wait(threads, index, j)), m);
    DivideMonotone(n, n + (m - 1 - Wait(threads, index, k)), m);
  }

  /** After any number of calls, no io base has been used more than once more than another.  An index
      that starts at 0 costs one use of the main base and is fair from there. */
  lemma RoundRobinIsFair(threads: int, index: int, n: nat, j: int, k: int)
    requires threads >= 2 && index >= 0 && 1 <= j < threads && 1 <= k < threads
    ensures Count(Picks(threads, index, n), j) <= Count(Picks(threads, index, n), k) + 1
  {
    if index >= 1 {
      FairFromOne(threads, index, n, j, k);
    } else if n > 0 {
      assert Picks(threads, index, n) == [0] + Picks(threads, 1, n - 1);
      assert Picks(threads, index, n)[1..] == Picks(threads, 1, n - 1);
      FairFromOne(threads, 1, n - 1, j, k);
    }
  }
}
