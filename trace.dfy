/** What a worker observably does, as a sequence of events: a unit of work (a post,
    or in the older scheduler one reported iteration) or a sleep of some duration.
    Both schedulers' workers produce alternations of work and sleep; this module
    defines that shape once and counts its events. */
module Trace {

  datatype Event<P> = Work(payload: P) | Sleep(duration: nat)

  /** Number of work events. */
  function Works<P>(t: seq<Event<P>>): nat {
    if t == [] then 0 else Works(t[..|t| - 1]) + (if t[|t| - 1].Work? then 1 else 0)
  }

  /** Number of sleep events. */
  function Sleeps<P>(t: seq<Event<P>>): nat {
    if t == [] then 0 else Sleeps(t[..|t| - 1]) + (if t[|t| - 1].Sleep? then 1 else 0)
  }

  /** The event at position `j` of an alternation: even positions are the work of
      iteration `j / 2`, odd positions sleep for `d`. */
  function Slot<P>(j: nat, work: nat -> P, d: nat): Event<P> {
    if j % 2 == 0 then Work(work(j / 2)) else Sleep(d)
  }

  /** The first `len` events of work, sleep, work, sleep, ... */
  function Alternation<P>(len: nat, work: nat -> P, d: nat): seq<Event<P>> {
    seq(len, j requires 0 <= j < len => Slot(j, work, d))
  }

  /** Work and sleep never repeat back to back. */
  predicate Alternates<P>(t: seq<Event<P>>) {
    forall j :: 0 <= j < |t| - 1 ==> (t[j].Work? <==> t[j + 1].Sleep?)
  }

  /** One more event extends an alternation by its next slot. */
  lemma AlternationExtend<P>(len: nat, work: nat -> P, d: nat)
    ensures Alternation(len + 1, work, d) == Alternation(len, work, d) + [Slot(len, work, d)]
  {
    var a, b := Alternation(len + 1, work, d), Alternation(len, work, d) + [Slot(len, work, d)];
    assert |a| == |b|;
    forall j | 0 <= j < |a| ensures a[j] == b[j] {
    }
  }

  /** Iteration `k` occupies slots 2k (its work) and 2k + 1 (the sleep after it). */
  lemma SlotsOfIteration<P>(k: nat, work: nat -> P, d: nat)
    ensures Slot(2 * k, work, d) == Work(work(k))
    ensures Slot(2 * k + 1, work, d) == Sleep(d)
  {
    ParityOfDouble(k);
  }

  /** Iteration `k` of a worker appends its work, then its sleep. */
  lemma AlternationIteration<P>(k: nat, work: nat -> P, d: nat)
    ensures Alternation(2 * k + 1, work, d) == Alternation(2 * k, work, d) + [Work(work(k))]
    ensures Alternation(2 * k + 2, work, d) == Alternation(2 * k + 1, work, d) + [Sleep(d)]
  {
    AlternationExtend(2 * k, work, d);
    AlternationExtend(2 * k + 1, work, d);
    SlotsOfIteration(k, work, d);
  }

  /** A whole iteration appends a work event and a sleep, and an alternation of
      whole iterations ends with a sleep. */
  lemma WholeIteration<P>(k: nat, work: nat -> P, d: nat)
    ensures Alternation(2 * k + 2, work, d) == Alternation(2 * k, work, d) + [Work(work(k)), Sleep(d)]
    ensures 0 < k ==> Alternation(2 * k, work, d)[2 * k - 1] == Sleep(d)
  {
    AlternationIteration(k, work, d);
    if 0 < k {
      AlternationIteration(k - 1, work, d);
    }
  }

  /** A prefix of an alternation is a shorter alternation. */
  lemma AlternationPrefix<P>(len: nat, m: nat, work: nat -> P, d: nat)
    requires m <= len
    ensures Alternation(len, work, d)[..m] == Alternation(m, work, d)
  {
  }

  /** An alternation starts with work and alternates; its `k`-th work event is the
      work of iteration `k`. */
  lemma AlternationShape<P>(len: nat, work: nat -> P, d: nat)
    ensures Alternates(Alternation(len, work, d))
    ensures 0 < len ==> Alternation(len, work, d)[0].Work?
    ensures forall k :: 0 <= k && 2 * k < len ==> Alternation(len, work, d)[2 * k] == Work(work(k))
  {
    var t := Alternation(len, work, d);
    forall j | 0 <= j < |t| - 1 ensures t[j].Work? <==> t[j + 1].Sleep? {
      ParityStep(j);
    }
    forall k | 0 <= k && 2 * k < len ensures t[2 * k] == Work(work(k)) {
      ParityOfDouble(k);
    }
  }

  lemma ParityStep(j: nat)
    ensures j % 2 == 0 <==> (j + 1) % 2 != 0
  {
  }

  lemma ParityOfDouble(k: nat)
    ensures (2 * k) % 2 == 0 && (2 * k) / 2 == k
  {
  }

  /** Every work event of an alternation is the work of its iteration. */
  lemma AlternationWorkPayloads<P>(len: nat, work: nat -> P, d: nat)
    ensures forall j :: 0 <= j < len && Alternation(len, work, d)[j].Work? ==>
      Alternation(len, work, d)[j].payload == work(j / 2)
  {
  }

  /** Appending one event adds one to the count of its kind. */
  lemma CountsAppend<P>(t: seq<Event<P>>, e: Event<P>)
    ensures Works(t + [e]) == Works(t) + (if e.Work? then 1 else 0)
    ensures Sleeps(t + [e]) == Sleeps(t) + (if e.Sleep? then 1 else 0)
  {
    assert (t + [e])[..|t|] == t;
  }

  /** `k` whole iterations hold `k` work events and `k` sleeps. */
  lemma {:induction false} IterationCounts<P>(k: nat, work: nat -> P, d: nat)
    ensures Works(Alternation(2 * k, work, d)) == k && Sleeps(Alternation(2 * k, work, d)) == k
  {
    if k == 0 {
      assert Alternation(0, work, d) == [];
    } else {
      var before := Alternation(2 * k - 2, work, d);
      IterationCounts(k - 1, work, d);
      AlternationIteration(k - 1, work, d);
      CountsAppend(before, Work(work(k - 1)));
      CountsAppend(before + [Work(work(k - 1))], Sleep(d));
    }
  }

  /** An alternation of `len` events holds ceil(len/2) work events and floor(len/2)
      sleeps: `k` whole iterations, then possibly one more work event. */
  lemma AlternationCounts<P>(k: nat, work: nat -> P, d: nat)
    ensures Works(Alternation(2 * k, work, d)) == k && Sleeps(Alternation(2 * k, work, d)) == k
    ensures Works(Alternation(2 * k + 1, work, d)) == k + 1 && Sleeps(Alternation(2 * k + 1, work, d)) == k
  {
    IterationCounts(k, work, d);
    AlternationIteration(k, work, d);
    CountsAppend(Alternation(2 * k, work, d), Work(work(k)));
  }

  /** `n` iterations with the last sleep left off: `n` work events, `n - 1` sleeps. */
  lemma TruncatedCounts<P>(n: nat, work: nat -> P, d: nat)
    requires 0 < n
    ensures Works(Alternation(2 * n - 1, work, d)) == n && Sleeps(Alternation(2 * n - 1, work, d)) == n - 1
  {
    AlternationCounts(n - 1, work, d);
    assert 2 * (n - 1) + 1 == 2 * n - 1;
  }

  /** `n` iterations with the last sleep left off start and end with work. */
  lemma TruncatedShape<P>(n: nat, work: nat -> P, d: nat)
    requires 0 < n
    ensures var t := Alternation(2 * n - 1, work, d);
      && Alternates(t)
      && t[0] == Work(work(0)) && t[2 * n - 2] == Work(work(n - 1))
      && forall k :: 0 <= k < n ==> t[2 * k] == Work(work(k))
  {
    AlternationShape(2 * n - 1, work, d);
    SlotsOfIteration(n - 1, work, d);
  }

  /** After any prefix of an alternation the sleeps number the works, or one fewer. */
  lemma PrefixBalance<P>(len: nat, m: nat, work: nat -> P, d: nat)
    requires m <= len
    ensures var p := Alternation(len, work, d)[..m];
      Sleeps(p) == Works(p) || Sleeps(p) + 1 == Works(p)
  {
    AlternationPrefix(len, m, work, d);
    AlternationCounts(m / 2, work, d);
  }
}
