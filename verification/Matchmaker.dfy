/**
 The matchmaking queue: one bucket per time control, each sorted by rating, a reverse index
 from connection to bucket, and a cached size.  A sweep pairs neighbours in rating order.
 */
module Matchmaking {

  datatype TimeControl = TimeControl(base: int, increment: int)

  datatype Entry = Entry(fd: int, player: int, dbId: int, elo: int, tc: TimeControl, enqueued: int)

  /** Two paired entries and the clock reading at which they were found acceptable. */
  datatype Match = Match(white: Entry, black: Entry, now: int)

  const NANOS_PER_SECOND := 1_000_000_000

  /** Division that truncates toward zero. */
  function Trunc(a: int, b: int): int
    requires b > 0
  {
    if a >= 0 then a / b else -((-a) / b)
  }

  /** The rating difference an entry accepts: 200, and 50 more for every ten seconds of waiting. */
  function AcceptableRange(e: Entry, now: int): int {
    200 + Trunc(Trunc(now - e.enqueued, NANOS_PER_SECOND), 10) * 50
  }

  /** The longer the wait the wider the range: 200 at first, 50 more with every ten seconds. */
  lemma RangeGrows(e: Entry, now: int, later: int)
    requires now <= later
    ensures AcceptableRange(e, now) <= AcceptableRange(e, later)
    ensures AcceptableRange(e, e.enqueued) == 200
    ensures now >= e.enqueued ==> AcceptableRange(e, now + 10 * NANOS_PER_SECOND) == AcceptableRange(e, now) + 50
  {
    SecondsGrow(now - e.enqueued, later - e.enqueued);
    TensGrow(Trunc(now - e.enqueued, NANOS_PER_SECOND), Trunc(later - e.enqueued, NANOS_PER_SECOND));
    hide Trunc;
    NoWait();
    if now >= e.enqueued {
      TenMore(now - e.enqueued);
    }
  }

  lemma SecondsGrow(a: int, b: int)
    requires a <= b
    ensures Trunc(a, NANOS_PER_SECOND) <= Trunc(b, NANOS_PER_SECOND)
  {
  }

  lemma TensGrow(a: int, b: int)
    requires a <= b
    ensures Trunc(a, 10) <= Trunc(b, 10)
  {
  }

  lemma NoWait()
    ensures Trunc(Trunc(0, NANOS_PER_SECOND), 10) == 0
  {
  }

  lemma TenMore(wait: nat)
    ensures Trunc(Trunc(wait + 10 * NANOS_PER_SECOND, NANOS_PER_SECOND), 10) == Trunc(Trunc(wait, NANOS_PER_SECOND), 10) + 1
  {
    assert Trunc(wait + 10 * NANOS_PER_SECOND, NANOS_PER_SECOND) == Trunc(wait, NANOS_PER_SECOND) + 10;
  }

  function Gap(a: Entry, b: Entry): int {
    if a.elo >= b.elo then a.elo - b.elo else b.elo - a.elo
  }

  predicate Compatible(a: Entry, b: Entry, now: int) {
    Gap(a, b) <= AcceptableRange(a, now) && Gap(a, b) <= AcceptableRange(b, now)
  }

  predicate Sorted(b: seq<Entry>) {
    forall i, j :: 0 <= i < j < |b| ==> b[i].elo <= b[j].elo
  }

  predicate DistinctFds(b: seq<Entry>) {
    forall i, j :: 0 <= i < j < |b| ==> b[i].fd != b[j].fd
  }

  // ---------------------------------------------------------------- the sweep of one bucket

  datatype Swept = Swept(matches: seq<Match>, rest: seq<Entry>)

  /** Neighbours are tried from the lowest rating up, one clock reading per try. */
  function Sweep(b: seq<Entry>, clock: nat -> int, k: nat): Swept
    decreases |b|
  {
    if |b| < 2 then Swept([], b)
    else if Compatible(b[0], b[1], clock(k)) then
      var s := Sweep(b[2..], clock, k + 1);
      Swept([Match(b[0], b[1], clock(k))] + s.matches, s.rest)
    else
      var s := Sweep(b[1..], clock, k + 1);
      Swept(s.matches, [b[0]] + s.rest)
  }

  function Paired(ms: seq<Match>): multiset<Entry> {
    if ms == [] then multiset{} else multiset{ms[0].white, ms[0].black} + Paired(ms[1..])
  }

  lemma SplitHead(b: seq<Entry>)
    requires |b| >= 2
    ensures multiset(b) == multiset{b[0]} + multiset(b[1..])
    ensures multiset(b) == multiset{b[0], b[1]} + multiset(b[2..])
  {
    assert b == [b[0]] + b[1..];
    assert b == [b[0], b[1]] + b[2..];
  }

  lemma PairedHead(m: Match, ms: seq<Match>)
    ensures Paired([m] + ms) == multiset{m.white, m.black} + Paired(ms)
  {
    assert ([m] + ms)[1..] == ms;
  }

  /** Every entry is either paired, exactly once, or still waiting. */
  lemma {:induction false} SweepPartitions(b: seq<Entry>, clock: nat -> int, k: nat)
    ensures var s := Sweep(b, clock, k); multiset(b) == Paired(s.matches) + multiset(s.rest)
    decreases |b|
  {
    hide Compatible, Paired;
    if |b| >= 2 {
      SplitHead(b);
      if Compatible(b[0], b[1], clock(k)) {
        SweepPartitions(b[2..], clock, k + 1);
        PairedHead(Match(b[0], b[1], clock(k)), Sweep(b[2..], clock, k + 1).matches);
      } else {
        SweepPartitions(b[1..], clock, k + 1);
        assert multiset([b[0]] + Sweep(b[1..], clock, k + 1).rest) == multiset{b[0]} + multiset(Sweep(b[1..], clock, k + 1).rest);
      }
    } else {
      NobodyPaired();
    }
  }

  lemma NobodyPaired()
    ensures Paired([]) == multiset{}
  {
  }

  /** Each pair was acceptable to both sides at the reading that paired it. */
  lemma {:induction false} SweptPairsAreCompatible(b: seq<Entry>, clock: nat -> int, k: nat, m: Match)
    requires m in Sweep(b, clock, k).matches
    ensures m.white in b && m.black in b && Compatible(m.white, m.black, m.now)
    decreases |b|
  {
    hide Compatible;
    if Compatible(b[0], b[1], clock(k)) {
      if m != Match(b[0], b[1], clock(k)) {
        SweptPairsAreCompatible(b[2..], clock, k + 1, m);
      }
    } else {
      SweptPairsAreCompatible(b[1..], clock, k + 1, m);
    }
  }

  predicate Apart(m: Match, n: Match) {
    m.white.fd != n.white.fd && m.white.fd != n.black.fd && m.black.fd != n.white.fd && m.black.fd != n.black.fd
  }

  /** No connection is in two matches of a sweep, or twice in one. */
  lemma {:induction false} MatchesShareNobody(b: seq<Entry>, clock: nat -> int, k: nat, i: nat, j: nat)
    requires DistinctFds(b) && i <= j < |Sweep(b, clock, k).matches|
    ensures var ms := Sweep(b, clock, k).matches;
      ms[i].white.fd != ms[i].black.fd && (i < j ==> Apart(ms[i], ms[j]))
    decreases |b|
  {
    hide Compatible;
    if Compatible(b[0], b[1], clock(k)) {
      if 0 < i {
        MatchesShareNobody(b[2..], clock, k + 1, i - 1, j - 1);
      } else if 0 < j {
        SweptPairsAreCompatible(b[2..], clock, k + 1, Sweep(b[2..], clock, k + 1).matches[j - 1]);
      }
    } else {
      MatchesShareNobody(b[1..], clock, k + 1, i, j);
    }
  }

  /** The ranges stand still during the sweep. */
  ghost predicate Steady(b: seq<Entry>, clock: nat -> int, k: nat, now: int) {
    forall e, i: nat {:trigger AcceptableRange(e, clock(i))} :: e in b && i >= k ==> AcceptableRange(e, clock(i)) == AcceptableRange(e, now)
  }

  /** No entry is pickier than both an entry rated below it and an entry rated above it. */
  ghost predicate NoPickyMiddle(b: seq<Entry>, now: int) {
    forall i, j, l :: 0 <= i < j < l < |b| ==>
      AcceptableRange(b[j], now) >= AcceptableRange(b[i], now) || AcceptableRange(b[j], now) >= AcceptableRange(b[l], now)
  }

  predicate NoPairLeft(b: seq<Entry>, now: int) {
    forall i, j :: 0 <= i < j < |b| ==> !Compatible(b[i], b[j], now)
  }

  // ---- when a sweep leaves no pair

  /** The ranges of a bucket, in rating order. */
  function Ranges(b: seq<Entry>, now: int): (r: seq<int>)
    ensures |r| == |b| && forall i :: 0 <= i < |b| ==> r[i] == AcceptableRange(b[i], now)
  {
    seq(|b|, i requires 0 <= i < |b| => AcceptableRange(b[i], now))
  }

  /** The least gap that two neighbours with these ranges refuse. */
  function Fence(x: int, y: int): nat {
    var m := if x <= y then x else y;
    if m < 0 then 0 else m + 1
  }

  /** Two neighbours behind `a` may be paired at no distance at all. */
  predicate PairsFreely(r: seq<int>, a: nat, i: nat)
    requires i + 1 < |r|
  {
    i > a && r[i] >= 0 && r[i + 1] >= 0
  }

  /**
   The least distance in rating from the entry at `a`, passed over by a sweep, to the entry at
   `i`, when the sweep arrives there: each entry passed over on the way costs a fence, each
   pair nothing.
   */
  function LeastSpan(r: seq<int>, a: nat, i: nat): nat
    requires a <= i < |r|
    decreases i
  {
    if i == a then 0 else
      var step := LeastSpan(r, a, i - 1) + Fence(r[i - 1], r[i]);
      if JumpsTo(r, a, i) then LeastSpan(r, a, i - 2) else step
  }

  /** Arriving at `i` behind a pair is shorter than stepping over its neighbour. */
  predicate JumpsTo(r: seq<int>, a: nat, i: nat)
    requires a < i < |r|
    decreases i, 0
  {
    i >= a + 2 && PairsFreely(r, a, i - 2) && LeastSpan(r, a, i - 2) < LeastSpan(r, a, i - 1) + Fence(r[i - 1], r[i])
  }

  /** Two entries that accept each other over the least distance between them. */
  predicate Hides(r: seq<int>, a: nat, b: nat)
    requires a < b < |r|
  {
    LeastSpan(r, a, b) <= r[a] && LeastSpan(r, a, b) <= r[b]
  }

  ghost predicate CanHide(r: seq<int>) {
    exists a: nat, b: nat :: a < b < |r| && Hides(r, a, b)
  }

  lemma GapOfSorted(b: seq<Entry>, i: nat, j: nat)
    requires Sorted(b) && i <= j < |b|
    ensures Gap(b[i], b[j]) == b[j].elo - b[i].elo >= 0
  {
  }

  lemma SteadyCompatible(b: seq<Entry>, clock: nat -> int, k: nat, now: int, kk: nat, i: nat, j: nat)
    requires Sorted(b) && Steady(b, clock, k, now) && kk >= k && i <= j < |b|
    ensures Compatible(b[i], b[j], clock(kk)) <==> Compatible(b[i], b[j], now)
    ensures Compatible(b[i], b[j], now) <==>
      b[j].elo - b[i].elo <= Ranges(b, now)[i] && b[j].elo - b[i].elo <= Ranges(b, now)[j]
  {
    hide AcceptableRange;
    GapOfSorted(b, i, j);
    assert b[i] in b && b[j] in b;
    assert AcceptableRange(b[i], clock(kk)) == AcceptableRange(b[i], now);
    assert AcceptableRange(b[j], clock(kk)) == AcceptableRange(b[j], now);
  }

  lemma SweepOfSuffix(b: seq<Entry>, clock: nat -> int, i: nat, kk: nat)
    requires i < |b|
    ensures Sweep(b[i..], clock, kk).rest ==
      if i + 1 == |b| then [b[i]]
      else if Compatible(b[i], b[i + 1], clock(kk)) then (if i + 2 == |b| then [] else Sweep(b[i + 2..], clock, kk + 1).rest)
      else [b[i]] + Sweep(b[i + 1..], clock, kk + 1).rest
  {
    hide Compatible;
    if i + 1 < |b| {
      assert b[i..][1..] == b[i + 1..] && b[i..][2..] == b[i + 2..];
    }
  }

  lemma InOrder(b: seq<Entry>, i: nat)
    requires Sorted(b) && i + 1 < |b|
    ensures b[i].elo <= b[i + 1].elo && (i + 2 < |b| ==> b[i + 1].elo <= b[i + 2].elo)
  {
  }

  /** One fence further, or over a pair. */
  lemma NextSpan(r: seq<int>, a: nat, i: nat)
    requires a < i && i + 1 < |r|
    ensures LeastSpan(r, a, i + 1) <= LeastSpan(r, a, i) + Fence(r[i], r[i + 1])
    ensures i + 2 < |r| && r[i] >= 0 && r[i + 1] >= 0 ==> LeastSpan(r, a, i + 2) <= LeastSpan(r, a, i)
  {
    hide Fence;
  }

  /** Whatever a sweep leaves behind an entry passed over lies at least the least distance away. */
  lemma {:induction false} LeftAtADistance(b: seq<Entry>, clock: nat -> int, k: nat, now: int, a: nat, i: nat, kk: nat, e: Entry)
      returns (j: nat)
    requires Sorted(b) && Steady(b, clock, k, now) && a < i < |b| && kk >= k
    requires LeastSpan(Ranges(b, now), a, i) <= b[i].elo - b[a].elo
    requires e in Sweep(b[i..], clock, kk).rest
    ensures a < j < |b| && e == b[j] && LeastSpan(Ranges(b, now), a, j) <= b[j].elo - b[a].elo
    decreases |b| - i
  {
    hide AcceptableRange, Compatible, Ranges, Steady, Sorted, LeastSpan, Sweep, Gap;
    j := i;
    SweepOfSuffix(b, clock, i, kk);
    if e != b[i] && i + 1 < |b| {
      SteadyCompatible(b, clock, k, now, kk, i, i + 1);
      NextSpan(Ranges(b, now), a, i);
      InOrder(b, i);
      if Compatible(b[i], b[i + 1], clock(kk)) {
        if i + 2 < |b| {
          j := LeftAtADistance(b, clock, k, now, a, i + 2, kk + 1, e);
        }
      } else {
        j := LeftAtADistance(b, clock, k, now, a, i + 1, kk + 1, e);
      }
    }
  }

  lemma {:induction false} NoPairLeftFrom(b: seq<Entry>, clock: nat -> int, k: nat, now: int, i: nat, kk: nat)
    requires Sorted(b) && Steady(b, clock, k, now) && i <= |b| && kk >= k && !CanHide(Ranges(b, now))
    ensures NoPairLeft(Sweep(b[i..], clock, kk).rest, now)
    decreases |b| - i
  {
    hide AcceptableRange, Compatible, Ranges, Steady, LeastSpan;
    if i + 1 < |b| {
      SteadyCompatible(b, clock, k, now, kk, i, i + 1);
      if Compatible(b[i], b[i + 1], clock(kk)) {
        assert b[i..][2..] == b[i + 2..];
        NoPairLeftFrom(b, clock, k, now, i + 2, kk + 1);
      } else {
        assert b[i..][1..] == b[i + 1..];
        NoPairLeftFrom(b, clock, k, now, i + 1, kk + 1);
        var rest := Sweep(b[i + 1..], clock, kk + 1).rest;
        OneStepSpan(Ranges(b, now), i);
        forall l | 0 <= l < |rest|
          ensures !Compatible(b[i], rest[l], now)
        {
          var j := LeftAtADistance(b, clock, k, now, i, i + 1, kk + 1, rest[l]);
          SteadyCompatible(b, clock, k, now, kk, i, j);
          assert !Hides(Ranges(b, now), i, j);
        }
        HeadFits(b[i], rest, now);
      }
    }
  }

  lemma OneStepSpan(r: seq<int>, a: nat)
    requires a + 1 < |r|
    ensures LeastSpan(r, a, a + 1) == Fence(r[a], r[a + 1])
  {
    assert LeastSpan(r, a, a) == 0;
  }

  lemma HeadFits(e: Entry, rest: seq<Entry>, now: int)
    requires NoPairLeft(rest, now) && forall j :: 0 <= j < |rest| ==> !Compatible(e, rest[j], now)
    ensures NoPairLeft([e] + rest, now)
  {
    hide Compatible;
  }

  /** When no two of the ranges accept the least distance between them, no ratings make a sweep leave a pair. */
  lemma SweepLeavesNoPair(b: seq<Entry>, clock: nat -> int, k: nat, now: int)
    requires Sorted(b) && Steady(b, clock, k, now) && !CanHide(Ranges(b, now))
    ensures NoPairLeft(Sweep(b, clock, k).rest, now)
  {
    NoPairLeftFrom(b, clock, k, now, 0, k);
    assert b[0..] == b;
  }

  // ---- the ratings that hide a pair

  ghost predicate Climbs(es: seq<int>) {
    forall i, j :: 0 <= i < j < |es| ==> es[i] <= es[j]
  }

  /** The same waiting players with other ratings. */
  function Rated(b: seq<Entry>, es: seq<int>): (c: seq<Entry>)
    requires |es| == |b|
    ensures |c| == |b| && forall i :: 0 <= i < |b| ==> c[i] == b[i].(elo := es[i])
  {
    seq(|b|, i requires 0 <= i < |b| => b[i].(elo := es[i]))
  }

  lemma RatedKeeps(b: seq<Entry>, es: seq<int>, clock: nat -> int, k: nat, now: int)
    requires |es| == |b| && Climbs(es) && Steady(b, clock, k, now)
    ensures Sorted(Rated(b, es)) && Steady(Rated(b, es), clock, k, now) && Ranges(Rated(b, es), now) == Ranges(b, now)
  {
    var c := Rated(b, es);
    forall i | 0 <= i < |b|
      ensures forall t: int {:trigger AcceptableRange(c[i], t)} :: AcceptableRange(c[i], t) == AcceptableRange(b[i], t)
    {
    }
    hide AcceptableRange;
    forall e, i: nat {:trigger AcceptableRange(e, clock(i))} | e in c && i >= k
      ensures AcceptableRange(e, clock(i)) == AcceptableRange(e, now)
    {
      var x :| 0 <= x < |c| && c[x] == e;
      assert b[x] in b && AcceptableRange(b[x], clock(i)) == AcceptableRange(b[x], now);
    }
  }

  /** One more rating, a fence above the last. */
  function Fenced(r: seq<int>, es: seq<int>): seq<int>
    requires 0 < |es| < |r|
  {
    es + [es[|es| - 1] + Fence(r[|es| - 1], r[|es|])]
  }

  /** Everybody up to `i` a fence apart. */
  function Ladder(r: seq<int>, i: nat): (es: seq<int>)
    requires i < |r|
    ensures |es| == i + 1 && Climbs(es)
  {
    if i == 0 then [0] else Fenced(r, Ladder(r, i - 1))
  }

  /** From `a` on to `i` by the shortest way. */
  function Way(r: seq<int>, a: nat, i: nat): (es: seq<int>)
    requires a <= i < |r|
    ensures |es| == i + 1 && Climbs(es) && es[i] - es[a] == LeastSpan(r, a, i)
    decreases i
  {
    if i == a then Ladder(r, a)
    else if JumpsTo(r, a, i) then var es := Way(r, a, i - 2); es + [es[i - 2], es[i - 2]]
    else Fenced(r, Way(r, a, i - 1))
  }

  lemma FencedClimbs(r: seq<int>, es: seq<int>)
    requires 0 < |es| < |r| && Climbs(es)
    ensures Climbs(Fenced(r, es))
    ensures Fenced(r, es)[|es|] - Fenced(r, es)[|es| - 1] == Fence(r[|es| - 1], r[|es|])
    ensures Fenced(r, es)[..|es|] == es
  {
    hide Fence;
  }

  /** And everybody behind `b` a fence apart again. */
  function WayAndOn(r: seq<int>, a: nat, b: nat, i: nat): (es: seq<int>)
    requires a <= b <= i < |r|
    ensures |es| == i + 1 && Climbs(es) && es[..b + 1] == Way(r, a, b)
    ensures b < i ==> es[b + 1] - es[b] == Fence(r[b], r[b + 1])
    decreases i
  {
    if i == b then Way(r, a, b) else
      FencedClimbs(r, WayAndOn(r, a, b, i - 1));
      Fenced(r, WayAndOn(r, a, b, i - 1))
  }

  /** The sweep arrives at position `i`, having left `pre`. */
  ghost predicate Arrives(b: seq<Entry>, clock: nat -> int, k: nat, i: nat, kk: nat, pre: seq<Entry>)
    requires i <= |b|
  {
    kk >= k && Sweep(b, clock, k).rest == pre + Sweep(b[i..], clock, kk).rest
  }

  lemma StepsOver(b: seq<Entry>, clock: nat -> int, k: nat, now: int, i: nat, kk: nat, pre: seq<Entry>)
    requires Sorted(b) && Steady(b, clock, k, now) && i + 1 < |b| && Arrives(b, clock, k, i, kk, pre)
    requires b[i + 1].elo - b[i].elo == Fence(Ranges(b, now)[i], Ranges(b, now)[i + 1])
    ensures Arrives(b, clock, k, i + 1, kk + 1, pre + [b[i]])
    ensures Sweep(b[i..], clock, kk).rest == [b[i]] + Sweep(b[i + 1..], clock, kk + 1).rest
  {
    hide AcceptableRange, Compatible, Ranges, Steady;
    SteadyCompatible(b, clock, k, now, kk, i, i + 1);
    assert b[i..][1..] == b[i + 1..];
    assert pre + ([b[i]] + Sweep(b[i + 1..], clock, kk + 1).rest) == pre + [b[i]] + Sweep(b[i + 1..], clock, kk + 1).rest;
  }

  lemma PairsUp(b: seq<Entry>, clock: nat -> int, k: nat, now: int, i: nat, kk: nat, pre: seq<Entry>)
    requires Sorted(b) && Steady(b, clock, k, now) && i + 1 < |b| && Arrives(b, clock, k, i, kk, pre)
    requires b[i + 1].elo == b[i].elo && Ranges(b, now)[i] >= 0 && Ranges(b, now)[i + 1] >= 0
    ensures Arrives(b, clock, k, i + 2, kk + 1, pre)
  {
    hide AcceptableRange, Compatible, Ranges, Steady;
    SteadyCompatible(b, clock, k, now, kk, i, i + 1);
    assert b[i..][2..] == b[i + 2..];
  }

  /** The players at the lower end of the bucket are rated like this. */
  ghost predicate Starts(b: seq<Entry>, es: seq<int>) {
    |es| <= |b| && forall x :: 0 <= x < |es| ==> b[x].elo == es[x]
  }

  lemma StartsFenced(b: seq<Entry>, r: seq<int>, es: seq<int>)
    requires 0 < |es| < |r| && Starts(b, Fenced(r, es))
    ensures Starts(b, es) && |es| < |b| && b[|es|].elo - b[|es| - 1].elo == Fence(r[|es| - 1], r[|es|])
  {
    hide Fence;
    forall x | 0 <= x < |es|
      ensures b[x].elo == es[x]
    {
      assert Fenced(r, es)[x] == es[x];
    }
  }

  lemma StartsPaired(b: seq<Entry>, es: seq<int>)
    requires es != [] && Starts(b, es + [es[|es| - 1], es[|es| - 1]])
    ensures Starts(b, es) && |es| + 1 < |b| && b[|es|].elo == b[|es| - 1].elo
  {
    var more := es + [es[|es| - 1], es[|es| - 1]];
    forall x | 0 <= x < |es|
      ensures b[x].elo == es[x]
    {
      assert more[x] == es[x];
    }
  }

  lemma ArrivesAtOnce(b: seq<Entry>, clock: nat -> int, k: nat)
    ensures Arrives(b, clock, k, 0, k, b[..0])
  {
    hide Sweep;
    assert b[0..] == b;
  }

  lemma {:induction false} ArrivesUpLadder(b: seq<Entry>, clock: nat -> int, k: nat, now: int, i: nat)
    requires Sorted(b) && Steady(b, clock, k, now) && i < |b|
    requires Starts(b, Ladder(Ranges(b, now), i))
    ensures Arrives(b, clock, k, i, k + i, b[..i])
  {
    hide AcceptableRange, Ranges, Steady, Arrives, Sweep, Fence, Starts, Fenced, Sorted;
    if i == 0 {
      ArrivesAtOnce(b, clock, k);
    } else {
      StartsFenced(b, Ranges(b, now), Ladder(Ranges(b, now), i - 1));
      ArrivesUpLadder(b, clock, k, now, i - 1);
      StepsOver(b, clock, k, now, i - 1, k + i - 1, b[..i - 1]);
      assert b[..i] == b[..i - 1] + [b[i - 1]];
    }
  }

  /** Along the shortest way the sweep arrives at its end with the entry at `a` left behind. */
  lemma JumpIsFree(r: seq<int>, a: nat, i: nat)
    requires a < i < |r| && JumpsTo(r, a, i)
    ensures i > a + 2 && r[i - 2] >= 0 && r[i - 1] >= 0
  {
  }

  lemma {:induction false} ArrivesByWay(b: seq<Entry>, clock: nat -> int, k: nat, now: int, a: nat, i: nat)
      returns (kk: nat, pre: seq<Entry>)
    requires Sorted(b) && Steady(b, clock, k, now) && a <= i < |b|
    requires Starts(b, Way(Ranges(b, now), a, i))
    ensures Arrives(b, clock, k, i, kk, pre)
    ensures if i == a then |pre| == a else |pre| > a && pre[a] == b[a]
    decreases i
  {
    hide AcceptableRange, Ranges, Steady, Arrives, LeastSpan, Sweep, Fence, Starts, Fenced, Sorted, Ladder, JumpsTo;
    var r := Ranges(b, now);
    if i == a {
      ArrivesUpLadder(b, clock, k, now, i);
      kk, pre := k + i, b[..i];
    } else if JumpsTo(r, a, i) {
      JumpIsFree(r, a, i);
      StartsPaired(b, Way(r, a, i - 2));
      kk, pre := ArrivesByWay(b, clock, k, now, a, i - 2);
      PairsUp(b, clock, k, now, i - 2, kk, pre);
      kk := kk + 1;
    } else {
      StartsFenced(b, r, Way(r, a, i - 1));
      kk, pre := ArrivesByWay(b, clock, k, now, a, i - 1);
      StepsOver(b, clock, k, now, i - 1, kk, pre);
      kk, pre := kk + 1, pre + [b[i - 1]];
    }
  }

  lemma ArrivedIsLeft(b: seq<Entry>, clock: nat -> int, k: nat, now: int, j: nat, kk: nat, pre: seq<Entry>)
    requires Sorted(b) && Steady(b, clock, k, now) && j < |b| && Arrives(b, clock, k, j, kk, pre)
    requires j + 1 < |b| ==> b[j + 1].elo - b[j].elo == Fence(Ranges(b, now)[j], Ranges(b, now)[j + 1])
    ensures var rest := Sweep(b, clock, k).rest; |rest| > |pre| && rest[|pre|] == b[j] && rest[..|pre|] == pre
  {
    hide AcceptableRange, Ranges, Steady, Compatible;
    if j + 1 < |b| {
      StepsOver(b, clock, k, now, j, kk, pre);
    }
  }

  /** The players whose ranges hide a pair, with ratings that do. */
  lemma RatingsThatHide(b: seq<Entry>, clock: nat -> int, k: nat, now: int, i: nat, j: nat) returns (es: seq<int>)
    requires Steady(b, clock, k, now) && i < j < |b| && Hides(Ranges(b, now), i, j)
    ensures |es| == |b| && Climbs(es) && !NoPairLeft(Sweep(Rated(b, es), clock, k).rest, now)
  {
    hide AcceptableRange, Ranges, Steady, Compatible, Arrives, Sweep, LeastSpan, Way, WayAndOn;
    var r := Ranges(b, now);
    es := WayAndOn(r, i, j, |b| - 1);
    var c := Rated(b, es);
    RatedKeeps(b, es, clock, k, now);
    assert Starts(c, es[..j + 1]);
    var kk, pre := ArrivesByWay(c, clock, k, now, i, j);
    ArrivedIsLeft(c, clock, k, now, j, kk, pre);
    var rest := Sweep(c, clock, k).rest;
    assert rest[i] == pre[i];
    assert es[..j + 1][j] - es[..j + 1][i] == LeastSpan(r, i, j);
    SteadyCompatible(c, clock, k, now, k, i, j);
    assert Compatible(rest[i], rest[|pre|], now);
  }

  /**
   The exact boundary.  Given who waits, and for how long, in the order of their ratings: a
   sweep leaves no acceptable pair, whatever the ratings, exactly when no two of them accept
   the least distance a sweep can put between them.
   */
  lemma SweepLeavesNoPairIff(b: seq<Entry>, clock: nat -> int, k: nat, now: int)
    requires Steady(b, clock, k, now)
    ensures (forall es: seq<int> :: |es| == |b| && Climbs(es) ==> NoPairLeft(Sweep(Rated(b, es), clock, k).rest, now))
      <==> !CanHide(Ranges(b, now))
  {
    hide Steady, Sweep, NoPairLeft, Ranges, Hides;
    if CanHide(Ranges(b, now)) {
      var i: nat, j: nat :| i < j < |Ranges(b, now)| && Hides(Ranges(b, now), i, j);
      var es := RatingsThatHide(b, clock, k, now, i, j);
    } else {
      forall es: seq<int> | |es| == |b| && Climbs(es)
        ensures NoPairLeft(Sweep(Rated(b, es), clock, k).rest, now)
      {
        RatedKeeps(b, es, clock, k, now);
        SweepLeavesNoPair(Rated(b, es), clock, k, now);
      }
    }
  }

  /** Three players can hide a pair exactly when the middle one is less than half as patient as both others. */
  lemma ThreeCanHideIff(r: seq<int>)
    requires |r| == 3
    ensures CanHide(r) <==> var refused := if r[1] < 0 then 0 else r[1] + 1; 2 * refused <= r[0] && 2 * refused <= r[2]
  {
    OneStepSpan(r, 0);
    OneStepSpan(r, 1);
    assert LeastSpan(r, 0, 2) == Fence(r[0], r[1]) + Fence(r[1], r[2]);
    var refused := if r[1] < 0 then 0 else r[1] + 1;
    assert Hides(r, 0, 2) <==> 2 * refused <= r[0] && 2 * refused <= r[2];
    assert !Hides(r, 0, 1) && !Hides(r, 1, 2);
    forall a: nat, b: nat | a < b < 3 && Hides(r, a, b)
      ensures a == 0 && b == 2
    {
    }
  }

  /** A fourth player makes it easier: two impatient ones in the middle are paired off. */
  lemma FourCanHideWhereThreeCannot()
    ensures CanHide([250, 200, 200, 250]) && !CanHide([250, 200, 250])
  {
    var r := [250, 200, 200, 250];
    OneStepSpan(r, 0);
    assert LeastSpan(r, 0, 3) <= LeastSpan(r, 0, 1);
    assert Hides(r, 0, 3);
    ThreeCanHideIff([250, 200, 250]);
  }

  lemma {:induction false} SpanBeginsWithFence(r: seq<int>, a: nat, i: nat)
    requires a < i < |r|
    ensures LeastSpan(r, a, i) >= Fence(r[a], r[a + 1])
    decreases i
  {
    if i == a + 1 {
      OneStepSpan(r, a);
    } else {
      SpanBeginsWithFence(r, a, i - 1);
      if i - 2 > a {
        SpanBeginsWithFence(r, a, i - 2);
      }
    }
  }

  /** Where no player is pickier than both a weaker and a stronger one, nothing can be hidden. */
  lemma NoPickyMiddleHidesNothing(b: seq<Entry>, now: int)
    requires NoPickyMiddle(b, now)
    ensures !CanHide(Ranges(b, now))
  {
    hide AcceptableRange, LeastSpan;
    var r := Ranges(b, now);
    forall i: nat, j: nat | i < j < |r|
      ensures !Hides(r, i, j)
    {
      SpanBeginsWithFence(r, i, j);
      if i + 1 == j {
        OneStepSpan(r, i);
      } else {
        assert AcceptableRange(b[i + 1], now) >= AcceptableRange(b[i], now) || AcceptableRange(b[i + 1], now) >= AcceptableRange(b[j], now);
      }
    }
  }

  lemma EqualRangesHaveNoPickyMiddle(b: seq<Entry>, now: int)
    requires forall i, j :: 0 <= i < j < |b| ==> AcceptableRange(b[i], now) == AcceptableRange(b[j], now)
    ensures NoPickyMiddle(b, now)
  {
    hide AcceptableRange;
  }

  /** A newcomer between two long-waiting players hides them from each other. */
  lemma PickyMiddleCanHideAPair() returns (b: seq<Entry>, clock: nat -> int)
    ensures Sorted(b) && DistinctFds(b) && Steady(b, clock, 0, clock(0))
    ensures !NoPairLeft(Sweep(b, clock, 0).rest, clock(0))
  {
    var tc := TimeControl(600000, 5000);
    var now := 100 * NANOS_PER_SECOND;
    var x, y, z := Entry(1, 1, 0, 1000, tc, 0), Entry(2, 2, 0, 1300, tc, now), Entry(3, 3, 0, 1600, tc, 0);
    b := [x, y, z];
    clock := (i: nat) => now;
    assert AcceptableRange(x, now) == 700 && AcceptableRange(y, now) == 200 && AcceptableRange(z, now) == 700;
    assert b[1..] == [y, z] && b[1..][1..] == [z];
    assert Sweep(b[1..], clock, 1) == Swept([], [y, z]);
    var rest := Sweep(b, clock, 0).rest;
    assert rest == [x, y, z];
    assert Compatible(rest[0], rest[2], now);
  }

  // ---------------------------------------------------------------- the two indexes

  /** A new entry goes behind the entries of its own rating. */
  function Inserted(b: seq<Entry>, e: Entry): seq<Entry> {
    if b == [] || e.elo < b[0].elo then [e] + b else [b[0]] + Inserted(b[1..], e)
  }

  lemma {:induction false} InsertedAdds(b: seq<Entry>, e: Entry)
    ensures multiset(Inserted(b, e)) == multiset(b) + multiset{e}
    ensures forall x :: x in Inserted(b, e) <==> x in b || x == e
  {
    if b == [] || e.elo < b[0].elo {
      assert multiset([e] + b) == multiset{e} + multiset(b);
    } else {
      assert b == [b[0]] + b[1..];
      InsertedAdds(b[1..], e);
      assert multiset([b[0]] + Inserted(b[1..], e)) == multiset{b[0]} + multiset(Inserted(b[1..], e));
    }
  }

  lemma {:induction false} InsertedKeepsOrder(b: seq<Entry>, e: Entry)
    requires Sorted(b)
    ensures Sorted(Inserted(b, e))
    ensures forall x :: x in Inserted(b, e) <==> x in b || x == e
  {
    InsertedAdds(b, e);
    if b == [] || e.elo < b[0].elo {
      SortedCons(e, b);
    } else {
      InsertedKeepsOrder(b[1..], e);
      SortedCons(b[0], Inserted(b[1..], e));
    }
  }

  lemma SortedCons(x: Entry, t: seq<Entry>)
    requires Sorted(t) && forall y :: y in t ==> x.elo <= y.elo
    ensures Sorted([x] + t)
  {
  }

  lemma InsertedStep(b: seq<Entry>, e: Entry, i: nat)
    requires i < |b| && b[i].elo <= e.elo
    ensures b[..i] + Inserted(b[i..], e) == b[..i + 1] + Inserted(b[i + 1..], e)
  {
    assert b[i..][1..] == b[i + 1..];
    var t := Inserted(b[i + 1..], e);
    assert Inserted(b[i..], e) == [b[i]] + t;
    assert b[..i] + ([b[i]] + t) == b[..i] + [b[i]] + t;
    assert b[..i + 1] == b[..i] + [b[i]];
  }

  /** First come, first served: a newcomer stands behind everybody of its own rating or less, before all others. */
  lemma {:induction false} InsertedBehindEquals(b: seq<Entry>, e: Entry) returns (i: nat)
    requires Sorted(b)
    ensures i <= |b| && Inserted(b, e) == b[..i] + [e] + b[i..]
    ensures forall k :: 0 <= k < |b| ==> (k < i <==> b[k].elo <= e.elo)
  {
    if b == [] || e.elo < b[0].elo {
      i := 0;
    } else {
      var j := InsertedBehindEquals(b[1..], e);
      i := j + 1;
      assert b[..i] == [b[0]] + b[1..][..j] && b[i..] == b[1..][j..];
      assert Inserted(b, e) == [b[0]] + (b[1..][..j] + [e] + b[1..][j..]);
      forall k | 0 <= k < |b|
        ensures k < i <==> b[k].elo <= e.elo
      {
        assert k > 0 ==> b[k] == b[1..][k - 1];
      }
    }
  }

  type Buckets = map<TimeControl, seq<Entry>>

  /** Every entry waits in the bucket of its own time control, where the index says it is. */
  predicate BucketAgrees(tc: TimeControl, b: seq<Entry>, index: map<int, TimeControl>) {
    && Sorted(b) && DistinctFds(b)
    && forall e :: e in b ==> e.tc == tc && e.fd in index && index[e.fd] == tc
  }

  predicate Holds(b: seq<Entry>, fd: int) {
    exists i :: 0 <= i < |b| && b[i].fd == fd
  }

  /** Buckets, reverse index and cached size tell the same story. */
  predicate Agree(buckets: Buckets, index: map<int, TimeControl>, size: nat) {
    && (forall tc :: tc in buckets ==> BucketAgrees(tc, buckets[tc], index))
    && (forall fd :: fd in index ==> index[fd] in buckets && Holds(buckets[index[fd]], fd))
    && size == |index|
  }

  lemma {:induction false} InsertedKeepsFds(b: seq<Entry>, e: Entry)
    requires DistinctFds(b) && !Holds(b, e.fd)
    ensures DistinctFds(Inserted(b, e))
    ensures forall fd :: Holds(Inserted(b, e), fd) <==> Holds(b, fd) || fd == e.fd
  {
    if b == [] || e.elo < b[0].elo {
      var c := [e] + b;
      forall fd
        ensures Holds(c, fd) <==> Holds(b, fd) || fd == e.fd
      {
        HoldsCons(e, b, fd);
      }
    } else {
      HoldsTail(b);
      InsertedKeepsFds(b[1..], e);
      var t := Inserted(b[1..], e);
      forall fd
        ensures Holds([b[0]] + t, fd) <==> Holds(b, fd) || fd == e.fd
      {
        HoldsCons(b[0], t, fd);
        HoldsCons(b[0], b[1..], fd);
      }
      assert b == [b[0]] + b[1..];
      assert !Holds(t, b[0].fd);
    }
  }

  lemma HoldsCons(e: Entry, b: seq<Entry>, fd: int)
    ensures Holds([e] + b, fd) <==> Holds(b, fd) || fd == e.fd
  {
    if Holds(b, fd) {
      var i :| 0 <= i < |b| && b[i].fd == fd;
      assert ([e] + b)[i + 1].fd == fd;
    }
    assert ([e] + b)[0].fd == e.fd;
  }

  lemma HoldsTail(b: seq<Entry>)
    requires b != [] && DistinctFds(b)
    ensures !Holds(b[1..], b[0].fd) && DistinctFds(b[1..])
    ensures forall fd :: Holds(b[1..], fd) ==> Holds(b, fd)
  {
    forall fd | Holds(b[1..], fd)
      ensures Holds(b, fd)
    {
      var i :| 0 <= i < |b[1..]| && b[1..][i].fd == fd;
      assert b[i + 1].fd == fd;
    }
  }

  /** `b` without the entry at `i`. */
  function Cut(b: seq<Entry>, i: nat): seq<Entry>
    requires i < |b|
  {
    b[..i] + b[i + 1..]
  }

  lemma CutKeeps(b: seq<Entry>, i: nat)
    requires i < |b| && DistinctFds(b)
    ensures DistinctFds(Cut(b, i)) && (Sorted(b) ==> Sorted(Cut(b, i)))
    ensures forall e :: e in Cut(b, i) ==> e in b
    ensures forall fd :: Holds(Cut(b, i), fd) <==> Holds(b, fd) && fd != b[i].fd
  {
    var c := Cut(b, i);
    forall fd | Holds(b, fd) && fd != b[i].fd
      ensures Holds(c, fd)
    {
      var j :| 0 <= j < |b| && b[j].fd == fd;
      assert c[if j < i then j else j - 1].fd == fd;
    }
    forall j | 0 <= j < |c|
      ensures c[j].fd != b[i].fd && Holds(b, c[j].fd)
    {
      assert c[j] == b[if j < i then j else j + 1];
    }
  }

  /** Erasing an entry from its bucket and its connection from the index keeps the agreement. */
  lemma ErasingKeepsAgreement(buckets: Buckets, index: map<int, TimeControl>, size: nat, tc: TimeControl, i: nat)
    requires Agree(buckets, index, size) && tc in buckets && i < |buckets[tc]|
    ensures var fd := buckets[tc][i].fd;
      fd in index && size > 0 && Agree(buckets[tc := Cut(buckets[tc], i)], index - {fd}, size - 1)
  {
    hide Sorted, DistinctFds, Cut, Holds;
    var b := buckets[tc];
    var fd := b[i].fd;
    assert b[i] in b && fd in index && index[fd] == tc;
    CutKeeps(b, i);
    var rest := index - {fd};
    RemovedSize(index, fd);
    var after := buckets[tc := Cut(b, i)];
    assert BucketAgrees(tc, b, index);
    forall t | t in after
      ensures BucketAgrees(t, after[t], rest)
    {
      assert BucketAgrees(t, buckets[t], index);
      forall e: Entry | e in after[t]
        ensures e.fd in rest && rest[e.fd] == t && e.tc == t
      {
        if t == tc {
          InCutIsHeld(b, i, e);
        }
      }
    }
  }

  lemma InCutIsHeld(b: seq<Entry>, i: nat, e: Entry)
    requires i < |b| && DistinctFds(b) && e in Cut(b, i)
    ensures e in b && e.fd != b[i].fd
  {
    CutKeeps(b, i);
    assert Holds(Cut(b, i), e.fd);
  }

  lemma RemovedSize(index: map<int, TimeControl>, fd: int)
    requires fd in index
    ensures |index - {fd}| == |index| - 1
  {
    assert (index - {fd}).Keys == index.Keys - {fd};
    assert |index| == |index.Keys|;
    assert |index - {fd}| == |(index - {fd}).Keys|;
  }

  lemma IndexedIsHeld(buckets: Buckets, index: map<int, TimeControl>, size: nat, fd: int)
    requires Agree(buckets, index, size) && fd in index
    ensures index[fd] in buckets && Holds(buckets[index[fd]], fd)
  {
    hide BucketAgrees, Holds;
  }

  lemma DroppingEmptyKeepsAgreement(buckets: Buckets, index: map<int, TimeControl>, size: nat, tc: TimeControl)
    requires Agree(buckets, index, size) && tc in buckets && buckets[tc] == []
    ensures Agree(buckets - {tc}, index, size)
  {
    hide Sorted, DistinctFds;
    assert !exists fd :: fd in index && index[fd] == tc && Holds(buckets[tc], fd);
  }

  lemma IndexGrows(tc: TimeControl, b: seq<Entry>, index: map<int, TimeControl>, fd: int, t: TimeControl)
    requires BucketAgrees(tc, b, index) && fd !in index
    ensures BucketAgrees(tc, b, index[fd := t]) && !Holds(b, fd)
  {
    hide Sorted, DistinctFds;
  }

  lemma InsertedBucketAgrees(b: seq<Entry>, index: map<int, TimeControl>, e: Entry)
    requires BucketAgrees(e.tc, b, index) && !Holds(b, e.fd)
    requires e.fd in index && index[e.fd] == e.tc
    ensures BucketAgrees(e.tc, Inserted(b, e), index)
  {
    hide Sorted, DistinctFds, Inserted, Holds;
    InsertedKeepsOrder(b, e);
    InsertedKeepsFds(b, e);
  }

  lemma AddingKeepsAgreement(buckets: Buckets, index: map<int, TimeControl>, size: nat, e: Entry)
    requires Agree(buckets, index, size) && e.fd !in index
    ensures var b := if e.tc in buckets then buckets[e.tc] else [];
      Agree(buckets[e.tc := Inserted(b, e)], index[e.fd := e.tc], size + 1)
  {
    hide BucketAgrees, Inserted, Holds;
    var b := if e.tc in buckets then buckets[e.tc] else [];
    EmptyBucketAgrees(e.tc, index);
    var indexed := index[e.fd := e.tc];
    assert indexed.Keys == index.Keys + {e.fd};
    forall t | t in buckets
      ensures BucketAgrees(t, buckets[t], indexed)
    {
      IndexGrows(t, buckets[t], index, e.fd, e.tc);
    }
    IndexGrows(e.tc, b, index, e.fd, e.tc);
    InsertedBucketAgrees(b, indexed, e);
    HoldsInserted(b, index, e);
  }

  lemma HoldsInserted(b: seq<Entry>, index: map<int, TimeControl>, e: Entry)
    requires BucketAgrees(e.tc, b, index) && !Holds(b, e.fd)
    ensures forall fd :: Holds(Inserted(b, e), fd) <==> Holds(b, fd) || fd == e.fd
  {
    hide Sorted, DistinctFds, Inserted, Holds;
    InsertedKeepsFds(b, e);
  }

  lemma EmptyBucketAgrees(tc: TimeControl, index: map<int, TimeControl>)
    ensures BucketAgrees(tc, [], index)
  {
  }

  // ---------------------------------------------------------------- the queue itself

  class Matchmaker {
    var buckets: Buckets
    var index: map<int, TimeControl>
    var size: nat

    predicate Valid()
      reads this
    {
      Agree(buckets, index, size)
    }

    constructor ()
      ensures Valid() && buckets == map[] && index == map[] && size == 0
    {
      buckets, index, size := map[], map[], 0;
    }

    function Bucket(tc: TimeControl): seq<Entry>
      reads this
    {
      if tc in buckets then buckets[tc] else []
    }

    /** Where an entry of this rating is inserted: behind its equals. */
    static method UpperBound(b: seq<Entry>, e: Entry) returns (i: nat)
      ensures i <= |b| && Inserted(b, e) == b[..i] + [e] + b[i..]
    {
      i := 0;
      while i < |b| && b[i].elo <= e.elo
        invariant i <= |b|
        invariant Inserted(b, e) == b[..i] + Inserted(b[i..], e)
      {
        InsertedStep(b, e, i);
        i := i + 1;
      }
      assert b[..i] + Inserted(b[i..], e) == b[..i] + ([e] + b[i..]) == b[..i] + [e] + b[i..];
    }

    method Enqueue(fd: int, player: int, dbId: int, elo: int, tc: TimeControl, now: int) returns (queued: bool)
      requires Valid()
      modifies this
      ensures Valid() && queued == (fd !in old(index))
      ensures !queued ==> buckets == old(buckets) && index == old(index) && size == old(size)
      ensures queued ==>
        && buckets == old(buckets)[tc := Inserted(old(Bucket(tc)), Entry(fd, player, dbId, elo, tc, now))]
        && index == old(index)[fd := tc] && size == old(size) + 1
    {
      if fd in index {
        return false;
      }
      var entry := Entry(fd, player, dbId, elo, tc, now);
      AddingKeepsAgreement(buckets, index, size, entry);
      var bucket := Bucket(tc);
      var at := UpperBound(bucket, entry);
      buckets := buckets[tc := bucket[..at] + [entry] + bucket[at..]];
      index := index[fd := tc];
      size := size + 1;
      return true;
    }

    /** The stored position of a connection's entry in its bucket. */
    static method Position(b: seq<Entry>, fd: int) returns (i: nat)
      requires Holds(b, fd)
      ensures i < |b| && b[i].fd == fd
    {
      i := 0;
      while b[i].fd != fd
        invariant i < |b| && forall j :: 0 <= j < i ==> b[j].fd != fd
        decreases |b| - i
      {
        ghost var j :| 0 <= j < |b| && b[j].fd == fd;
        i := i + 1;
      }
    }

    method Dequeue(fd: int) returns (found: bool)
      requires Valid()
      modifies this
      ensures Valid() && found == (fd in old(index))
      ensures !found ==> buckets == old(buckets) && index == old(index) && size == old(size)
      ensures found ==>
        && index == old(index) - {fd} && size == old(size) - 1
        && var tc := old(index)[fd];
           && (forall t :: t != tc ==> Bucket(t) == old(Bucket(t)))
           && exists i :: 0 <= i < |old(Bucket(tc))| && old(Bucket(tc))[i].fd == fd && Bucket(tc) == Cut(old(Bucket(tc)), i)
    {
      hide Agree, BucketAgrees, Cut, Holds;
      if fd !in index {
        return false;
      }
      IndexedIsHeld(buckets, index, size, fd);
      var tc := index[fd];
      ghost var was := Bucket(tc);
      var at := Position(buckets[tc], fd);
      ErasingKeepsAgreement(buckets, index, size, tc, at);
      var bucket := Cut(buckets[tc], at);
      buckets := buckets[tc := bucket];
      index := index - {fd};
      size := size - 1;
      if bucket == [] {
        DroppingEmptyKeepsAgreement(buckets, index, size, tc);
        buckets := buckets - {tc};
      }
      assert was[at].fd == fd && Bucket(tc) == Cut(was, at);
      return true;
    }

    /** Two neighbours leave the bucket, the index and the size. */
    method RemovePair(tc: TimeControl, i: nat)
      requires Valid() && tc in buckets && i + 1 < |buckets[tc]|
      modifies this
      ensures Valid()
      ensures var b := old(buckets)[tc];
        && buckets == old(buckets)[tc := b[..i] + b[i + 2..]]
        && index == old(index) - {b[i].fd, b[i + 1].fd} && size + 2 == old(size)
    {
      hide Agree;
      var bucket := buckets[tc];
      ErasingKeepsAgreement(buckets, index, size, tc, i);
      index := index - {bucket[i].fd};
      buckets := buckets[tc := Cut(bucket, i)];
      assert buckets[tc][i] == bucket[i + 1];
      ErasingKeepsAgreement(buckets, index, size - 1, tc, i);
      index := index - {bucket[i + 1].fd};
      buckets := buckets[tc := Cut(buckets[tc], i)];
      size := size - 2;
      assert buckets[tc] == bucket[..i] + bucket[i + 2..];
    }

    /** The pass over one bucket: matched neighbours leave it, the others are passed by. */
    method SweepBucket(tc: TimeControl, clock: nat -> int, k: nat) returns (found: seq<Match>, next: nat)
      requires Valid() && tc in buckets
      modifies this
      ensures Valid()
      ensures var s := Sweep(old(buckets)[tc], clock, k);
        found == s.matches && buckets == old(buckets)[tc := s.rest]
      ensures index == old(index) - PairedFds(found) && size + 2 * |found| == old(size)
      ensures forall m :: m in found ==> m.white.tc == tc
    {
      hide Agree, Compatible, Sweep, PairedFds, SweptSoFar;
      var i := 0;
      found, next := [], k;
      NothingMatched();
      ghost var all := Sweep(buckets[tc], clock, k);
      SweepStart(buckets[tc], clock, k);
      while i + 1 < |buckets[tc]|
        invariant Valid() && tc in buckets && i <= |buckets[tc]|
        invariant buckets == old(buckets)[tc := buckets[tc]]
        invariant SweptSoFar(all, found, buckets[tc], i, clock, next)
        invariant index == old(index) - PairedFds(found) && size + 2 * |found| == old(size)
        invariant forall m :: m in found ==> m.white.tc == tc
        decreases |buckets[tc]| - i
      {
        var a, b := buckets[tc][i], buckets[tc][i + 1];
        var now := clock(next);
        SweepStep(all, found, buckets[tc], i, clock, next);
        next := next + 1;
        if Compatible(a, b, now) {
          PairTimeControl(buckets, index, size, tc, i);
          RemovePair(tc, i);
          PairedFdsJoin(found, [Match(a, b, now)]);
          OnePair(Match(a, b, now));
          found := found + [Match(a, b, now)];
        } else {
          i := i + 1;
        }
      }
      SweepEnd(all, found, buckets[tc], i, clock, next);
    }

    /** One pass over every bucket, in any order; players of different time controls never meet. */
    method TryMatch(clock: nat -> int) returns (results: seq<Match>)
      requires Valid()
      modifies this
      ensures Valid() && buckets.Keys == old(buckets).Keys
      ensures forall tc :: tc in buckets ==> SweptTo(old(buckets)[tc], buckets[tc], MatchesIn(results, tc), clock)
      ensures index == old(index) - PairedFds(results) && size + 2 * |results| == old(size)
      ensures forall m :: m in results ==> m.white.tc in buckets
    {
      hide Agree, SweptTo, MatchesIn, PairedFds;
      results := [];
      var k := 0;
      var todo := buckets.Keys;
      NothingMatched();
      while todo != {}
        invariant Valid() && buckets.Keys == old(buckets).Keys && todo <= buckets.Keys
        invariant forall tc :: tc in todo ==> buckets[tc] == old(buckets)[tc] && MatchesIn(results, tc) == []
        invariant forall tc :: tc in buckets.Keys - todo ==>
          SweptTo(old(buckets)[tc], buckets[tc], MatchesIn(results, tc), clock)
        invariant index == old(index) - PairedFds(results) && size + 2 * |results| == old(size)
        invariant forall m :: m in results ==> m.white.tc in buckets
      {
        var tc :| tc in todo;
        todo := todo - {tc};
        var found: seq<Match> := [];
        ghost var start := k;
        ghost var before := buckets[tc];
        ghost var sizeBefore := size;
        if |buckets[tc]| >= 2 {
          found, k := SweepBucket(tc, clock, k);
        } else {
          NothingMatched();
        }
        Recorded(results, found, tc);
        SweptToAt(before, buckets[tc], found, clock, start);
        PairedFdsJoin(results, found);
        results := results + found;
      }
    }
  }

  /** The matches of `ms` made in the bucket of `tc`. */
  function MatchesIn(ms: seq<Match>, tc: TimeControl): seq<Match> {
    if ms == [] then [] else (if ms[0].white.tc == tc then [ms[0]] else []) + MatchesIn(ms[1..], tc)
  }

  /** A bucket went through one sweep that made exactly these matches. */
  ghost predicate SweptTo(before: seq<Entry>, after: seq<Entry>, ms: seq<Match>, clock: nat -> int) {
    exists k :: Sweep(before, clock, k) == Swept(ms, after)
  }

  lemma SweptToAt(before: seq<Entry>, after: seq<Entry>, ms: seq<Match>, clock: nat -> int, k: nat)
    requires Sweep(before, clock, k) == Swept(ms, after)
    ensures SweptTo(before, after, ms, clock)
  {
  }

  lemma NothingMatched()
    ensures PairedFds([]) == {} && forall tc :: MatchesIn([], tc) == []
  {
  }

  lemma PairedFdsJoin(a: seq<Match>, b: seq<Match>)
    ensures PairedFds(a + b) == PairedFds(a) + PairedFds(b)
  {
    assert forall x :: x in a + b <==> x in a || x in b;
  }

  lemma {:induction false} MatchesInJoin(a: seq<Match>, b: seq<Match>, tc: TimeControl)
    ensures MatchesIn(a + b, tc) == MatchesIn(a, tc) + MatchesIn(b, tc)
  {
    if a == [] {
      assert a + b == b;
    } else {
      assert (a + b)[1..] == a[1..] + b;
      MatchesInJoin(a[1..], b, tc);
    }
  }

  lemma {:induction false} MatchesOfOneBucket(ms: seq<Match>, tc: TimeControl, t: TimeControl)
    requires forall m :: m in ms ==> m.white.tc == tc
    ensures MatchesIn(ms, t) == if t == tc then ms else []
  {
    if ms != [] {
      MatchesOfOneBucket(ms[1..], tc, t);
    }
  }

  lemma Recorded(results: seq<Match>, found: seq<Match>, tc: TimeControl)
    requires forall m :: m in found ==> m.white.tc == tc
    requires MatchesIn(results, tc) == []
    ensures forall t :: MatchesIn(results + found, t) == if t == tc then found else MatchesIn(results, t)
  {
    forall t
      ensures MatchesIn(results + found, t) == if t == tc then found else MatchesIn(results, t)
    {
      MatchesInJoin(results, found, t);
      MatchesOfOneBucket(found, tc, t);
    }
  }

  function PairedFds(ms: seq<Match>): set<int> {
    (set m | m in ms :: m.white.fd) + (set m | m in ms :: m.black.fd)
  }

  lemma OnePair(m: Match)
    ensures PairedFds([m]) == {m.white.fd, m.black.fd}
  {
    assert m in [m];
  }

  /** The pass has reached position `i` of what is left of the bucket, having made `found`. */
  ghost predicate SweptSoFar(all: Swept, found: seq<Match>, b: seq<Entry>, i: nat, clock: nat -> int, k: nat)
    requires i <= |b|
  {
    var s := Sweep(b[i..], clock, k);
    all == Swept(found + s.matches, b[..i] + s.rest)
  }

  lemma SweepStart(b: seq<Entry>, clock: nat -> int, k: nat)
    ensures SweptSoFar(Sweep(b, clock, k), [], b, 0, clock, k)
  {
    hide Sweep;
    assert b[0..] == b;
  }

  lemma SweepStep(all: Swept, found: seq<Match>, b: seq<Entry>, i: nat, clock: nat -> int, k: nat)
    requires i + 1 < |b| && SweptSoFar(all, found, b, i, clock, k)
    ensures var now := clock(k);
      if Compatible(b[i], b[i + 1], now)
      then SweptSoFar(all, found + [Match(b[i], b[i + 1], now)], b[..i] + b[i + 2..], i, clock, k + 1)
      else SweptSoFar(all, found, b, i + 1, clock, k + 1)
  {
    hide Compatible;
    var m := Match(b[i], b[i + 1], clock(k));
    assert b[i..][1..] == b[i + 1..] && b[i..][2..] == b[i + 2..];
    if Compatible(b[i], b[i + 1], clock(k)) {
      var c := b[..i] + b[i + 2..];
      assert c[i..] == b[i + 2..] && c[..i] == b[..i];
      var s := Sweep(b[i + 2..], clock, k + 1);
      assert found + ([m] + s.matches) == found + [m] + s.matches;
    } else {
      var s := Sweep(b[i + 1..], clock, k + 1);
      assert b[..i] + ([b[i]] + s.rest) == b[..i + 1] + s.rest;
    }
  }

  lemma SweepEnd(all: Swept, found: seq<Match>, b: seq<Entry>, i: nat, clock: nat -> int, k: nat)
    requires i <= |b| <= i + 1 && SweptSoFar(all, found, b, i, clock, k)
    ensures all == Swept(found, b)
  {
    assert b[..i] + b[i..] == b && found + [] == found;
  }

  lemma PairTimeControl(buckets: Buckets, index: map<int, TimeControl>, size: nat, tc: TimeControl, i: nat)
    requires Agree(buckets, index, size) && tc in buckets && i + 1 < |buckets[tc]|
    ensures buckets[tc][i].tc == tc
  {
    assert BucketAgrees(tc, buckets[tc], index);
  }
}
