/**
 The store of one-time sealing keys.  `issue` checks the caps, leaves the lock to mint a key,
 and checks again before it stores it; its two critical sections may interleave with any
 other operation.  Key ids come in as arguments, times are nanoseconds.
 */
module KeyStore {
  import opened Types

  const KEY_ID_SIZE := 16
  const NANOS_PER_SECOND := 1_000_000_000

  type Byte = b: int | 0 <= b < 256
  type KeyId = seq<Byte>

  /** The private half of a minted key is a value nobody here looks into. */
  datatype Entry = Entry(material: int, expires: int, ip: string)

  type Entries = map<KeyId, Entry>
  type Counters = map<string, nat>

  datatype Limits = Limits(ttlSeconds: nat, maxPerIp: nat, maxTotal: nat)

  datatype State = State(entries: Entries, perIp: Counters)

  function Expiry(l: Limits, now: int): int {
    now + l.ttlSeconds * NANOS_PER_SECOND
  }

  function CountOf(perIp: Counters, ip: string): nat {
    if ip in perIp then perIp[ip] else 0
  }

  /** The keys held for an address. */
  function Held(entries: Entries, ip: string): set<KeyId> {
    set k | k in entries && entries[k].ip == ip
  }

  /** The counters say, for every address, how many keys are held for it; none is left at zero. */
  ghost predicate Exact(s: State) {
    && (forall ip :: CountOf(s.perIp, ip) == |Held(s.entries, ip)|)
    && (forall ip :: ip in s.perIp ==> s.perIp[ip] > 0)
  }

  function Live(entries: Entries, now: int): Entries {
    map k | k in entries && now < entries[k].expires :: entries[k]
  }

  /** The admission test: an address without a counter is not compared with the cap. */
  predicate Admits(l: Limits, s: State, ip: string) {
    |s.entries| < l.maxTotal && (ip in s.perIp ==> s.perIp[ip] < l.maxPerIp)
  }

  function OneLess(perIp: Counters, ip: string): Counters {
    if ip !in perIp then perIp
    else if perIp[ip] <= 1 then perIp - {ip}
    else perIp[ip := perIp[ip] - 1]
  }

  function Erased(s: State, id: KeyId): State {
    if id !in s.entries then s
    else State(s.entries - {id}, OneLess(s.perIp, s.entries[id].ip))
  }

  function Expired(entries: Entries, now: int): set<KeyId> {
    set k | k in entries && now >= entries[k].expires
  }

  /** Erasing a set of keys one by one, in some order. */
  ghost function ErasedAll(s: State, ids: set<KeyId>): (r: State)
    ensures r.entries == s.entries - ids
    decreases |ids|
  {
    if ids == {} then s else
      var id :| id in ids;
      ErasedAll(Erased(s, id), ids - {id})
  }

  /** A sweep erases what has expired. */
  ghost function Swept(s: State, now: int): (r: State)
    ensures r.entries == Live(s.entries, now)
  {
    ErasedAll(s, Expired(s.entries, now))
  }

  /** Storing a key under an id in use keeps the old key, but counts the new one. */
  function Stored(l: Limits, s: State, ip: string, id: KeyId, material: int, now: int): State {
    State(
      if id in s.entries then s.entries else s.entries[id := Entry(material, Expiry(l, now), ip)],
      s.perIp[ip := CountOf(s.perIp, ip) + 1])
  }

  // ---------------------------------------------------------------- counting

  lemma ErasingOne(s: State, id: KeyId)
    requires Exact(s) && id in s.entries
    ensures Exact(Erased(s, id)) && |Erased(s, id).entries| == |s.entries| - 1
  {
    var ip := s.entries[id].ip;
    var b := Erased(s, id);
    assert b.entries.Keys == s.entries.Keys - {id};
    assert |s.entries| == |s.entries.Keys| && |b.entries| == |b.entries.Keys|;
    forall x
      ensures CountOf(b.perIp, x) == |Held(b.entries, x)|
    {
      assert CountOf(s.perIp, x) == |Held(s.entries, x)|;
      if x == ip {
        assert id in Held(s.entries, x);
        assert Held(b.entries, x) == Held(s.entries, x) - {id};
      } else {
        assert Held(b.entries, x) == Held(s.entries, x);
      }
    }
  }

  /** After an admitted store the counters are exact precisely when the id was not in use. */
  lemma StoringOne(l: Limits, s: State, ip: string, id: KeyId, material: int, now: int)
    requires Exact(s)
    ensures Exact(Stored(l, s, ip, id, material, now)) <==> id !in s.entries
  {
    var b := Stored(l, s, ip, id, material, now);
    assert CountOf(s.perIp, ip) == |Held(s.entries, ip)|;
    if id !in s.entries {
      forall x
        ensures CountOf(b.perIp, x) == |Held(b.entries, x)|
      {
        assert CountOf(s.perIp, x) == |Held(s.entries, x)|;
        StoredHeld(l, s, ip, id, material, now, x);
      }
    } else {
      assert CountOf(b.perIp, ip) == |Held(b.entries, ip)| + 1;
    }
  }

  lemma StoredHeld(l: Limits, s: State, ip: string, id: KeyId, material: int, now: int, x: string)
    requires id !in s.entries
    ensures |Held(Stored(l, s, ip, id, material, now).entries, x)| == |Held(s.entries, x)| + if x == ip then 1 else 0
  {
    var b := Stored(l, s, ip, id, material, now);
    if x == ip {
      assert Held(b.entries, x) == Held(s.entries, x) + {id};
    } else {
      assert Held(b.entries, x) == Held(s.entries, x);
    }
  }

  lemma {:induction false} ErasingAll(s: State, ids: set<KeyId>)
    requires Exact(s) && ids <= s.entries.Keys
    ensures Exact(ErasedAll(s, ids))
    decreases |ids|
  {
    hide Exact;
    if ids != {} {
      var id :| id in ids && ErasedAll(s, ids) == ErasedAll(Erased(s, id), ids - {id});
      ErasingOne(s, id);
      ErasingAll(Erased(s, id), ids - {id});
    }
  }

  /** A sweep leaves exact counters exact. */
  lemma SweptStaysExact(s: State, now: int)
    requires Exact(s)
    ensures Exact(Swept(s, now))
  {
    hide Exact;
    ErasingAll(s, Expired(s.entries, now));
  }

  /** Exact counters are determined by the entries, so the order in which keys are erased is of no account. */
  lemma ExactCountersAgree(a: State, b: State)
    requires Exact(a) && Exact(b) && a.entries == b.entries
    ensures a == b
  {
    forall ip
      ensures ip in a.perIp <==> ip in b.perIp
      ensures ip in a.perIp ==> a.perIp[ip] == b.perIp[ip]
    {
      assert CountOf(a.perIp, ip) == CountOf(b.perIp, ip);
    }
  }

  // ---------------------------------------------------------------- the store

  class SealedKeyStore {
    const limits: Limits
    var entries: Entries
    var perIp: Counters

    function View(): State
      reads this
    {
      State(entries, perIp)
    }

    ghost predicate Valid()
      reads this
    {
      Exact(View())
    }

    constructor (l: Limits)
      ensures Valid() && limits == l && View() == State(map[], map[])
    {
      limits, entries, perIp := l, map[], map[];
      new;
      assert forall ip :: Held(map[], ip) == {};
    }

    method DropCount(ip: string)
      modifies this`perIp
      ensures perIp == OneLess(old(perIp), ip)
    {
      if ip in perIp {
        if perIp[ip] <= 1 {
          perIp := perIp - {ip};
        } else {
          perIp := perIp[ip := perIp[ip] - 1];
        }
      }
    }

    method Erase(id: KeyId)
      requires Valid()
      modifies this
      ensures Valid() && View() == Erased(old(View()), id)
    {
      hide Exact;
      if id in entries {
        ErasingOne(View(), id);
        DropCount(entries[id].ip);
        entries := entries - {id};
      }
    }

    /** Walks the table and erases what has expired. */
    method Sweep(now: int) returns (removed: nat)
      requires Valid()
      modifies this
      ensures Valid() && View() == Swept(old(View()), now)
      ensures removed + |entries| == |old(entries)|
    {
      hide Exact;
      removed := 0;
      var todo := entries.Keys;
      while todo != {}
        invariant Valid() && todo <= entries.Keys <= old(entries).Keys
        invariant forall k :: k in entries ==> entries[k] == old(entries)[k]
        invariant forall k :: k in old(entries) && k !in todo ==> (k in entries <==> now < old(entries)[k].expires)
        invariant removed + |entries| == |old(entries)|
      {
        var k :| k in todo;
        todo := todo - {k};
        if now >= entries[k].expires {
          ErasingOne(View(), k);
          Erase(k);
          removed := removed + 1;
        }
      }
      assert entries == Live(old(entries), now);
      SweptStaysExact(old(View()), now);
      ExactCountersAgree(View(), Swept(old(View()), now));
    }

    /** The first critical section of `issue`: sweep, then test both caps. */
    method IssueCheck(ip: string, now: int) returns (ok: bool)
      requires Valid()
      modifies this
      ensures Valid() && View() == Swept(old(View()), now)
      ensures ok <==> Admits(limits, View(), ip)
    {
      hide Exact;
      var removed := Sweep(now);
      if |entries| >= limits.maxTotal {
        return false;
      }
      return ip !in perIp || perIp[ip] < limits.maxPerIp;
    }

    /** The second: test again, then store the minted key under an id not in use. */
    method IssueCommit(ip: string, id: KeyId, material: int, now: int) returns (ok: bool)
      requires Valid() && id !in entries
      modifies this
      ensures Valid() && (ok <==> Admits(limits, old(View()), ip))
      ensures View() == if ok then Stored(limits, old(View()), ip, id, material, now) else old(View())
    {
      hide Exact;
      if |entries| >= limits.maxTotal {
        return false;
      }
      if ip in perIp && perIp[ip] >= limits.maxPerIp {
        return false;
      }
      StoringOne(limits, View(), ip, id, material, now);
      entries := entries[id := Entry(material, Expiry(limits, now), ip)];
      perIp := perIp[ip := CountOf(perIp, ip) + 1];
      return true;
    }

    /** Removes the key whether or not it has expired; only a live one is handed out. */
    method Consume(id: KeyId, now: int) returns (material: Option<int>)
      requires Valid()
      modifies this
      ensures Valid() && material == Handed(old(View()), id, now)
      ensures View() == Consumed(old(View()), id)
    {
      hide Exact;
      if |id| != KEY_ID_SIZE || id !in entries {
        return None;
      }
      var expired := now >= entries[id].expires;
      var taken := entries[id].material;
      Erase(id);
      return if expired then None else Some(taken);
    }
  }

  function Handed(s: State, id: KeyId, now: int): Option<int> {
    if |id| == KEY_ID_SIZE && id in s.entries && now < s.entries[id].expires then Some(s.entries[id].material) else None
  }

  function Consumed(s: State, id: KeyId): State {
    if |id| == KEY_ID_SIZE then Erased(s, id) else s
  }

  // ---------------------------------------------------------------- runs

  /** The critical sections of any number of concurrent callers, in the order they took the lock. */
  datatype Event =
    | Check(ip: string, now: int)
    | Commit(ip: string, id: KeyId, material: int, now: int)
    | Consume(id: KeyId, now: int)
    | Sweep(now: int)

  /** What one critical section does. */
  ghost predicate Follows(l: Limits, a: State, e: Event, b: State) {
    match e
    case Check(_, now) => b == Swept(a, now)
    case Sweep(now) => b == Swept(a, now)
    case Commit(ip, id, material, now) => b == if Admits(l, a, ip) then Stored(l, a, ip, id, material, now) else a
    case Consume(id, _) => b == Consumed(a, id)
  }

  /** `ss` are the states of a run: one operation between each and the next, every stored id new. */
  ghost predicate IsRun(l: Limits, es: seq<Event>, ss: seq<State>) {
    && |ss| == |es| + 1 && ss[0] == State(map[], map[])
    && (forall i :: 0 <= i < |es| ==> Follows(l, ss[i], es[i], ss[i + 1]))
    && (forall i, j :: 0 <= i < j < |es| && es[i].Commit? && es[j].Commit? ==> es[i].id != es[j].id)
  }

  // ---------------------------------------------------------------- where keys come from

  predicate Stores(l: Limits, es: seq<Event>, ss: seq<State>, i: nat, id: KeyId)
    requires i < |es| && |ss| == |es| + 1
  {
    es[i].Commit? && es[i].id == id && Admits(l, ss[i], es[i].ip)
  }

  /** A key in the store was put there by an earlier operation, whose time fixes its expiry. */
  ghost predicate HasOrigin(l: Limits, es: seq<Event>, ss: seq<State>, n: nat, id: KeyId, e: Entry)
    requires n < |ss| == |es| + 1
  {
    exists i :: 0 <= i < n && Stores(l, es, ss, i, id) && e == Entry(es[i].material, Expiry(l, es[i].now), es[i].ip)
  }

  lemma {:induction false} EveryKeyHasOrigin(l: Limits, es: seq<Event>, ss: seq<State>, n: nat, id: KeyId)
    requires IsRun(l, es, ss) && n < |ss| && id in ss[n].entries
    ensures HasOrigin(l, es, ss, n, id, ss[n].entries[id])
  {
    hide Exact;
    var i := n - 1;
    assert n > 0;
    assert Follows(l, ss[i], es[i], ss[i + 1]);
    if id in ss[i].entries {
      EveryKeyHasOrigin(l, es, ss, i, id);
    } else {
      assert Stores(l, es, ss, i, id);
    }
  }

  /** The id an operation stores was not in the store. */
  lemma StoredIdIsNew(l: Limits, es: seq<Event>, ss: seq<State>, n: nat)
    requires IsRun(l, es, ss) && n < |es| && es[n].Commit?
    ensures es[n].id !in ss[n].entries
  {
    hide Follows;
    if es[n].id in ss[n].entries {
      EveryKeyHasOrigin(l, es, ss, n, es[n].id);
    }
  }

  // ---------------------------------------------------------------- the caps

  ghost predicate Capped(l: Limits, s: State) {
    |s.entries| <= l.maxTotal && forall ip :: |Held(s.entries, ip)| <= l.maxPerIp
  }

  lemma SubsetSize<T>(a: set<T>, b: set<T>)
    requires a <= b
    ensures |a| <= |b|
  {
    if a != {} {
      var x :| x in a;
      SubsetSize(a - {x}, b - {x});
    }
  }

  lemma FewerStayCapped(l: Limits, a: Entries, b: State)
    requires Capped(l, State(a, b.perIp)) && forall k :: k in b.entries ==> k in a && b.entries[k] == a[k]
    ensures Capped(l, b)
  {
    SubsetSize(b.entries.Keys, a.Keys);
    assert |b.entries| == |b.entries.Keys| && |a| == |a.Keys|;
    forall ip
      ensures |Held(b.entries, ip)| <= l.maxPerIp
    {
      assert |Held(a, ip)| <= l.maxPerIp;
      SubsetSize(Held(b.entries, ip), Held(a, ip));
    }
  }

  lemma StoredStaysCapped(l: Limits, a: State, ip: string, id: KeyId, material: int, now: int)
    requires l.maxPerIp >= 1 && Exact(a) && Capped(l, a) && Admits(l, a, ip)
    ensures Capped(l, Stored(l, a, ip, id, material, now))
  {
    var b := Stored(l, a, ip, id, material, now);
    if id !in a.entries {
      assert b.entries.Keys == a.entries.Keys + {id};
      assert |b.entries| == |b.entries.Keys| && |a.entries| == |a.entries.Keys|;
      forall x
        ensures |Held(b.entries, x)| <= l.maxPerIp
      {
        assert CountOf(a.perIp, x) == |Held(a.entries, x)| <= l.maxPerIp;
        StoredHeld(l, a, ip, id, material, now, x);
      }
    }
  }

  lemma StepStaysExact(l: Limits, a: State, e: Event, b: State)
    requires Exact(a) && Follows(l, a, e, b) && (e.Commit? ==> e.id !in a.entries)
    ensures Exact(b)
  {
    hide Exact;
    if e.Commit? && Admits(l, a, e.ip) {
      StoringOne(l, a, e.ip, e.id, e.material, e.now);
    } else if e.Consume? && e.id in a.entries {
      ErasingOne(a, e.id);
    } else if e.Check? || e.Sweep? {
      SweptStaysExact(a, e.now);
    }
  }

  lemma StepStaysCapped(l: Limits, a: State, e: Event, b: State)
    requires l.maxPerIp >= 1 && Exact(a) && Capped(l, a) && Follows(l, a, e, b)
    requires e.Commit? ==> e.id !in a.entries
    ensures Exact(b) && Capped(l, b)
  {
    hide Exact, Capped;
    StepStaysExact(l, a, e, b);
    assert Capped(l, State(a.entries, b.perIp)) by {
      SameEntriesSameCap(l, a, State(a.entries, b.perIp));
    }
    if e.Commit? && Admits(l, a, e.ip) {
      StoredStaysCapped(l, a, e.ip, e.id, e.material, e.now);
    } else {
      FewerStayCapped(l, a.entries, b);
    }
  }

  lemma SameEntriesSameCap(l: Limits, a: State, b: State)
    requires Capped(l, a) && a.entries == b.entries
    ensures Capped(l, b)
  {
  }

  /** The counter of every address equals the keys held for it, at every step of every run. */
  lemma {:induction false} CountersStayExact(l: Limits, es: seq<Event>, ss: seq<State>, n: nat)
    requires IsRun(l, es, ss) && n < |ss|
    ensures Exact(ss[n])
  {
    hide Exact, Follows;
    if n == 0 {
      EmptyIsCapped(l);
    } else {
      CountersStayExact(l, es, ss, n - 1);
      assert Follows(l, ss[n - 1], es[n - 1], ss[n - 1 + 1]);
      if es[n - 1].Commit? {
        StoredIdIsNew(l, es, ss, n - 1);
      }
      StepStaysExact(l, ss[n - 1], es[n - 1], ss[n]);
    }
  }

  /** Both caps hold after every step of every run, the unlocked gap notwithstanding. */
  lemma {:induction false} RunsStayCapped(l: Limits, es: seq<Event>, ss: seq<State>, n: nat)
    requires IsRun(l, es, ss) && l.maxPerIp >= 1 && n < |ss|
    ensures Exact(ss[n]) && Capped(l, ss[n])
  {
    hide Exact, Capped, Follows;
    if n == 0 {
      EmptyIsCapped(l);
    } else {
      RunsStayCapped(l, es, ss, n - 1);
      assert Follows(l, ss[n - 1], es[n - 1], ss[n - 1 + 1]);
      if es[n - 1].Commit? {
        StoredIdIsNew(l, es, ss, n - 1);
      }
      StepStaysCapped(l, ss[n - 1], es[n - 1], ss[n]);
    }
  }

  lemma EmptyIsCapped(l: Limits)
    ensures Exact(State(map[], map[])) && Capped(l, State(map[], map[]))
  {
    assert forall ip :: Held(map[], ip) == {};
  }

  /** An address without a counter is never compared with the cap, so a cap of zero lets one key through. */
  lemma ZeroCapLetsOneThrough(l: Limits) returns (es: seq<Event>, ss: seq<State>)
    requires l.maxPerIp == 0 && l.maxTotal >= 1
    ensures IsRun(l, es, ss) && |ss| == 2 && !Capped(l, ss[1])
  {
    var s := State(map[], map[]);
    var id := seq(16, _ => 0);
    var b := Stored(l, s, "ip", id, 0, 0);
    es, ss := [Commit("ip", id, 0, 0)], [s, b];
    EmptyIsCapped(l.(maxPerIp := 1));
    StoringOne(l, s, "ip", id, 0, 0);
    StoredHeld(l, s, "ip", id, 0, 0, "ip");
    assert |s.entries| == 0;
    assert |Held(b.entries, "ip")| > l.maxPerIp;
  }

  ghost predicate AlwaysCapped(l: Limits) {
    forall es, ss, n: nat :: IsRun(l, es, ss) && n < |ss| ==> Capped(l, ss[n])
  }

  /** The caps hold over every run exactly when the per-address cap is at least one, or nothing is stored at all. */
  lemma CapsHoldIff(l: Limits)
    ensures AlwaysCapped(l) <==> l.maxPerIp >= 1 || l.maxTotal == 0
  {
    if l.maxPerIp >= 1 {
      forall es, ss, n: nat | IsRun(l, es, ss) && n < |ss|
        ensures Capped(l, ss[n])
      {
        RunsStayCapped(l, es, ss, n);
      }
    } else if l.maxTotal == 0 {
      forall es, ss, n: nat | IsRun(l, es, ss) && n < |ss|
        ensures Capped(l, ss[n])
      {
        NothingStored(l, es, ss, n);
      }
    } else {
      var es, ss := ZeroCapLetsOneThrough(l);
      assert !Capped(l, ss[1]);
    }
  }

  lemma {:induction false} NothingStored(l: Limits, es: seq<Event>, ss: seq<State>, n: nat)
    requires IsRun(l, es, ss) && l.maxTotal == 0 && n < |ss|
    ensures ss[n].entries == map[] && Capped(l, ss[n])
  {
    hide Exact;
    if n > 0 {
      NothingStored(l, es, ss, n - 1);
      assert Follows(l, ss[n - 1], es[n - 1], ss[n - 1 + 1]);
    }
    assert forall ip :: Held(map[], ip) == {};
  }

  // ---------------------------------------------------------------- one time, in time

  /** Operation `i` hands out the key `id`. */
  predicate HandsOut(es: seq<Event>, ss: seq<State>, i: nat, id: KeyId)
    requires i < |es| && |ss| == |es| + 1
  {
    es[i].Consume? && es[i].id == id && Handed(ss[i], id, es[i].now).Some?
  }

  lemma StepAddsOnlyItsKey(l: Limits, a: State, e: Event, b: State, id: KeyId)
    requires Follows(l, a, e, b) && id in b.entries
    ensures id in a.entries || (e.Commit? && e.id == id)
  {
    hide Exact;
  }

  lemma {:induction false} StaysOut(l: Limits, es: seq<Event>, ss: seq<State>, i: nat, n: nat, id: KeyId)
    requires IsRun(l, es, ss) && i <= n < |ss| && id !in ss[i].entries
    requires forall k :: i <= k < n ==> !(es[k].Commit? && es[k].id == id)
    ensures id !in ss[n].entries
    decreases n
  {
    hide Follows;
    if i < n {
      StaysOut(l, es, ss, i, n - 1, id);
      assert Follows(l, ss[n - 1], es[n - 1], ss[n - 1 + 1]);
      if id in ss[n].entries {
        StepAddsOnlyItsKey(l, ss[n - 1], es[n - 1], ss[n], id);
      }
    }
  }

  lemma HandingOutRemoves(l: Limits, es: seq<Event>, ss: seq<State>, i: nat, id: KeyId)
    requires IsRun(l, es, ss) && i < |es| && HandsOut(es, ss, i, id)
    ensures id in ss[i].entries && id !in ss[i + 1].entries
  {
    hide Exact;
    assert Follows(l, ss[i], es[i], ss[i + 1]);
  }

  /** No key is handed out twice, however the operations of several callers interleave. */
  lemma HandedOutOnce(l: Limits, es: seq<Event>, ss: seq<State>, i: nat, j: nat, id: KeyId)
    requires IsRun(l, es, ss) && i < |es| && j < |es| && HandsOut(es, ss, i, id) && HandsOut(es, ss, j, id)
    ensures i == j
  {
    hide Follows, Handed;
    if i < j {
      NotHandedAgain(l, es, ss, i, j, id);
    } else if j < i {
      NotHandedAgain(l, es, ss, j, i, id);
    }
  }

  lemma NotHandedAgain(l: Limits, es: seq<Event>, ss: seq<State>, i: nat, j: nat, id: KeyId)
    requires IsRun(l, es, ss) && i < j < |es| && HandsOut(es, ss, i, id)
    ensures !HandsOut(es, ss, j, id)
  {
    hide Follows;
    HandingOutRemoves(l, es, ss, i, id);
    EveryKeyHasOrigin(l, es, ss, i, id);
    StaysOut(l, es, ss, i + 1, j, id);
  }

  /** A key is handed out only as it was stored, and strictly before its lifetime is over. */
  lemma HandedOutInTime(l: Limits, es: seq<Event>, ss: seq<State>, j: nat, id: KeyId) returns (i: nat)
    requires IsRun(l, es, ss) && j < |es| && HandsOut(es, ss, j, id)
    ensures i < j && Stores(l, es, ss, i, id)
    ensures es[j].now < es[i].now + l.ttlSeconds * NANOS_PER_SECOND
    ensures Handed(ss[j], id, es[j].now) == Some(es[i].material)
  {
    hide Follows;
    EveryKeyHasOrigin(l, es, ss, j, id);
    i :| 0 <= i < j && Stores(l, es, ss, i, id)
      && ss[j].entries[id] == Entry(es[i].material, Expiry(l, es[i].now), es[i].ip);
  }

  // ---------------------------------------------------------------- a key waits for its owner

  /** Nothing between operations `i` and `n` takes the key away: no other consumer, no sweep past its expiry. */
  predicate LeftAlone(l: Limits, es: seq<Event>, i: nat, n: nat, id: KeyId)
    requires i < |es| && es[i].Commit? && n <= |es|
  {
    forall k :: i < k < n ==>
      match es[k]
      case Consume(x, _) => x != id
      case Check(_, now) => now < Expiry(l, es[i].now)
      case Sweep(now) => now < Expiry(l, es[i].now)
      case Commit(_, _, _, _) => true
  }

  lemma {:induction false} KeyStays(l: Limits, es: seq<Event>, ss: seq<State>, i: nat, n: nat, id: KeyId)
    requires IsRun(l, es, ss) && i < n < |ss| && Stores(l, es, ss, i, id) && LeftAlone(l, es, i, n, id)
    ensures id in ss[n].entries && ss[n].entries[id] == Entry(es[i].material, Expiry(l, es[i].now), es[i].ip)
    decreases n
  {
    hide Exact, Swept, Admits;
    var k := n - 1;
    assert Follows(l, ss[k], es[k], ss[k + 1]);
    if k == i {
      StoredIdIsNew(l, es, ss, i);
    } else {
      KeyStays(l, es, ss, i, k, id);
      if es[k].Commit? {
        assert es[i].id != es[k].id;
      }
    }
  }

  /** A stored key is handed out to the first who asks for it in time, however other operations come between. */
  lemma HandedOutWhenAsked(l: Limits, es: seq<Event>, ss: seq<State>, i: nat, j: nat, id: KeyId)
    requires IsRun(l, es, ss) && i < j < |es| && Stores(l, es, ss, i, id) && LeftAlone(l, es, i, j, id)
    requires es[j].Consume? && es[j].id == id && |id| == KEY_ID_SIZE
    ensures HandsOut(es, ss, j, id) <==> es[j].now < es[i].now + l.ttlSeconds * NANOS_PER_SECOND
  {
    hide Follows;
    KeyStays(l, es, ss, i, j, id);
  }
}
