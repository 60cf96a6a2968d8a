/** The routing table as it changes: `peerFound`, `peerFailed` and the expiry of its caches.

    `Tables` is the whole mutable state as a value and `PeerFound`/`PeerFailed`
    say what one call does to it; the class `RoutingTable` in `PeerMapObject` does it in place. */
module PeerMap {
  import opened Wrappers
  import opened Metric
  import N = Number160
  import Bags
  import ClosePeers

  /** What the table reads of a peer address; `endpoint` stands for sockets and ports. */
  datatype Addr = Addr(id: Id, unreachable: bool, endpoint: nat)

  datatype PeerStatistic = PeerStatistic(addr: Addr, failed: nat, checked: nat, responses: nat)

  datatype Cause = Timeout | ProbablyOffline | Shutdown | Exception

  /** An insertion-ordered map that drops its eldest entry when it grows too large (`CacheMap`). */
  datatype Cache = Cache(entries: map<Id, PeerStatistic>, order: seq<Id>)

  datatype Config = Config(
    self: Id,
    bagSizesVerified: seq<nat>,
    bagSizesOverflow: seq<nat>,
    offlineCount: int,
    peerVerification: bool)

  datatype Tables = Tables(
    verified: seq<map<Id, PeerStatistic>>,
    overflow: seq<Cache>,
    offline: map<Id, Addr>,
    shutdown: map<Id, Addr>,
    exceptions: map<Id, Addr>)

  predicate ValidConfig(cfg: Config) {
    cfg.self != 0 && |cfg.bagSizesVerified| == N.BITS && |cfg.bagSizesOverflow| == N.BITS
  }

  predicate Shaped(t: Tables) {
    |t.verified| == N.BITS && |t.overflow| == N.BITS
  }

  // ---------------------------------------------------------------- the overflow cache

  function Dropped(order: seq<Id>, id: Id): (r: seq<Id>)
    ensures |r| <= |order|
    ensures forall x :: x in r <==> x in order && x != id
  {
    if order == [] then []
    else
      var n := |order| - 1;
      assert order == order[..n] + [order[n]];
      Dropped(order[..n], id) + if order[n] == id then [] else [order[n]]
  }

  function CacheRemove(c: Cache, id: Id): (r: Cache) {
    Cache(c.entries - {id}, Dropped(c.order, id))
  }

  function CachePut(c: Cache, id: Id, ps: PeerStatistic, maxEntries: nat): (r: Cache) {
    if id in c.entries then Cache(c.entries[id := ps], c.order)
    else
      var order := c.order + [id];
      if |order| > maxEntries then Cache(c.entries[id := ps] - {order[0]}, order[1..])
      else Cache(c.entries[id := ps], order)
  }

  ghost predicate CacheOk(c: Cache, maxEntries: nat) {
    |c.order| <= maxEntries &&
    (forall x :: x in c.order <==> x in c.entries) &&
    Distinct(c.order)
  }

  ghost predicate Distinct(s: seq<Id>) {
    forall i, j :: 0 <= i < j < |s| ==> s[i] != s[j]
  }

  lemma {:induction false} DroppedDistinct(order: seq<Id>, id: Id)
    requires Distinct(order)
    ensures Distinct(Dropped(order, id))
  {
    if order != [] {
      var n := |order| - 1;
      DroppedDistinct(order[..n], id);
      DistinctSnoc(Dropped(order[..n], id), order[n]);
    }
  }

  lemma DistinctSnoc(s: seq<Id>, x: Id)
    requires Distinct(s) && x !in s
    ensures Distinct(s + [x])
  {
  }

  lemma CacheRemoveOk(c: Cache, id: Id, maxEntries: nat)
    requires CacheOk(c, maxEntries)
    ensures CacheOk(CacheRemove(c, id), maxEntries)
  {
    DroppedDistinct(c.order, id);
  }

  lemma CachePutOk(c: Cache, id: Id, ps: PeerStatistic, maxEntries: nat)
    requires CacheOk(c, maxEntries)
    ensures CacheOk(CachePut(c, id, ps, maxEntries), maxEntries)
  {
    if id !in c.entries {
      var order := c.order + [id];
      DistinctSnoc(c.order, id);
      assert forall x :: x in order <==> x in c.entries[id := ps];
      if |order| > maxEntries {
        EldestGone(order);
      }
    }
  }

  lemma EldestGone(order: seq<Id>)
    requires Distinct(order) && order != []
    ensures Distinct(order[1..])
    ensures forall x :: x in order[1..] <==> x in order && x != order[0]
  {
    assert order == [order[0]] + order[1..];
    forall x | x in order[1..] ensures x != order[0] {
      var i :| 0 <= i < |order[1..]| && order[1..][i] == x;
      assert order[i + 1] == x;
    }
  }

  // ---------------------------------------------------------------- the invariant

  /** A statistic that has failed this often is evicted. */
  function Limit(cfg: Config): (l: nat)
    ensures l >= 1
  {
    if cfg.offlineCount < 1 then 1 else cfg.offlineCount
  }

  ghost predicate EntryOk(cfg: Config, c: nat, id: Id, ps: PeerStatistic) {
    ps.addr.id == id && id != 0 && Class(cfg.self, id) == c && !ps.addr.unreachable && ps.failed < Limit(cfg)
  }

  ghost predicate Entries(cfg: Config, c: nat, m: map<Id, PeerStatistic>) {
    forall id :: id in m ==> EntryOk(cfg, c, id, m[id])
  }

  /** One class: its verified bag `v` and its overflow bag `o`. */
  ghost predicate PairOk(cfg: Config, c: nat, v: map<Id, PeerStatistic>, o: Cache)
    requires ValidConfig(cfg) && c < N.BITS
  {
    |v| <= cfg.bagSizesVerified[c] && CacheOk(o, cfg.bagSizesOverflow[c]) &&
    Entries(cfg, c, v) && Entries(cfg, c, o.entries) && v.Keys !! o.entries.Keys
  }

  ghost predicate BagOk(cfg: Config, t: Tables, c: nat)
    requires ValidConfig(cfg) && Shaped(t) && c < N.BITS
  {
    PairOk(cfg, c, t.verified[c], t.overflow[c]) &&
    t.verified[c].Keys !! t.offline.Keys && t.verified[c].Keys !! t.shutdown.Keys
  }

  /** What holds of the table at all times. */
  ghost predicate WellFormed(cfg: Config, t: Tables) {
    ValidConfig(cfg) && Shaped(t) && forall c {:trigger BagOk(cfg, t, c)} :: 0 <= c < N.BITS ==> BagOk(cfg, t, c)
  }

  function Empty(): (t: Tables) {
    Tables(seq(N.BITS, _ => map[]), seq(N.BITS, _ => Cache(map[], [])), map[], map[], map[])
  }

  lemma EmptyWellFormed(cfg: Config)
    requires ValidConfig(cfg)
    ensures WellFormed(cfg, Empty())
  {
  }

  /** Self, which has no class, and the zero id are in neither bag. */
  predicate Foreign(cfg: Config, t: Tables, c: nat)
    requires Shaped(t) && c < N.BITS
  {
    cfg.self !in t.verified[c] && cfg.self !in t.overflow[c].entries && 0 !in t.verified[c] && 0 !in t.overflow[c].entries
  }

  lemma NeverSelf(cfg: Config, t: Tables)
    requires WellFormed(cfg, t)
    ensures forall c :: 0 <= c < N.BITS ==> Foreign(cfg, t, c)
  {
    ClassEqual(cfg.self, cfg.self);
    forall c | 0 <= c < N.BITS ensures Foreign(cfg, t, c) {
      assert BagOk(cfg, t, c);
    }
  }

  // ---------------------------------------------------------------- the operations as functions

  function ClassOf(cfg: Config, id: Id): (c: nat)
    requires id != cfg.self
    ensures c == Class(cfg.self, id) < N.BITS
  {
    ClassEqual(cfg.self, id);
    Class(cfg.self, id)
  }

  function WithPair(t: Tables, c: nat, v: map<Id, PeerStatistic>, o: Cache): (r: Tables)
    requires Shaped(t) && c < N.BITS
    ensures Shaped(r)
  {
    t.(verified := t.verified[c := v], overflow := t.overflow[c := o])
  }

  function SuccessfullyChecked(ps: PeerStatistic): (r: PeerStatistic) {
    ps.(failed := 0, checked := ps.checked + 1)
  }

  /** `updateExistingVerifiedPeerAddress` for first-hand information. */
  function Updated(ps: PeerStatistic, a: Addr): (r: PeerStatistic) {
    SuccessfullyChecked(ps).(addr := a, responses := ps.responses + 1)
  }

  function Trusted(t: Tables, id: Id): (r: Tables) {
    t.(offline := t.offline - {id}, shutdown := t.shutdown - {id})
  }

  /** Where a call got its knowledge from. */
  function FirstHand(referrer: Option<Addr>): (b: bool) {
    referrer.None?
  }

  function SecondHand(remote: Addr, referrer: Option<Addr>): (b: bool) {
    referrer.Some? && referrer.value.id == remote.id
  }

  /** Information good enough to enter the verified bags. */
  function Reliable(cfg: Config, remote: Addr, referrer: Option<Addr>): (b: bool) {
    FirstHand(referrer) || (SecondHand(remote, referrer) && !cfg.peerVerification)
  }

  function ProbablyDead(t: Tables, id: Id): (b: bool) {
    id in t.offline || id in t.shutdown || id in t.exceptions
  }

  /** The address as it is stored: first-hand contact proves it reachable. */
  function Stored(remote: Addr): (a: Addr) {
    remote.(unreachable := false)
  }

  /** The two bags of the peer's class after an accepted report. */
  function Accept(cfg: Config, c: nat, v: map<Id, PeerStatistic>, o: Cache, remote: Addr, referrer: Option<Addr>)
    : (r: (map<Id, PeerStatistic>, Cache, bool))
    requires ValidConfig(cfg) && c < N.BITS
  {
    var id := remote.id;
    if id in v then
      if FirstHand(referrer) then (v[id := Updated(v[id], Stored(remote))], o, true) else (v, o, false)
    else if Reliable(cfg, remote, referrer) && |v| < cfg.bagSizesVerified[c] then
      (v[id := SuccessfullyChecked(PeerStatistic(Stored(remote), 0, 0, 0))], CacheRemove(o, id), true)
    else
      var ps := if id in o.entries then o.entries[id] else PeerStatistic(Stored(remote), 0, 0, 0);
      var ps' := if FirstHand(referrer) then SuccessfullyChecked(ps) else ps;
      (v, CachePut(o, id, ps', cfg.bagSizesOverflow[c]), true)
  }

  function PeerFound(cfg: Config, t: Tables, remote: Addr, referrer: Option<Addr>, rejected: bool): (r: (Tables, bool))
    requires ValidConfig(cfg) && Shaped(t)
    ensures Shaped(r.0)
  {
    var t1 := if Reliable(cfg, remote, referrer) then Trusted(t, remote.id) else t;
    if remote.id == 0 || remote.id == cfg.self || rejected then (t1, false)
    else if remote.unreachable && !FirstHand(referrer) then (t1, false)
    else if !FirstHand(referrer) && !SecondHand(remote, referrer) && ProbablyDead(t1, remote.id) then (t1, false)
    else
      var c := ClassOf(cfg, remote.id);
      var (v, o, added) := Accept(cfg, c, t1.verified[c], t1.overflow[c], remote, referrer);
      (WithPair(t1, c, v, o), added)
  }

  function Banned(t: Tables, a: Addr, cause: Cause): (r: Tables)
    requires cause != Timeout
  {
    match cause
    case ProbablyOffline => t.(offline := t.offline[a.id := a])
    case Shutdown => t.(shutdown := t.shutdown[a.id := a])
    case Exception => t.(exceptions := t.exceptions[a.id := a])
  }

  /** A failure that is not a timeout: out of both bags, into the list for its cause. */
  function Evict(cfg: Config, t: Tables, a: Addr, cause: Cause): (r: (Tables, bool))
    requires Shaped(t) && a.id != cfg.self && cause != Timeout
    ensures Shaped(r.0)
  {
    var c := ClassOf(cfg, a.id);
    (WithPair(Banned(t, a, cause), c, t.verified[c] - {a.id}, CacheRemove(t.overflow[c], a.id)), a.id in t.verified[c])
  }

  function Failed(ps: PeerStatistic): (r: PeerStatistic) {
    ps.(failed := ps.failed + 1)
  }

  function CountVerified(t: Tables, c: nat, id: Id): (r: Tables)
    requires Shaped(t) && c < N.BITS
    ensures Shaped(r)
  {
    if id in t.verified[c] then
      var v: map<Id, PeerStatistic> := t.verified[c][id := Failed(t.verified[c][id])];
      t.(verified := t.verified[c := v])
    else t
  }

  function CountOverflow(t: Tables, c: nat, id: Id): (r: Tables)
    requires Shaped(t) && c < N.BITS
    ensures Shaped(r)
  {
    if id in t.overflow[c].entries then
      var es: map<Id, PeerStatistic> := t.overflow[c].entries[id := Failed(t.overflow[c].entries[id])];
      t.(overflow := t.overflow[c := Cache(es, t.overflow[c].order)])
    else t
  }

  function PeerFailed(cfg: Config, t: Tables, a: Addr, cause: Cause): (r: (Tables, bool))
    requires Shaped(t)
    ensures Shaped(r.0)
  {
    if a.id == 0 || a.id == cfg.self then (t, false)
    else if cause != Timeout then Evict(cfg, t, a, cause)
    else
      var c := ClassOf(cfg, a.id);
      var t1 := CountVerified(t, c, a.id);
      if a.id in t1.verified[c] && t1.verified[c][a.id].failed >= cfg.offlineCount then Evict(cfg, t1, a, ProbablyOffline)
      else
        var t2 := CountOverflow(t1, c, a.id);
        if a.id in t2.overflow[c].entries && t2.overflow[c].entries[a.id].failed >= cfg.offlineCount then
          Evict(cfg, t2, a, ProbablyOffline)
        else (t2, false)
  }

  /** Cache entries that time out or are pushed out by others. */
  function Expire(t: Tables, gone: set<Id>): (r: Tables) {
    t.(offline := t.offline - gone, shutdown := t.shutdown - gone, exceptions := t.exceptions - gone)
  }

  datatype Event =
    | Found(remote: Addr, referrer: Option<Addr>, rejected: bool)
    | Lost(peer: Addr, cause: Cause)
    | Expired(gone: set<Id>)

  function Apply(cfg: Config, t: Tables, e: Event): (r: Tables)
    requires ValidConfig(cfg) && Shaped(t)
    ensures Shaped(r)
  {
    match e
    case Found(remote, referrer, rejected) => PeerFound(cfg, t, remote, referrer, rejected).0
    case Lost(peer, cause) => PeerFailed(cfg, t, peer, cause).0
    case Expired(gone) => Expire(t, gone)
  }

  function Run(cfg: Config, t: Tables, es: seq<Event>): (r: Tables)
    requires ValidConfig(cfg) && Shaped(t)
    ensures Shaped(r)
    decreases |es|
  {
    if es == [] then t else Run(cfg, Apply(cfg, t, es[0]), es[1..])
  }

  // ---------------------------------------------------------------- every operation keeps the invariant

  /** Only one class changes, and the ban lists shrink or gain a peer of that class. */
  lemma OtherBags(cfg: Config, t: Tables, t': Tables, c: nat, p: Id)
    requires WellFormed(cfg, t) && Shaped(t') && p != cfg.self && c == ClassOf(cfg, p)
    requires forall k :: 0 <= k < N.BITS && k != c ==> t'.verified[k] == t.verified[k] && t'.overflow[k] == t.overflow[k]
    requires t'.offline.Keys <= t.offline.Keys + {p} && t'.shutdown.Keys <= t.shutdown.Keys + {p}
    requires BagOk(cfg, t', c)
    ensures WellFormed(cfg, t')
  {
    forall k | 0 <= k < N.BITS ensures BagOk(cfg, t', k) {
      assert BagOk(cfg, t, k);
      if k != c {
        assert p !in t.verified[k];
      }
    }
  }

  lemma RemovedSize(v: map<Id, PeerStatistic>, id: Id)
    ensures |v - {id}| <= |v|
  {
    assert (v - {id}).Keys == v.Keys - {id};
    assert |v.Keys - {id}| <= |v.Keys|;
  }

  lemma UpdatedSize(v: map<Id, PeerStatistic>, id: Id, ps: PeerStatistic)
    ensures |v[id := ps]| == |v| + if id in v then 0 else 1
  {
    assert v[id := ps].Keys == v.Keys + {id};
  }

  lemma EntriesPut(cfg: Config, c: nat, m: map<Id, PeerStatistic>, id: Id, ps: PeerStatistic)
    requires Entries(cfg, c, m) && EntryOk(cfg, c, id, ps)
    ensures Entries(cfg, c, m[id := ps])
  {
  }

  lemma AcceptVerified(cfg: Config, c: nat, v: map<Id, PeerStatistic>, o: Cache, id: Id, ps: PeerStatistic)
    requires ValidConfig(cfg) && c < N.BITS && PairOk(cfg, c, v, o) && EntryOk(cfg, c, id, ps)
    requires id in v || |v| < cfg.bagSizesVerified[c]
    ensures PairOk(cfg, c, v[id := ps], CacheRemove(o, id))
  {
    UpdatedSize(v, id, ps);
    EntriesPut(cfg, c, v, id, ps);
    CacheRemoveOk(o, id, cfg.bagSizesOverflow[c]);
  }

  lemma AcceptUpdate(cfg: Config, c: nat, v: map<Id, PeerStatistic>, o: Cache, id: Id, ps: PeerStatistic)
    requires ValidConfig(cfg) && c < N.BITS && PairOk(cfg, c, v, o) && EntryOk(cfg, c, id, ps) && id in v
    ensures PairOk(cfg, c, v[id := ps], o)
  {
    UpdatedSize(v, id, ps);
    EntriesPut(cfg, c, v, id, ps);
  }

  lemma AcceptOverflow(cfg: Config, c: nat, v: map<Id, PeerStatistic>, o: Cache, id: Id, ps: PeerStatistic)
    requires ValidConfig(cfg) && c < N.BITS && PairOk(cfg, c, v, o) && EntryOk(cfg, c, id, ps) && id !in v
    ensures PairOk(cfg, c, v, CachePut(o, id, ps, cfg.bagSizesOverflow[c]))
  {
    EntriesPut(cfg, c, o.entries, id, ps);
    CachePutOk(o, id, ps, cfg.bagSizesOverflow[c]);
  }

  lemma AcceptOk(cfg: Config, c: nat, v: map<Id, PeerStatistic>, o: Cache, remote: Addr, referrer: Option<Addr>)
    requires ValidConfig(cfg) && c < N.BITS && PairOk(cfg, c, v, o)
    requires remote.id != 0 && Class(cfg.self, remote.id) == c
    ensures var r := Accept(cfg, c, v, o, remote, referrer);
            PairOk(cfg, c, r.0, r.1) &&
            r.0.Keys <= v.Keys + (if Reliable(cfg, remote, referrer) then {remote.id} else {})
  {
    var id := remote.id;
    if id in v {
      AcceptUpdate(cfg, c, v, o, id, Updated(v[id], Stored(remote)));
    } else if Reliable(cfg, remote, referrer) && |v| < cfg.bagSizesVerified[c] {
      AcceptVerified(cfg, c, v, o, id, SuccessfullyChecked(PeerStatistic(Stored(remote), 0, 0, 0)));
    } else {
      var ps := if id in o.entries then o.entries[id] else PeerStatistic(Stored(remote), 0, 0, 0);
      AcceptOverflow(cfg, c, v, o, id, if FirstHand(referrer) then SuccessfullyChecked(ps) else ps);
    }
  }

  lemma TrustedOk(cfg: Config, t: Tables, id: Id)
    requires WellFormed(cfg, t)
    ensures WellFormed(cfg, Trusted(t, id))
  {
    forall c | 0 <= c < N.BITS ensures BagOk(cfg, Trusted(t, id), c) {
      assert BagOk(cfg, t, c);
    }
  }

  lemma PeerFoundOk(cfg: Config, t: Tables, remote: Addr, referrer: Option<Addr>, rejected: bool)
    requires WellFormed(cfg, t)
    ensures WellFormed(cfg, PeerFound(cfg, t, remote, referrer, rejected).0)
  {
    var t1 := if Reliable(cfg, remote, referrer) then Trusted(t, remote.id) else t;
    TrustedOk(cfg, t, remote.id);
    var t' := PeerFound(cfg, t, remote, referrer, rejected).0;
    if t' != t1 {
      var c := ClassOf(cfg, remote.id);
      assert BagOk(cfg, t1, c);
      AcceptOk(cfg, c, t1.verified[c], t1.overflow[c], remote, referrer);
      OtherBags(cfg, t1, t', c, remote.id);
    }
  }

  lemma EvictOk(cfg: Config, t: Tables, a: Addr, cause: Cause)
    requires WellFormed(cfg, t) && a.id != cfg.self && cause != Timeout
    ensures WellFormed(cfg, Evict(cfg, t, a, cause).0)
  {
    var c := ClassOf(cfg, a.id);
    var t' := Evict(cfg, t, a, cause).0;
    assert BagOk(cfg, t, c);
    RemovedSize(t.verified[c], a.id);
    CacheRemoveOk(t.overflow[c], a.id, cfg.bagSizesOverflow[c]);
    assert BagOk(cfg, t', c);
    OtherBags(cfg, t, t', c, a.id);
  }

  /** A timeout counted without reaching the limit. */
  lemma CountedVerified(cfg: Config, t: Tables, c: nat, id: Id)
    requires WellFormed(cfg, t) && id != cfg.self && c == ClassOf(cfg, id)
    requires id in t.verified[c] && t.verified[c][id].failed + 1 < Limit(cfg)
    ensures WellFormed(cfg, CountVerified(t, c, id))
  {
    var t' := CountVerified(t, c, id);
    assert BagOk(cfg, t, c);
    AcceptUpdate(cfg, c, t.verified[c], t.overflow[c], id, Failed(t.verified[c][id]));
    assert BagOk(cfg, t', c);
    OtherBags(cfg, t, t', c, id);
  }

  lemma CountedOverflow(cfg: Config, t: Tables, c: nat, id: Id)
    requires WellFormed(cfg, t) && id != cfg.self && c == ClassOf(cfg, id)
    requires id in t.overflow[c].entries && t.overflow[c].entries[id].failed + 1 < Limit(cfg)
    ensures WellFormed(cfg, CountOverflow(t, c, id))
  {
    var t' := CountOverflow(t, c, id);
    assert BagOk(cfg, t, c);
    AcceptOverflow(cfg, c, t.verified[c], t.overflow[c], id, Failed(t.overflow[c].entries[id]));
    assert BagOk(cfg, t', c);
    OtherBags(cfg, t, t', c, id);
  }

  lemma PutThenRemove(m: map<Id, PeerStatistic>, id: Id, ps: PeerStatistic)
    ensures m[id := ps] - {id} == m - {id}
  {
  }

  /** Evicting does not look at the counters, so it may follow a count that reached the limit. */
  lemma EvictAfterCountVerified(cfg: Config, t: Tables, a: Addr)
    requires Shaped(t) && a.id != cfg.self
    ensures var c := ClassOf(cfg, a.id);
            Evict(cfg, CountVerified(t, c, a.id), a, ProbablyOffline) == Evict(cfg, t, a, ProbablyOffline)
  {
    var c := ClassOf(cfg, a.id);
    if a.id in t.verified[c] {
      PutThenRemove(t.verified[c], a.id, Failed(t.verified[c][a.id]));
      var v: map<Id, PeerStatistic> := t.verified[c][a.id := Failed(t.verified[c][a.id])];
      assert t.verified[c := v][c := t.verified[c] - {a.id}] == t.verified[c := t.verified[c] - {a.id}];
    }
  }

  lemma EvictAfterCountOverflow(cfg: Config, t: Tables, a: Addr)
    requires Shaped(t) && a.id != cfg.self
    ensures var c := ClassOf(cfg, a.id);
            Evict(cfg, CountOverflow(t, c, a.id), a, ProbablyOffline) == Evict(cfg, t, a, ProbablyOffline)
  {
    var c := ClassOf(cfg, a.id);
    var o := t.overflow[c];
    if a.id in o.entries {
      PutThenRemove(o.entries, a.id, Failed(o.entries[a.id]));
      var o' := Cache(o.entries[a.id := Failed(o.entries[a.id])], o.order);
      assert CacheRemove(o', a.id) == CacheRemove(o, a.id);
      assert t.overflow[c := o'][c := CacheRemove(o, a.id)] == t.overflow[c := CacheRemove(o, a.id)];
    }
  }

  /** What a timeout amounts to: the counter of the stored statistic goes up by one, or the peer goes. */
  lemma TimeoutCases(cfg: Config, t: Tables, a: Addr)
    requires WellFormed(cfg, t) && a.id != 0 && a.id != cfg.self
    ensures var t' := PeerFailed(cfg, t, a, Timeout).0;
            var c := ClassOf(cfg, a.id);
            WellFormed(cfg, t') &&
            (t' == Evict(cfg, t, a, ProbablyOffline).0 ||
             (a.id in t.verified[c] && t' == CountVerified(t, c, a.id)) ||
             (a.id !in t.verified[c] && t' == CountOverflow(t, c, a.id)))
  {
    var c := ClassOf(cfg, a.id);
    assert BagOk(cfg, t, c);
    var t1 := CountVerified(t, c, a.id);
    EvictOk(cfg, t, a, ProbablyOffline);
    EvictAfterCountVerified(cfg, t, a);
    if a.id in t1.verified[c] {
      assert CountOverflow(t1, c, a.id) == t1;
      if t1.verified[c][a.id].failed < cfg.offlineCount {
        CountedVerified(cfg, t, c, a.id);
      }
    } else {
      EvictAfterCountOverflow(cfg, t, a);
      var t2 := CountOverflow(t, c, a.id);
      if a.id in t2.overflow[c].entries && t2.overflow[c].entries[a.id].failed < cfg.offlineCount {
        CountedOverflow(cfg, t, c, a.id);
      }
    }
  }

  lemma ApplyOk(cfg: Config, t: Tables, e: Event)
    requires WellFormed(cfg, t)
    ensures WellFormed(cfg, Apply(cfg, t, e))
  {
    match e
    case Found(remote, referrer, rejected) => PeerFoundOk(cfg, t, remote, referrer, rejected);
    case Lost(peer, cause) =>
      if peer.id != 0 && peer.id != cfg.self {
        if cause == Timeout {
          TimeoutCases(cfg, t, peer);
        } else {
          EvictOk(cfg, t, peer, cause);
        }
      }
    case Expired(gone) =>
      forall c | 0 <= c < N.BITS ensures BagOk(cfg, Expire(t, gone), c) {
        assert BagOk(cfg, t, c);
      }
  }

  /** The invariant holds after every sequence of reports, failures and expiries. */
  lemma {:induction false} RunOk(cfg: Config, t: Tables, es: seq<Event>)
    requires WellFormed(cfg, t)
    ensures WellFormed(cfg, Run(cfg, t, es))
    ensures forall c :: 0 <= c < N.BITS ==> Foreign(cfg, Run(cfg, t, es), c)
    decreases |es|
  {
    if es != [] {
      ApplyOk(cfg, t, es[0]);
      RunOk(cfg, Apply(cfg, t, es[0]), es[1..]);
    } else {
      NeverSelf(cfg, t);
    }
  }

  /** The verified bags in any iteration order are the index that `closePeers` relies on. */
  lemma FeedsClosePeers(cfg: Config, t: Tables, listing: Bags.Table)
    requires WellFormed(cfg, t)
    requires forall c, x :: 0 <= c < N.BITS && x in listing[c] ==> x in t.verified[c]
    ensures ClosePeers.Consistent(cfg.self, listing)
  {
    forall c, i | 0 <= c < N.BITS && 0 <= i < |listing[c]| ensures Class(cfg.self, listing[c][i]) == c {
      assert BagOk(cfg, t, c);
      assert listing[c][i] in t.verified[c];
    }
  }
}
