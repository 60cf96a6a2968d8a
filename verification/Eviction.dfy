/** When timeouts remove a peer from the routing table. */
module Eviction {
  import opened Wrappers
  import opened Metric
  import N = Number160
  import opened PeerMap

  ghost predicate InTable(cfg: Config, t: Tables, p: Id)
    requires Shaped(t) && p != cfg.self
  {
    p in t.verified[ClassOf(cfg, p)] || p in t.overflow[ClassOf(cfg, p)].entries
  }

  /** The failure counter of a stored peer. */
  ghost function Failures(cfg: Config, t: Tables, p: Id): (n: nat)
    requires Shaped(t) && p != cfg.self && InTable(cfg, t, p)
  {
    var c := ClassOf(cfg, p);
    if p in t.verified[c] then t.verified[c][p].failed else t.overflow[c].entries[p].failed
  }

  /** The report gets past the checks of `peerFound`. */
  predicate Passes(t: Tables, e: Event)
    requires e.Found?
  {
    !e.rejected && (FirstHand(e.referrer) || !e.remote.unreachable) &&
    (FirstHand(e.referrer) || SecondHand(e.remote, e.referrer) || !ProbablyDead(t, e.remote.id))
  }

  /** The event sets the failure counter of p to zero, by a check of it or by a fresh statistic. */
  ghost predicate Resets(cfg: Config, t: Tables, e: Event, p: Id)
    requires ValidConfig(cfg) && Shaped(t) && p != cfg.self
  {
    e.Found? && e.remote.id == p && Passes(t, e) &&
    (FirstHand(e.referrer) || !InTable(cfg, t, p) ||
     (Reliable(cfg, e.remote, e.referrer) && p !in t.verified[ClassOf(cfg, p)] && HasRoom(cfg, t, ClassOf(cfg, p))))
  }

  predicate HasRoom(cfg: Config, t: Tables, c: nat)
    requires ValidConfig(cfg) && Shaped(t) && c < N.BITS
  {
    |t.verified[c]| < cfg.bagSizesVerified[c]
  }

  ghost predicate Quiet(cfg: Config, t: Tables, es: seq<Event>, p: Id)
    requires ValidConfig(cfg) && Shaped(t) && p != cfg.self
    decreases |es|
  {
    es == [] || (!Resets(cfg, t, es[0], p) && Quiet(cfg, Apply(cfg, t, es[0]), es[1..], p))
  }

  function IsTimeout(e: Event, p: Id): (b: bool) {
    e.Lost? && e.cause == Timeout && e.peer.id == p
  }

  function Timeouts(es: seq<Event>, p: Id): (n: nat) {
    if es == [] then 0 else (if IsTimeout(es[0], p) then 1 else 0) + Timeouts(es[1..], p)
  }

  lemma AcceptQuiet(cfg: Config, c: nat, v: map<Id, PeerStatistic>, o: Cache, remote: Addr, referrer: Option<Addr>, p: Id)
    requires ValidConfig(cfg) && c < N.BITS
    requires remote.id == p ==> !FirstHand(referrer) && (p in v || (p in o.entries && !(Reliable(cfg, remote, referrer) && |v| < cfg.bagSizesVerified[c])))
    ensures var r := Accept(cfg, c, v, o, remote, referrer);
            (p in r.0 ==> p in v && r.0[p] == v[p]) &&
            (p in r.1.entries ==> p in o.entries && r.1.entries[p] == o.entries[p])
  {
  }

  lemma FoundQuiet(cfg: Config, t: Tables, e: Event, p: Id)
    requires WellFormed(cfg, t) && p != 0 && p != cfg.self && e.Found? && !Resets(cfg, t, e, p)
    ensures var t' := Apply(cfg, t, e);
            InTable(cfg, t', p) ==> InTable(cfg, t, p) && Failures(cfg, t', p) == Failures(cfg, t, p)
  {
    var t1 := if Reliable(cfg, e.remote, e.referrer) then Trusted(t, e.remote.id) else t;
    var t' := Apply(cfg, t, e);
    var k := ClassOf(cfg, p);
    assert BagOk(cfg, t, k);
    PeerFoundOk(cfg, t, e.remote, e.referrer, e.rejected);
    assert BagOk(cfg, t', k);
    if t' != t1 {
      var c := ClassOf(cfg, e.remote.id);
      if c == k {
        AcceptQuiet(cfg, c, t1.verified[c], t1.overflow[c], e.remote, e.referrer, p);
      }
    }
  }

  lemma EvictQuiet(cfg: Config, t: Tables, a: Addr, cause: Cause, p: Id)
    requires Shaped(t) && p != cfg.self && a.id != cfg.self && cause != Timeout
    ensures var t' := Evict(cfg, t, a, cause).0;
            InTable(cfg, t', p) ==> a.id != p && InTable(cfg, t, p) && Failures(cfg, t', p) == Failures(cfg, t, p)
  {
  }

  lemma CountQuiet(cfg: Config, t: Tables, q: Id, t': Tables, p: Id)
    requires Shaped(t) && p != cfg.self && q != cfg.self
    requires if q in t.verified[ClassOf(cfg, q)] then t' == CountVerified(t, ClassOf(cfg, q), q)
             else t' == CountOverflow(t, ClassOf(cfg, q), q)
    ensures Shaped(t')
    ensures InTable(cfg, t', p) ==>
              InTable(cfg, t, p) && Failures(cfg, t', p) == Failures(cfg, t, p) + (if q == p then 1 else 0)
  {
    if ClassOf(cfg, p) != ClassOf(cfg, q) {
      assert t'.verified[ClassOf(cfg, p)] == t.verified[ClassOf(cfg, p)];
      assert t'.overflow[ClassOf(cfg, p)] == t.overflow[ClassOf(cfg, p)];
    }
  }

  lemma LostQuiet(cfg: Config, t: Tables, e: Event, p: Id)
    requires WellFormed(cfg, t) && p != 0 && p != cfg.self && e.Lost?
    ensures var t' := Apply(cfg, t, e);
            InTable(cfg, t', p) ==>
              InTable(cfg, t, p) && Failures(cfg, t', p) == Failures(cfg, t, p) + (if IsTimeout(e, p) then 1 else 0)
  {
    var q := e.peer.id;
    if q != 0 && q != cfg.self {
      if e.cause != Timeout {
        EvictQuiet(cfg, t, e.peer, e.cause, p);
      } else {
        TimeoutCases(cfg, t, e.peer);
        EvictQuiet(cfg, t, e.peer, ProbablyOffline, p);
        var t' := Apply(cfg, t, e);
        if t' != Evict(cfg, t, e.peer, ProbablyOffline).0 {
          CountQuiet(cfg, t, q, t', p);
        }
      }
    }
  }

  /** Without a reset the counter of a peer still stored rises by exactly one with each timeout. */
  lemma {:induction false} QuietRun(cfg: Config, t: Tables, es: seq<Event>, p: Id)
    requires WellFormed(cfg, t) && p != 0 && p != cfg.self && Quiet(cfg, t, es, p)
    ensures var t' := Run(cfg, t, es);
            InTable(cfg, t', p) ==> InTable(cfg, t, p) && Failures(cfg, t', p) == Failures(cfg, t, p) + Timeouts(es, p)
    decreases |es|
  {
    if es != [] {
      var t1 := Apply(cfg, t, es[0]);
      ApplyOk(cfg, t, es[0]);
      QuietRun(cfg, t1, es[1..], p);
      if es[0].Found? {
        FoundQuiet(cfg, t, es[0], p);
      } else if es[0].Lost? {
        LostQuiet(cfg, t, es[0], p);
      }
    }
  }

  /** `offlineCount` timeouts with no reset between them, whatever else happens, leave the peer in neither
      map. */
  lemma TimeoutsEvict(cfg: Config, t: Tables, es: seq<Event>, p: Id)
    requires WellFormed(cfg, t) && p != 0 && p != cfg.self && Quiet(cfg, t, es, p)
    requires Timeouts(es, p) >= Limit(cfg)
    ensures !InTable(cfg, Run(cfg, t, es), p)
  {
    var t' := Run(cfg, t, es);
    QuietRun(cfg, t, es, p);
    RunOk(cfg, t, es);
    assert BagOk(cfg, t', ClassOf(cfg, p));
  }

  // ---------------------------------------------------------------- exactly when a timeout evicts

  /** What an event does to a count of the timeouts since the last reset. */
  ghost function Counted(cfg: Config, t: Tables, e: Event, p: Id, n: nat): (m: nat)
    requires ValidConfig(cfg) && Shaped(t) && p != cfg.self
  {
    if Resets(cfg, t, e, p) then 0 else if IsTimeout(e, p) then n + 1 else n
  }

  /** The timeouts of p since its last reset; n of them came before the run. */
  ghost function Since(cfg: Config, t: Tables, es: seq<Event>, p: Id, n: nat): (m: nat)
    requires ValidConfig(cfg) && Shaped(t) && p != cfg.self
    decreases |es|
  {
    if es == [] then n else Since(cfg, Apply(cfg, t, es[0]), es[1..], p, Counted(cfg, t, es[0], p, n))
  }

  lemma AcceptResets(cfg: Config, c: nat, v: map<Id, PeerStatistic>, o: Cache, remote: Addr, referrer: Option<Addr>)
    requires ValidConfig(cfg) && c < N.BITS && !(remote.id in v && remote.id in o.entries)
    requires FirstHand(referrer) || (remote.id !in v && remote.id !in o.entries) ||
             (Reliable(cfg, remote, referrer) && remote.id !in v && |v| < cfg.bagSizesVerified[c])
    ensures var r := Accept(cfg, c, v, o, remote, referrer);
            (remote.id in r.0 ==> r.0[remote.id].failed == 0) &&
            (remote.id in r.1.entries && remote.id !in r.0 ==> r.1.entries[remote.id].failed == 0)
  {
  }

  lemma FoundResets(cfg: Config, t: Tables, e: Event, p: Id)
    requires WellFormed(cfg, t) && p != 0 && p != cfg.self && Resets(cfg, t, e, p)
    ensures var t' := Apply(cfg, t, e); InTable(cfg, t', p) ==> Failures(cfg, t', p) == 0
  {
    var t1 := if Reliable(cfg, e.remote, e.referrer) then Trusted(t, e.remote.id) else t;
    var c := ClassOf(cfg, p);
    assert BagOk(cfg, t, c);
    AcceptResets(cfg, c, t1.verified[c], t1.overflow[c], e.remote, e.referrer);
  }

  lemma StepCounts(cfg: Config, t: Tables, e: Event, p: Id, n: nat)
    requires WellFormed(cfg, t) && p != 0 && p != cfg.self && (InTable(cfg, t, p) ==> Failures(cfg, t, p) == n)
    ensures var t' := Apply(cfg, t, e); InTable(cfg, t', p) ==> Failures(cfg, t', p) == Counted(cfg, t, e, p, n)
  {
    if Resets(cfg, t, e, p) {
      FoundResets(cfg, t, e, p);
    } else if e.Found? {
      FoundQuiet(cfg, t, e, p);
    } else if e.Lost? {
      LostQuiet(cfg, t, e, p);
    }
  }

  /** In every run the counter of a stored peer is the number of its timeouts since its last reset. */
  lemma {:induction false} CounterIsSince(cfg: Config, t: Tables, es: seq<Event>, p: Id, n: nat)
    requires WellFormed(cfg, t) && p != 0 && p != cfg.self && (InTable(cfg, t, p) ==> Failures(cfg, t, p) == n)
    ensures var t' := Run(cfg, t, es); InTable(cfg, t', p) ==> Failures(cfg, t', p) == Since(cfg, t, es, p, n)
    decreases |es|
  {
    if es != [] {
      ApplyOk(cfg, t, es[0]);
      StepCounts(cfg, t, es[0], p, n);
      CounterIsSince(cfg, Apply(cfg, t, es[0]), es[1..], p, Counted(cfg, t, es[0], p, n));
    }
  }

  lemma TimeoutDecides(cfg: Config, t: Tables, a: Addr)
    requires WellFormed(cfg, t) && a.id != 0 && a.id != cfg.self && InTable(cfg, t, a.id)
    ensures !InTable(cfg, PeerFailed(cfg, t, a, Timeout).0, a.id) <==> Failures(cfg, t, a.id) + 1 >= Limit(cfg)
  {
    assert BagOk(cfg, t, ClassOf(cfg, a.id));
  }

  /** In every run, a timeout of a stored peer evicts it from both maps if and only if it is at least the
      `offlineCount`-th since the last reset. */
  lemma TimeoutEvictsExactly(cfg: Config, es: seq<Event>, a: Addr)
    requires ValidConfig(cfg) && a.id != 0 && a.id != cfg.self && InTable(cfg, Run(cfg, Empty(), es), a.id)
    ensures !InTable(cfg, Run(cfg, Empty(), es + [Lost(a, Timeout)]), a.id) <==> Since(cfg, Empty(), es, a.id, 0) + 1 >= Limit(cfg)
  {
    EmptyWellFormed(cfg);
    RunOk(cfg, Empty(), es);
    CounterIsSince(cfg, Empty(), es, a.id, 0);
    TimeoutDecides(cfg, Run(cfg, Empty(), es), a);
    RunSnoc(cfg, Empty(), es, Lost(a, Timeout));
  }

  lemma {:induction false} RunSnoc(cfg: Config, t: Tables, es: seq<Event>, e: Event)
    requires ValidConfig(cfg) && Shaped(t)
    ensures Run(cfg, t, es + [e]) == Apply(cfg, Run(cfg, t, es), e)
    decreases |es|
  {
    if es == [] {
      assert [e][1..] == [];
    } else {
      RunSnoc(cfg, Apply(cfg, t, es[0]), es[1..], e);
      assert (es + [e])[1..] == es[1..] + [e];
    }
  }

  // ---------------------------------------------------------------- no check is not enough

  /** Somebody mentions the peer. */
  function Mention(p: Id): (e: Event) {
    Found(Addr(p, false, 0), Some(Addr(0, false, 0)), false)
  }

  function TimesOut(p: Id): (e: Event) {
    Lost(Addr(p, false, 0), Timeout)
  }

  /** No event is a successful check of the peer: what is heard of it is third-hand. */
  predicate Unchecked(es: seq<Event>, p: Id) {
    forall i :: 0 <= i < |es| && es[i].Found? && es[i].remote.id == p ==>
                  !FirstHand(es[i].referrer) && !SecondHand(es[i].remote, es[i].referrer)
  }

  /** The table that knows only p, in its overflow bag, with some failures. */
  function Only(cfg: Config, p: Id, failed: nat): (t: Tables)
    requires p != cfg.self
    ensures Shaped(t)
  {
    var bag: map<Id, PeerStatistic> := map[p := PeerStatistic(Addr(p, false, 0), failed, 0, 0)];
    Empty().(overflow := Empty().overflow[ClassOf(cfg, p) := Cache(bag, [p])])
  }

  /** Two peers that compete for an overflow bag of one place. */
  predicate Rivals(cfg: Config, p: Id, q: Id) {
    ValidConfig(cfg) && p != q && p != 0 && q != 0 && p != cfg.self && q != cfg.self &&
    ClassOf(cfg, p) == ClassOf(cfg, q) && cfg.bagSizesOverflow[ClassOf(cfg, p)] == 1
  }

  /** A peer with a place in its overflow bag. */
  predicate Storable(cfg: Config, p: Id) {
    ValidConfig(cfg) && p != 0 && p != cfg.self && cfg.bagSizesOverflow[ClassOf(cfg, p)] >= 1
  }

  lemma MentionEnters(cfg: Config, p: Id)
    requires Storable(cfg, p)
    ensures Apply(cfg, Empty(), Mention(p)) == Only(cfg, p, 0)
  {
    var c := ClassOf(cfg, p);
    var t := Apply(cfg, Empty(), Mention(p));
    assert t.overflow[c] == Only(cfg, p, 0).overflow[c];
    assert t.verified == Empty().verified;
  }

  lemma MentionReplaces(cfg: Config, p: Id, q: Id, failed: nat)
    requires Rivals(cfg, p, q)
    ensures Apply(cfg, Only(cfg, p, failed), Mention(q)) == Only(cfg, q, 0)
  {
    var c := ClassOf(cfg, p);
    var t := Apply(cfg, Only(cfg, p, failed), Mention(q));
    assert t.overflow[c].entries == Only(cfg, q, 0).overflow[c].entries;
    assert t.overflow[c].order == [q];
    assert t.verified == Empty().verified;
  }

  lemma TimeoutCounts(cfg: Config, p: Id)
    requires ValidConfig(cfg) && p != 0 && p != cfg.self && cfg.offlineCount >= 2
    ensures Apply(cfg, Only(cfg, p, 0), TimesOut(p)) == Only(cfg, p, 1)
  {
    var c := ClassOf(cfg, p);
    var t := Apply(cfg, Only(cfg, p, 0), TimesOut(p));
    assert t.overflow[c].entries == Only(cfg, p, 1).overflow[c].entries;
  }

  /** n rounds in which the rival pushes the peer out, the peer comes back and times out once. */
  lemma {:induction false} Rounds(cfg: Config, p: Id, q: Id, n: nat) returns (es: seq<Event>)
    requires Rivals(cfg, p, q) && cfg.offlineCount >= 2
    ensures Run(cfg, Only(cfg, p, 1), es) == Only(cfg, p, 1)
    ensures Timeouts(es, p) == n && Unchecked(es, p)
  {
    if n == 0 {
      es := [];
    } else {
      var rest := Rounds(cfg, p, q, n - 1);
      es := OneRound(cfg, p, q, rest);
    }
  }

  lemma OneRound(cfg: Config, p: Id, q: Id, rest: seq<Event>) returns (es: seq<Event>)
    requires Rivals(cfg, p, q) && cfg.offlineCount >= 2
    ensures Run(cfg, Only(cfg, p, 1), es) == Run(cfg, Only(cfg, p, 1), rest)
    ensures Timeouts(es, p) == 1 + Timeouts(rest, p) && (Unchecked(rest, p) ==> Unchecked(es, p))
  {
    var back := [Mention(p)] + ([TimesOut(p)] + rest);
    BackAgain(cfg, p, q, rest);
    PushedOut(cfg, p, q, back);
    es := [Mention(q)] + back;
  }

  lemma PushedOut(cfg: Config, p: Id, q: Id, rest: seq<Event>)
    requires Rivals(cfg, p, q)
    ensures Run(cfg, Only(cfg, p, 1), [Mention(q)] + rest) == Run(cfg, Only(cfg, q, 0), rest)
    ensures Timeouts([Mention(q)] + rest, p) == Timeouts(rest, p) && (Unchecked(rest, p) ==> Unchecked([Mention(q)] + rest, p))
  {
    MentionReplaces(cfg, p, q, 1);
    Cons(cfg, Only(cfg, p, 1), Mention(q), rest, p);
  }

  lemma BackAgain(cfg: Config, p: Id, q: Id, rest: seq<Event>)
    requires Rivals(cfg, p, q) && cfg.offlineCount >= 2
    ensures var es := [Mention(p)] + ([TimesOut(p)] + rest);
            Run(cfg, Only(cfg, q, 0), es) == Run(cfg, Only(cfg, p, 1), rest) &&
            Timeouts(es, p) == 1 + Timeouts(rest, p) && (Unchecked(rest, p) ==> Unchecked(es, p))
  {
    MentionReplaces(cfg, q, p, 0);
    TimeoutCounts(cfg, p);
    Cons(cfg, Only(cfg, p, 0), TimesOut(p), rest, p);
    Cons(cfg, Only(cfg, q, 0), Mention(p), [TimesOut(p)] + rest, p);
  }

  /** What one event in front adds to a run. */
  lemma Cons(cfg: Config, t: Tables, e: Event, es: seq<Event>, p: Id)
    requires ValidConfig(cfg) && Shaped(t)
    ensures Run(cfg, t, [e] + es) == Run(cfg, Apply(cfg, t, e), es)
    ensures Timeouts([e] + es, p) == (if IsTimeout(e, p) then 1 else 0) + Timeouts(es, p)
    ensures Unchecked(es, p) && Unchecked([e], p) ==> Unchecked([e] + es, p)
  {
    assert ([e] + es)[1..] == es;
  }

  /** Timeouts alone do not evict: a peer that is pushed out of its overflow bag by another one and mentioned
      again starts with a clean counter. */
  lemma PushOutForgets(cfg: Config, p: Id, q: Id, n: nat) returns (es: seq<Event>)
    requires Rivals(cfg, p, q) && cfg.offlineCount >= 2
    ensures Unchecked(es, p) && Timeouts(es, p) == n + 1
    ensures Run(cfg, Empty(), es) == Only(cfg, p, 1) && InTable(cfg, Run(cfg, Empty(), es), p)
  {
    var rest := Rounds(cfg, p, q, n);
    es := [Mention(p)] + ([TimesOut(p)] + rest);
    MentionEnters(cfg, p);
    TimeoutCounts(cfg, p);
    Cons(cfg, Only(cfg, p, 0), TimesOut(p), rest, p);
    Cons(cfg, Empty(), Mention(p), [TimesOut(p)] + rest, p);
  }

  /** Reported as failing with an exception, and forgotten by the cache of such peers. */
  function Crashes(p: Id): (e: Event) {
    Lost(Addr(p, false, 0), Exception)
  }

  lemma CrashForgets(cfg: Config, p: Id)
    requires Storable(cfg, p)
    ensures Apply(cfg, Apply(cfg, Only(cfg, p, 1), Crashes(p)), Expired({p})) == Empty()
  {
    var c := ClassOf(cfg, p);
    var t := Apply(cfg, Only(cfg, p, 1), Crashes(p));
    assert Dropped([p], p) == [] by { assert [p][..0] == []; }
    assert t.overflow[c].entries == map[] && t.overflow[c].order == [];
    assert t.overflow == Empty().overflow && t.verified == Empty().verified;
    assert t.exceptions - {p} == map[];
  }

  lemma EnterAndTimeOut(cfg: Config, p: Id, rest: seq<Event>)
    requires Storable(cfg, p) && cfg.offlineCount >= 2
    ensures var es := [Mention(p)] + ([TimesOut(p)] + rest);
            Run(cfg, Empty(), es) == Run(cfg, Only(cfg, p, 1), rest) &&
            Timeouts(es, p) == 1 + Timeouts(rest, p) && (Unchecked(rest, p) ==> Unchecked(es, p))
  {
    MentionEnters(cfg, p);
    TimeoutCounts(cfg, p);
    Cons(cfg, Only(cfg, p, 0), TimesOut(p), rest, p);
    Cons(cfg, Empty(), Mention(p), [TimesOut(p)] + rest, p);
  }

  lemma CrashAndReturn(cfg: Config, p: Id, rest: seq<Event>) returns (es: seq<Event>)
    requires Storable(cfg, p) && cfg.offlineCount >= 2
    ensures Run(cfg, Only(cfg, p, 1), es) == Run(cfg, Only(cfg, p, 1), rest)
    ensures Timeouts(es, p) == 1 + Timeouts(rest, p) && (Unchecked(rest, p) ==> Unchecked(es, p))
  {
    var back := [Mention(p)] + ([TimesOut(p)] + rest);
    EnterAndTimeOut(cfg, p, rest);
    CrashForgets(cfg, p);
    Cons(cfg, Apply(cfg, Only(cfg, p, 1), Crashes(p)), Expired({p}), back, p);
    Cons(cfg, Only(cfg, p, 1), Crashes(p), [Expired({p})] + back, p);
    es := [Crashes(p)] + ([Expired({p})] + back);
  }

  lemma {:induction false} Returns(cfg: Config, p: Id, n: nat) returns (es: seq<Event>)
    requires Storable(cfg, p) && cfg.offlineCount >= 2
    ensures Run(cfg, Only(cfg, p, 1), es) == Only(cfg, p, 1)
    ensures Timeouts(es, p) == n && Unchecked(es, p)
  {
    if n == 0 {
      es := [];
    } else {
      var rest := Returns(cfg, p, n - 1);
      es := CrashAndReturn(cfg, p, rest);
    }
  }

  /** Timeouts alone do not evict, in any configuration with an overflow bag and a limit of at least two: a
      peer that leaves the table and is mentioned again starts with a clean counter, so it survives any number
      of timeouts without a single successful check. */
  lemma ReentryForgets(cfg: Config, p: Id, n: nat) returns (es: seq<Event>)
    requires Storable(cfg, p) && cfg.offlineCount >= 2
    ensures Unchecked(es, p) && Timeouts(es, p) == n + 1
    ensures Run(cfg, Empty(), es) == Only(cfg, p, 1) && InTable(cfg, Run(cfg, Empty(), es), p)
  {
    var rest := Returns(cfg, p, n);
    EnterAndTimeOut(cfg, p, rest);
    es := [Mention(p)] + ([TimesOut(p)] + rest);
  }
}
