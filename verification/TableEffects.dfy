/** What a report or a failure does to the routing table, said of the table before and after it. */
module TableEffects {
  import opened Wrappers
  import opened Metric
  import N = Number160
  import opened PeerMap
  import opened Eviction

  // ---------------------------------------------------------------- the overflow cache

  /** Only the eldest entry of a full cache makes place, and only for a new one. */
  ghost predicate MadePlace(o: Cache, q: Id, id: Id, maxEntries: nat) {
    o.order != [] && o.order[0] == q && |o.order| == maxEntries && id !in o.entries
  }

  lemma PutEffect(o: Cache, id: Id, ps: PeerStatistic, maxEntries: nat)
    requires CacheOk(o, maxEntries)
    ensures var r := CachePut(o, id, ps, maxEntries);
            (maxEntries >= 1 ==> id in r.entries) && (id in r.entries ==> r.entries[id] == ps)
  {
    if id !in o.entries {
      var order := o.order + [id];
      assert |order| > 1 ==> order[0] == o.order[0] && o.order[0] in o.entries;
    }
  }

  lemma PutSpares(o: Cache, id: Id, ps: PeerStatistic, maxEntries: nat, q: Id)
    requires CacheOk(o, maxEntries) && q != id
    ensures var r := CachePut(o, id, ps, maxEntries);
            (q in r.entries ==> q in o.entries && r.entries[q] == o.entries[q]) &&
            (q in o.entries && q !in r.entries ==> MadePlace(o, q, id, maxEntries))
  {
    if id !in o.entries {
      var order := o.order + [id];
      assert o.order != [] ==> order[0] == o.order[0];
    }
  }

  lemma RemoveSpares(o: Cache, id: Id, q: Id)
    requires q != id
    ensures var r := CacheRemove(o, id); (q in r.entries <==> q in o.entries) && (q in r.entries ==> r.entries[q] == o.entries[q])
  {
  }

  /** The other peers of the class. */
  lemma AcceptSpares(cfg: Config, c: nat, v: map<Id, PeerStatistic>, o: Cache, remote: Addr, referrer: Option<Addr>, q: Id)
    requires ValidConfig(cfg) && c < N.BITS && CacheOk(o, cfg.bagSizesOverflow[c]) && q != remote.id
    ensures var (v', o', _) := Accept(cfg, c, v, o, remote, referrer);
            (q in v' <==> q in v) && (q in v ==> v'[q] == v[q]) &&
            (q in o'.entries ==> q in o.entries && o'.entries[q] == o.entries[q]) &&
            (q in o.entries && q !in o'.entries ==> MadePlace(o, q, remote.id, cfg.bagSizesOverflow[c]))
  {
    hide CachePut, CacheRemove, MadePlace, CacheOk;
    RemoveSpares(o, remote.id, q);
    var ps := if remote.id in o.entries then o.entries[remote.id] else PeerStatistic(Stored(remote), 0, 0, 0);
    var ps' := if FirstHand(referrer) then SuccessfullyChecked(ps) else ps;
    PutSpares(o, remote.id, ps', cfg.bagSizesOverflow[c], q);
  }

  // ---------------------------------------------------------------- reports

  /** A report about a peer that the table could store. */
  predicate Storeable(cfg: Config, e: Event) {
    e.Found? && e.remote.id != 0 && e.remote.id != cfg.self
  }

  function After(cfg: Config, t: Tables, e: Event): (t': Tables)
    requires ValidConfig(cfg) && Shaped(t)
    ensures Shaped(t')
  {
    Apply(cfg, t, e)
  }

  function Answer(cfg: Config, t: Tables, e: Event): (r: bool)
    requires ValidConfig(cfg) && Shaped(t) && e.Found?
  {
    PeerFound(cfg, t, e.remote, e.referrer, e.rejected).1
  }

  /** A reliable report of a peer not yet verified puts it into the verified bag of its class, when there is
      room: reachable, with the reported address, checked once and without failures. */
  lemma ReliableReportVerifies(cfg: Config, t: Tables, e: Event)
    requires WellFormed(cfg, t) && Storeable(cfg, e) && Passes(t, e)
    requires var c := ClassOf(cfg, e.remote.id);
             Reliable(cfg, e.remote, e.referrer) && e.remote.id !in t.verified[c] && HasRoom(cfg, t, c)
    ensures var p, c, t' := e.remote.id, ClassOf(cfg, e.remote.id), After(cfg, t, e);
            Answer(cfg, t, e) && p !in t'.overflow[c].entries &&
            t'.verified[c] == t.verified[c][p := PeerStatistic(Addr(p, false, e.remote.endpoint), 0, 1, 0)]
  {
  }

  /** A first-hand report of a verified peer keeps it there with the new address and counts as a check and as
      a response; any other report of it changes nothing and is answered with false. */
  lemma ReportOfVerified(cfg: Config, t: Tables, e: Event)
    requires WellFormed(cfg, t) && Storeable(cfg, e) && Passes(t, e) && e.remote.id in t.verified[ClassOf(cfg, e.remote.id)]
    ensures var p, c, t' := e.remote.id, ClassOf(cfg, e.remote.id), After(cfg, t, e);
            var before := t.verified[c][p];
            t'.overflow == t.overflow && (Answer(cfg, t, e) <==> e.referrer.None?) &&
            t'.verified[c] == if e.referrer.None?
                              then t.verified[c][p := PeerStatistic(Addr(p, false, e.remote.endpoint), 0, before.checked + 1, before.responses + 1)]
                              else t.verified[c]
  {
    var c := ClassOf(cfg, e.remote.id);
    assert t.overflow[c := t.overflow[c]] == t.overflow;
  }

  /** Any other report that passes leaves the verified bag alone and puts the peer into the overflow bag, if that
      has a place: with the statistic it had there, or a fresh one, checked if the report is first-hand. */
  lemma OtherReportOverflows(cfg: Config, t: Tables, e: Event)
    requires WellFormed(cfg, t) && Storeable(cfg, e) && Passes(t, e)
    requires var c := ClassOf(cfg, e.remote.id);
             e.remote.id !in t.verified[c] && !(Reliable(cfg, e.remote, e.referrer) && HasRoom(cfg, t, c))
    ensures var p, c, t' := e.remote.id, ClassOf(cfg, e.remote.id), After(cfg, t, e);
            Answer(cfg, t, e) && t'.verified[c] == t.verified[c] &&
            (cfg.bagSizesOverflow[c] >= 1 ==> p in t'.overflow[c].entries) &&
            (p in t'.overflow[c].entries ==>
               t'.overflow[c].entries[p] == Heard(t.overflow[c].entries, e))
  {
    hide Accept;
    var c := ClassOf(cfg, e.remote.id);
    assert BagOk(cfg, t, c);
    AcceptOverflows(cfg, c, t.verified[c], t.overflow[c], e);
  }

  lemma AcceptOverflows(cfg: Config, c: nat, v: map<Id, PeerStatistic>, o: Cache, e: Event)
    requires ValidConfig(cfg) && c < N.BITS && CacheOk(o, cfg.bagSizesOverflow[c]) && e.Found? && e.remote.id !in v
    requires !(Reliable(cfg, e.remote, e.referrer) && |v| < cfg.bagSizesVerified[c])
    ensures var (v', o', added) := Accept(cfg, c, v, o, e.remote, e.referrer);
            added && v' == v && (cfg.bagSizesOverflow[c] >= 1 ==> e.remote.id in o'.entries) &&
            (e.remote.id in o'.entries ==> o'.entries[e.remote.id] == Heard(o.entries, e))
  {
    hide CachePut;
    PutEffect(o, e.remote.id, Heard(o.entries, e), cfg.bagSizesOverflow[c]);
  }

  /** The statistic of an unverified peer after a report. */
  function Heard(entries: map<Id, PeerStatistic>, e: Event): (ps: PeerStatistic)
    requires e.Found?
  {
    var p := e.remote.id;
    var before := if p in entries then entries[p] else PeerStatistic(Addr(p, false, e.remote.endpoint), 0, 0, 0);
    if e.referrer.None? then PeerStatistic(before.addr, 0, before.checked + 1, before.responses) else before
  }

  /** A report that does not pass, or is about nobody the table could store, is answered with false and stores
      nothing. */
  lemma RefusedReportStoresNothing(cfg: Config, t: Tables, e: Event)
    requires WellFormed(cfg, t) && e.Found? && (!Storeable(cfg, e) || !Passes(t, e))
    ensures var t' := After(cfg, t, e); !Answer(cfg, t, e) && t'.verified == t.verified && t'.overflow == t.overflow
  {
  }

  /** The answer is true exactly when the report was stored. */
  lemma AnswerExactly(cfg: Config, t: Tables, e: Event)
    requires WellFormed(cfg, t) && e.Found?
    ensures Answer(cfg, t, e) <==>
            Storeable(cfg, e) && Passes(t, e) && (e.referrer.None? || e.remote.id !in t.verified[ClassOf(cfg, e.remote.id)])
  {
    if Storeable(cfg, e) && Passes(t, e) {
      if e.remote.id in t.verified[ClassOf(cfg, e.remote.id)] {
        ReportOfVerified(cfg, t, e);
      }
    } else {
      RefusedReportStoresNothing(cfg, t, e);
    }
  }

  /** A peer that keeps its place and its statistic. */
  ghost predicate Keeps(t: Tables, t': Tables, c: nat, q: Id)
    requires Shaped(t) && Shaped(t') && c < N.BITS
  {
    (q in t'.verified[c] <==> q in t.verified[c]) && (q in t.verified[c] ==> t'.verified[c][q] == t.verified[c][q]) &&
    (q in t'.overflow[c].entries ==> q in t.overflow[c].entries && t'.overflow[c].entries[q] == t.overflow[c].entries[q])
  }

  /** The bags of the other classes, and the other peers of the class, are as they were, except that the eldest
      peer of a full overflow bag makes place for a new one. */
  lemma OtherPeersStay(cfg: Config, t: Tables, e: Event, c: nat, q: Id)
    requires WellFormed(cfg, t) && e.Found? && c < N.BITS && q != e.remote.id
    ensures var t' := After(cfg, t, e);
            Keeps(t, t', c, q) &&
            (q in t.overflow[c].entries && q !in t'.overflow[c].entries ==>
               MadePlace(t.overflow[c], q, e.remote.id, cfg.bagSizesOverflow[c]))
  {
    hide After, Accept, CacheOk, MadePlace, Passes;
    assert BagOk(cfg, t, c);
    if !Storeable(cfg, e) || !Passes(t, e) {
      RefusedReportStoresNothing(cfg, t, e);
    } else if ClassOf(cfg, e.remote.id) == c {
      OwnClass(cfg, t, e);
      AcceptSpares(cfg, c, t.verified[c], t.overflow[c], e.remote, e.referrer, q);
    } else {
      OtherClasses(cfg, t, e, c);
    }
  }

  lemma OwnClass(cfg: Config, t: Tables, e: Event)
    requires WellFormed(cfg, t) && Storeable(cfg, e) && Passes(t, e)
    ensures var c := ClassOf(cfg, e.remote.id);
            var (v, o, _) := Accept(cfg, c, t.verified[c], t.overflow[c], e.remote, e.referrer);
            After(cfg, t, e).verified[c] == v && After(cfg, t, e).overflow[c] == o
  {
    hide Accept;
  }

  lemma OtherClasses(cfg: Config, t: Tables, e: Event, c: nat)
    requires WellFormed(cfg, t) && Storeable(cfg, e) && c < N.BITS && c != ClassOf(cfg, e.remote.id)
    ensures After(cfg, t, e).verified[c] == t.verified[c] && After(cfg, t, e).overflow[c] == t.overflow[c]
  {
  }

  /** A reliable report, and no other, takes the peer off the offline and shutdown lists; nothing else changes
      in the three lists. */
  lemma ReportForgives(cfg: Config, t: Tables, e: Event)
    requires WellFormed(cfg, t) && e.Found?
    ensures var t' := After(cfg, t, e);
            t'.exceptions == t.exceptions &&
            t'.offline == (if Reliable(cfg, e.remote, e.referrer) then t.offline - {e.remote.id} else t.offline) &&
            t'.shutdown == (if Reliable(cfg, e.remote, e.referrer) then t.shutdown - {e.remote.id} else t.shutdown)
  {
  }

  // ---------------------------------------------------------------- failures

  /** The three lists of peers not to be believed in at second remove. */
  predicate OnlyListed(t: Tables, t': Tables, a: Addr, cause: Cause) {
    t'.offline == (if cause == ProbablyOffline then t.offline[a.id := a] else t.offline) &&
    t'.shutdown == (if cause == Shutdown then t.shutdown[a.id := a] else t.shutdown) &&
    t'.exceptions == (if cause == Exception then t.exceptions[a.id := a] else t.exceptions)
  }

  /** A failure other than a timeout takes the peer out of both maps and puts it on the list of its cause, which
      gains nothing else; the answer tells whether the peer was verified. */
  lemma FailureIsRemembered(cfg: Config, t: Tables, a: Addr, cause: Cause)
    requires WellFormed(cfg, t) && a.id != 0 && a.id != cfg.self && cause != Timeout
    ensures var t' := Apply(cfg, t, Lost(a, cause));
            !InTable(cfg, t', a.id) && OnlyListed(t, t', a, cause) &&
            (PeerFailed(cfg, t, a, cause).1 <==> a.id in t.verified[ClassOf(cfg, a.id)])
  {
  }

  lemma TimeoutOfNobody(cfg: Config, t: Tables, a: Addr)
    requires WellFormed(cfg, t) && a.id != 0 && a.id != cfg.self && !InTable(cfg, t, a.id)
    ensures Apply(cfg, t, Lost(a, Timeout)) == t
  {
  }

  /** A timeout that evicts a stored peer puts it on the offline list; any other timeout lists nobody. */
  lemma TimeoutIsRemembered(cfg: Config, t: Tables, a: Addr)
    requires WellFormed(cfg, t) && a.id != 0 && a.id != cfg.self
    ensures var t' := Apply(cfg, t, Lost(a, Timeout));
            if InTable(cfg, t, a.id) && !InTable(cfg, t', a.id) then OnlyListed(t, t', a, ProbablyOffline)
            else t'.offline == t.offline && t'.shutdown == t.shutdown && t'.exceptions == t.exceptions
  {
    if InTable(cfg, t, a.id) {
      TimeoutCases(cfg, t, a);
      FailureIsRemembered(cfg, t, a, ProbablyOffline);
    } else {
      TimeoutOfNobody(cfg, t, a);
    }
  }

  ghost predicate Spares(t: Tables, t': Tables, c: nat, q: Id)
    requires Shaped(t) && Shaped(t') && c < N.BITS
  {
    Keeps(t, t', c, q) && (q in t.overflow[c].entries ==> q in t'.overflow[c].entries)
  }

  lemma EvictSpares(cfg: Config, t: Tables, a: Addr, cause: Cause, c: nat, q: Id)
    requires Shaped(t) && c < N.BITS && q != a.id && a.id != cfg.self && cause != Timeout
    ensures Spares(t, Evict(cfg, t, a, cause).0, c, q)
  {
  }

  lemma CountSpares(t: Tables, k: nat, id: Id, c: nat, q: Id)
    requires Shaped(t) && c < N.BITS && k < N.BITS && q != id
    ensures Spares(t, CountVerified(t, k, id), c, q) && Spares(t, CountOverflow(t, k, id), c, q)
  {
  }

  /** Every other peer keeps its place and its statistic. */
  lemma FailureSparesOthers(cfg: Config, t: Tables, a: Addr, cause: Cause, c: nat, q: Id)
    requires WellFormed(cfg, t) && c < N.BITS && q != a.id
    ensures Spares(t, Apply(cfg, t, Lost(a, cause)), c, q)
  {
    if a.id != 0 && a.id != cfg.self {
      EvictSpares(cfg, t, a, if cause == Timeout then ProbablyOffline else cause, c, q);
      if cause == Timeout {
        TimeoutCases(cfg, t, a);
        CountSpares(t, ClassOf(cfg, a.id), a.id, c, q);
      }
    }
  }

  /** What keeps a failed peer out: no expiry concerns it, and whatever is reported of it is third-hand. */
  predicate OnlyHearsay(es: seq<Event>, p: Id) {
    forall i :: 0 <= i < |es| ==> Hearsay(es[i], p)
  }

  predicate Hearsay(e: Event, p: Id) {
    (e.Found? && e.remote.id == p ==> e.referrer.Some? && e.referrer.value.id != p) &&
    (e.Expired? ==> p !in e.gone)
  }

  lemma HearsayStep(cfg: Config, t: Tables, e: Event, p: Id)
    requires WellFormed(cfg, t) && p != 0 && p != cfg.self && Hearsay(e, p) && ProbablyDead(t, p) && !InTable(cfg, t, p)
    ensures var t' := Apply(cfg, t, e); ProbablyDead(t', p) && !InTable(cfg, t', p)
  {
    if e.Found? {
      ReportForgives(cfg, t, e);
      if e.remote.id == p {
        RefusedReportStoresNothing(cfg, t, e);
      } else {
        OtherPeersStay(cfg, t, e, ClassOf(cfg, p), p);
      }
    } else if e.Lost? {
      LostStaysDead(cfg, t, e, p);
    }
  }

  lemma LostStaysDead(cfg: Config, t: Tables, e: Event, p: Id)
    requires WellFormed(cfg, t) && p != 0 && p != cfg.self && e.Lost? && ProbablyDead(t, p) && !InTable(cfg, t, p)
    ensures var t' := Apply(cfg, t, e); ProbablyDead(t', p) && !InTable(cfg, t', p)
  {
    var q := e.peer.id;
    if q != 0 && q != cfg.self {
      if e.cause == Timeout {
        TimeoutIsRemembered(cfg, t, e.peer);
      } else {
        FailureIsRemembered(cfg, t, e.peer, e.cause);
      }
      if q == p {
        LostQuiet(cfg, t, e, p);
      } else {
        FailureSparesOthers(cfg, t, e.peer, e.cause, ClassOf(cfg, p), p);
      }
    }
  }

  lemma {:induction false} DeadStayOut(cfg: Config, t: Tables, es: seq<Event>, p: Id)
    requires WellFormed(cfg, t) && p != 0 && p != cfg.self && OnlyHearsay(es, p) && ProbablyDead(t, p) && !InTable(cfg, t, p)
    ensures var t' := Run(cfg, t, es); ProbablyDead(t', p) && !InTable(cfg, t', p)
    decreases |es|
  {
    if es != [] {
      assert Hearsay(es[0], p);
      HearsayStep(cfg, t, es[0], p);
      ApplyOk(cfg, t, es[0]);
      DeadStayOut(cfg, Apply(cfg, t, es[0]), es[1..], p);
    }
  }

  /** A peer that failed, or that a timeout evicted, does not reappear: after any continuation in which no expiry
      concerns it and every report of it is third-hand, it is in neither map. */
  lemma FailedDoNotReappear(cfg: Config, t: Tables, a: Addr, cause: Cause, es: seq<Event>)
    requires WellFormed(cfg, t) && a.id != 0 && a.id != cfg.self && OnlyHearsay(es, a.id)
    requires cause == Timeout ==> InTable(cfg, t, a.id) && !InTable(cfg, Apply(cfg, t, Lost(a, Timeout)), a.id)
    ensures !InTable(cfg, Run(cfg, Apply(cfg, t, Lost(a, cause)), es), a.id)
  {
    var t' := Apply(cfg, t, Lost(a, cause));
    ApplyOk(cfg, t, Lost(a, cause));
    if cause == Timeout {
      TimeoutIsRemembered(cfg, t, a);
    } else {
      FailureIsRemembered(cfg, t, a, cause);
    }
    DeadStayOut(cfg, t', es, a.id);
  }

  /** Once the lists have forgotten a peer, any report of it that is not filtered out and does not call it unreachable
      brings it back, however it failed before. */
  lemma ExpiredMayReturn(cfg: Config, t: Tables, gone: set<Id>, e: Event)
    requires WellFormed(cfg, t) && Storeable(cfg, e) && e.remote.id in gone && !e.rejected && !e.remote.unreachable
    requires cfg.bagSizesOverflow[ClassOf(cfg, e.remote.id)] >= 1
    ensures InTable(cfg, Run(cfg, t, [Expired(gone), e]), e.remote.id)
  {
    hide PeerFound;
    var t1 := Apply(cfg, t, Expired(gone));
    ApplyOk(cfg, t, Expired(gone));
    assert Passes(t1, e);
    var es := [Expired(gone), e];
    assert es[1..] == [e];
    assert Run(cfg, t1, [e]) == Apply(cfg, t1, e);
    var c := ClassOf(cfg, e.remote.id);
    if e.remote.id in t1.verified[c] {
      ReportOfVerified(cfg, t1, e);
    } else if Reliable(cfg, e.remote, e.referrer) && HasRoom(cfg, t1, c) {
      ReliableReportVerifies(cfg, t1, e);
    } else {
      OtherReportOverflows(cfg, t1, e);
    }
  }
}
