/** The routing table updated in place, step by step as the calls do it. */
module PeerMapObject {
  import opened Wrappers
  import opened Metric
  import N = Number160
  import P = PeerMap

  class RoutingTable {
    const cfg: P.Config
    var verified: seq<map<Id, P.PeerStatistic>>
    var overflow: seq<P.Cache>
    var offline: map<Id, P.Addr>
    var shutdown: map<Id, P.Addr>
    var exceptions: map<Id, P.Addr>

    function State(): (t: P.Tables)
      reads this
    {
      P.Tables(verified, overflow, offline, shutdown, exceptions)
    }

    ghost predicate Valid()
      reads this
    {
      P.WellFormed(cfg, State())
    }

    /** Zero is refused as an own identifier. */
    constructor (cfg: P.Config)
      requires P.ValidConfig(cfg)
      ensures Valid() && this.cfg == cfg && State() == P.Empty()
    {
      this.cfg := cfg;
      verified, overflow := P.Empty().verified, P.Empty().overflow;
      offline, shutdown, exceptions := map[], map[], map[];
      new;
      P.EmptyWellFormed(cfg);
    }

    method PeerFound(remotePeer: P.Addr, referrer: Option<P.Addr>, rejected: bool) returns (r: bool)
      requires Valid()
      modifies this
      ensures Valid()
      ensures (State(), r) == P.PeerFound(cfg, old(State()), remotePeer, referrer, rejected)
    {
      P.PeerFoundOk(cfg, State(), remotePeer, referrer, rejected);
      r := Report(remotePeer, referrer, rejected);
    }

    method Report(remotePeer: P.Addr, referrer: Option<P.Addr>, rejected: bool) returns (r: bool)
      requires P.ValidConfig(cfg) && P.Shaped(State())
      modifies this
      ensures (State(), r) == P.PeerFound(cfg, old(State()), remotePeer, referrer, rejected)
    {
      var remote := remotePeer;
      var firstHand := referrer.None?;
      var secondHand := referrer.Some? && referrer.value.id == remote.id;
      var thirdHand := !firstHand && !secondHand;
      Revive(remote, referrer);
      if remote.id == 0 || cfg.self == remote.id || rejected {
        return false;
      }
      if remote.unreachable {
        if firstHand {
          remote := remote.(unreachable := false);
        } else {
          return false;
        }
      }
      var probablyDead := remote.id in offline || remote.id in shutdown || remote.id in exceptions;
      if thirdHand && probablyDead {
        return false;
      }
      var c := P.ClassOf(cfg, remote.id);
      assert P.Stored(remotePeer) == P.Stored(remote);
      r := Record(c, remote, referrer);
    }

    /** A sign of life the map believes clears the peer's record. */
    method Revive(remote: P.Addr, referrer: Option<P.Addr>)
      modifies this`offline, this`shutdown
      ensures State() == if P.Reliable(cfg, remote, referrer) then P.Trusted(old(State()), remote.id) else old(State())
    {
      var secondHand := referrer.Some? && referrer.value.id == remote.id;
      if referrer.None? {
        offline := offline - {remote.id};
        shutdown := shutdown - {remote.id};
      }
      if secondHand && !cfg.peerVerification {
        offline := offline - {remote.id};
        shutdown := shutdown - {remote.id};
      }
    }

    /** The part of `peerFound` after the checks. */
    method Record(c: nat, remote: P.Addr, referrer: Option<P.Addr>) returns (r: bool)
      requires P.ValidConfig(cfg) && P.Shaped(State()) && c < N.BITS
      modifies this`verified, this`overflow
      ensures var (v, o, added) := P.Accept(cfg, c, old(verified[c]), old(overflow[c]), remote, referrer);
              State() == P.WithPair(old(State()), c, v, o) && r == added
    {
      var v, o;
      v, o, r := Place(c, verified[c], overflow[c], remote, referrer);
      verified, overflow := verified[c := v], overflow[c := o];
    }

    /** Update, insert, or keep in the overflow bag. */
    method Place(c: nat, v0: map<Id, P.PeerStatistic>, o0: P.Cache, remotePeer: P.Addr, referrer: Option<P.Addr>)
      returns (v: map<Id, P.PeerStatistic>, o: P.Cache, r: bool)
      requires P.ValidConfig(cfg) && c < N.BITS
      ensures (v, o, r) == P.Accept(cfg, c, v0, o0, remotePeer, referrer)
    {
      var firstHand := referrer.None?;
      var secondHand := referrer.Some? && referrer.value.id == remotePeer.id;
      var remote, id := P.Stored(remotePeer), remotePeer.id;
      v, o := v0, o0;
      if id in v {
        if firstHand {
          v := v[id := P.Updated(v[id], remote)];
        }
        return v, o, firstHand;
      }
      if firstHand || (secondHand && !cfg.peerVerification) {
        if |v| < cfg.bagSizesVerified[c] {
          v := v[id := P.SuccessfullyChecked(P.PeerStatistic(remote, 0, 0, 0))];
          o := P.CacheRemove(o, id);
          return v, o, true;
        }
      }
      var ps := if id in o.entries then o.entries[id] else P.PeerStatistic(remote, 0, 0, 0);
      if firstHand {
        ps := P.SuccessfullyChecked(ps);
      }
      o := P.CachePut(o, id, ps, cfg.bagSizesOverflow[c]);
      return v, o, true;
    }

    method PeerFailed(remotePeer: P.Addr, cause: P.Cause) returns (r: bool)
      requires Valid()
      modifies this
      ensures Valid()
      ensures (State(), r) == P.PeerFailed(cfg, old(State()), remotePeer, cause)
    {
      P.ApplyOk(cfg, State(), P.Lost(remotePeer, cause));
      if remotePeer.id == 0 || cfg.self == remotePeer.id {
        return false;
      }
      var c := P.ClassOf(cfg, remotePeer.id);
      if cause != P.Timeout {
        r := Evict(remotePeer, cause);
        return;
      }
      var reached := UpdateVerified(c, remotePeer.id);
      if reached {
        r := Evict(remotePeer, P.ProbablyOffline);
        return;
      }
      reached := UpdateOverflow(c, remotePeer.id);
      if reached {
        r := Evict(remotePeer, P.ProbablyOffline);
        return;
      }
      return false;
    }

    /** `updatePeerStatistic` on the verified bag. */
    method UpdateVerified(c: nat, id: Id) returns (reached: bool)
      requires P.Shaped(State()) && c < N.BITS
      modifies this`verified
      ensures State() == P.CountVerified(old(State()), c, id)
      ensures reached <==> id in verified[c] && verified[c][id].failed >= cfg.offlineCount
    {
      if id in verified[c] {
        var ps := P.Failed(verified[c][id]);
        var v: map<Id, P.PeerStatistic> := verified[c][id := ps];
        verified := verified[c := v];
        return ps.failed >= cfg.offlineCount;
      }
      return false;
    }

    /** `updatePeerStatistic` on the overflow bag. */
    method UpdateOverflow(c: nat, id: Id) returns (reached: bool)
      requires P.Shaped(State()) && c < N.BITS
      modifies this`overflow
      ensures State() == P.CountOverflow(old(State()), c, id)
      ensures reached <==> id in overflow[c].entries && overflow[c].entries[id].failed >= cfg.offlineCount
    {
      var o := overflow[c];
      if id in o.entries {
        var ps := P.Failed(o.entries[id]);
        var es: map<Id, P.PeerStatistic> := o.entries[id := ps];
        overflow := overflow[c := P.Cache(es, o.order)];
        return ps.failed >= cfg.offlineCount;
      }
      return false;
    }

    /** The forced branch of `peerFailed`. */
    method Evict(a: P.Addr, cause: P.Cause) returns (removed: bool)
      requires P.Shaped(State()) && a.id != cfg.self && cause != P.Timeout
      modifies this
      ensures (State(), removed) == P.Evict(cfg, old(State()), a, cause)
    {
      var c := P.ClassOf(cfg, a.id);
      if cause == P.ProbablyOffline {
        offline := offline[a.id := a];
      } else if cause == P.Shutdown {
        shutdown := shutdown[a.id := a];
      } else {
        exceptions := exceptions[a.id := a];
      }
      overflow := overflow[c := P.CacheRemove(overflow[c], a.id)];
      removed := a.id in verified[c];
      verified := verified[c := verified[c] - {a.id}];
    }
  }
}
