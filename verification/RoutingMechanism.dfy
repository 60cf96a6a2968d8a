/** `RoutingMechanism`: what an iterative lookup knows, and how an answer changes it.

    Peers are compared by their id, so a peer is its id here.  The order of the queue is a parameter
    that stays the same for the lookup; so is the pre-routing filter. */
module RoutingMechanism {
  import opened Wrappers
  import opened Orders

  type Peer = nat

  datatype Digest = Digest(keyDigest: nat, contentDigest: nat, size: int)

  datatype Config = Config(
    before: (Peer, Peer) -> bool,
    reject: (Peer, set<Peer>) -> bool,
    maxDirectHits: int,
    maxNoNewInfo: int,
    maxFailures: int,
    maxSuccess: int)

  datatype Knowledge = Knowledge(
    queue: set<Peer>,
    asked: set<Peer>,
    directHits: map<Peer, Digest>,
    potentialHits: set<Peer>,
    nrNoNewInfo: nat,
    nrFailures: nat,
    nrSuccess: nat,
    stop: bool)

  datatype Evaluation = Evaluation(knowledge: Knowledge, finished: bool)

  predicate IsFirst(before: (Peer, Peer) -> bool, queue: set<Peer>, p: Peer) {
    p in queue && forall q :: q in queue ==> q == p || before(p, q)
  }

  lemma {:induction false} FirstExists(before: (Peer, Peer) -> bool, queue: set<Peer>) returns (p: Peer)
    requires StrictTotal(before) && queue != {}
    ensures IsFirst(before, queue, p)
    decreases |queue|
  {
    var x :| x in queue;
    var rest := queue - {x};
    assert forall q :: q in queue ==> q == x || q in rest;
    if rest == {} {
      p := x;
    } else {
      var y := FirstExists(before, rest);
      p := if before(x, y) then x else y;
      forall q | q in queue ensures q == p || before(p, q) {
        assert before(y, q) && before(x, y) ==> before(x, q);
      }
    }
  }

  /** The reported peers that pass the filter, in order. */
  function Kept(cfg: Config, known: set<Peer>, peers: seq<Peer>): (r: seq<Peer>) {
    if peers == [] then []
    else
      var n := |peers| - 1;
      Kept(cfg, known, peers[..n]) + if cfg.reject(peers[n], known) then [] else [peers[n]]
  }

  lemma {:induction false} KeptAreReported(cfg: Config, known: set<Peer>, peers: seq<Peer>)
    ensures forall p :: p in Kept(cfg, known, peers) <==> p in peers && !cfg.reject(p, known)
  {
    if peers != [] {
      var n := |peers| - 1;
      KeptAreReported(cfg, known, peers[..n]);
      assert peers == peers[..n] + [peers[n]];
    }
  }

  function Unasked(peers: seq<Peer>, asked: set<Peer>): (r: set<Peer>) {
    set p | p in peers && p !in asked
  }

  /** Some candidate comes before everything in the queue. */
  predicate Nearer(before: (Peer, Peer) -> bool, candidates: set<Peer>, queue: set<Peer>) {
    exists p :: p in candidates && forall q :: q in queue ==> before(p, q)
  }

  /** A success: enough direct hits end the lookup at once; too many successes or too many answers
      without news end it when no other request is running; anything else lets it go on. */
  function EvaluateSuccess(cfg: Config, k: Knowledge, remote: Peer, digest: Digest, peers: seq<Peer>, last: bool): (e: Evaluation)
  {
    var kept := Kept(cfg, k.asked + k.queue, peers);
    var hits := if digest.size > 0 then k.directHits[remote := digest] else k.directHits;
    if digest.size > 0 && |hits| >= cfg.maxDirectHits then
      Evaluation(k.(directHits := hits, stop := true), true)
    else
      var k1 := k.(directHits := hits, nrSuccess := k.nrSuccess + 1);
      if k1.nrSuccess > cfg.maxSuccess then
        Evaluation(k1.(stop := true), last)
      else
        var unasked := Unasked(kept, k.asked);
        var k2 := k1.(queue := k.queue + unasked,
                      nrNoNewInfo := if Nearer(cfg.before, unasked, k.queue) then 0 else k.nrNoNewInfo + 1);
        if k2.nrNoNewInfo != 0 && k2.nrNoNewInfo >= cfg.maxNoNewInfo then
          Evaluation(k2.(stop := true), last)
        else
          Evaluation(k2.(stop := false), false)
  }

  /** A round in which every request failed. */
  function EvaluateFailed(cfg: Config, k: Knowledge): (e: Evaluation) {
    var finished := k.nrFailures + 1 > cfg.maxFailures;
    Evaluation(k.(nrFailures := k.nrFailures + 1, stop := finished), finished)
  }

  function Clamp(x: int): (n: nat) {
    if x < 0 then 0 else x
  }

  /** How many more successes and failed rounds the lookup can survive. */
  function Budget(cfg: Config, k: Knowledge): (n: nat) {
    Clamp(cfg.maxSuccess - k.nrSuccess) + Clamp(cfg.maxFailures - k.nrFailures)
  }

  /** What an answer can do to the lookup: going on with new requests always costs a unit of the budget,
      and finishing needs enough direct hits or the last request. */
  lemma SuccessCases(cfg: Config, k: Knowledge, remote: Peer, digest: Digest, peers: seq<Peer>, last: bool)
    requires |k.directHits| < cfg.maxDirectHits && k.directHits.Keys <= k.potentialHits && remote in k.potentialHits
    ensures var e := EvaluateSuccess(cfg, k, remote, digest, peers, last);
            var k' := e.knowledge;
            (!k'.stop ==> !e.finished && Budget(cfg, k') + 1 == Budget(cfg, k)) &&
            Budget(cfg, k') <= Budget(cfg, k) &&
            (e.finished ==> last || |k'.directHits| >= cfg.maxDirectHits) &&
            (!e.finished ==> |k'.directHits| < cfg.maxDirectHits) &&
            |k'.directHits| <= cfg.maxDirectHits &&
            k'.directHits.Keys <= k'.potentialHits && k'.asked == k.asked && k'.potentialHits == k.potentialHits &&
            (forall p :: p in k'.queue ==> p in k.queue || p !in k.asked)
  {
    PutSize(k.directHits, remote, digest);
  }

  lemma PutSize(m: map<Peer, Digest>, x: Peer, d: Digest)
    ensures |m| <= |m[x := d]| <= |m| + 1 && m[x := d].Keys == m.Keys + {x}
  {
    var m' := m[x := d];
    assert m'.Keys == m.Keys + {x};
    assert |m'| == |m'.Keys| && |m| == |m.Keys|;
  }

  /** The object whose fields the lookup updates. */
  class Mechanism {
    const cfg: Config
    var queueToAsk: set<Peer>
    var alreadyAsked: set<Peer>
    var directHits: map<Peer, Digest>
    var potentialHits: set<Peer>
    var nrNoNewInfo: nat
    var nrFailures: nat
    var nrSuccess: nat
    var stopCreatingNewFutures: bool

    ghost function View(): (k: Knowledge)
      reads this
    {
      Knowledge(queueToAsk, alreadyAsked, directHits, potentialHits, nrNoNewInfo, nrFailures, nrSuccess, stopCreatingNewFutures)
    }

    constructor (cfg: Config, queue: set<Peer>, asked: set<Peer>, hits: map<Peer, Digest>, potential: set<Peer>)
      ensures this.cfg == cfg
      ensures View() == Knowledge(queue, asked, hits, potential, 0, 0, 0, false)
    {
      this.cfg := cfg;
      queueToAsk, alreadyAsked, directHits, potentialHits := queue, asked, hits, potential;
      nrNoNewInfo, nrFailures, nrSuccess, stopCreatingNewFutures := 0, 0, 0, false;
    }

    method PollFirst() returns (p: Option<Peer>)
      requires StrictTotal(cfg.before)
      modifies this`queueToAsk
      ensures p.None? <==> old(queueToAsk) == {}
      ensures p.None? ==> queueToAsk == {}
      ensures p.Some? ==> IsFirst(cfg.before, old(queueToAsk), p.value) && queueToAsk == old(queueToAsk) - {p.value}
    {
      if queueToAsk == {} {
        return None;
      }
      ghost var w := FirstExists(cfg.before, queueToAsk);
      var first :| first in queueToAsk && IsFirst(cfg.before, queueToAsk, first);
      queueToAsk := queueToAsk - {first};
      p := Some(first);
    }

    /** A random search takes any peer. */
    method PollAny() returns (p: Option<Peer>)
      modifies this`queueToAsk
      ensures p.None? <==> old(queueToAsk) == {}
      ensures p.None? ==> queueToAsk == {}
      ensures p.Some? ==> p.value in old(queueToAsk) && queueToAsk == old(queueToAsk) - {p.value}
    {
      if queueToAsk == {} {
        return None;
      }
      var any :| any in queueToAsk;
      queueToAsk := queueToAsk - {any};
      p := Some(any);
    }

    method FilterPeers(peers: seq<Peer>) returns (kept: seq<Peer>)
      ensures kept == Kept(cfg, alreadyAsked + queueToAsk, peers)
      ensures forall p :: p in kept <==> p in peers && !cfg.reject(p, alreadyAsked + queueToAsk)
    {
      var all := alreadyAsked + queueToAsk;
      kept := [];
      for i := 0 to |peers|
        invariant kept == Kept(cfg, all, peers[..i])
      {
        assert peers[..i + 1][..i] == peers[..i];
        if !cfg.reject(peers[i], all) {
          kept := kept + [peers[i]];
        }
      }
      assert peers[..|peers|] == peers;
      KeptAreReported(cfg, all, peers);
    }

    /** Adds the unasked peers to the queue; true exactly when one of them is nearer than the whole queue. */
    method Merge(newPeers: seq<Peer>) returns (newInfo: bool)
      requires StrictTotal(cfg.before)
      modifies this`queueToAsk
      ensures queueToAsk == old(queueToAsk) + Unasked(newPeers, alreadyAsked)
      ensures newInfo <==> Nearer(cfg.before, Unasked(newPeers, alreadyAsked), old(queueToAsk))
    {
      var result: set<Peer> := {};
      for i := 0 to |newPeers|
        invariant result == Unasked(newPeers[..i], alreadyAsked)
      {
        assert newPeers[..i + 1] == newPeers[..i] + [newPeers[i]];
        if newPeers[i] !in alreadyAsked {
          result := result + {newPeers[i]};
        }
      }
      assert newPeers[..|newPeers|] == newPeers;
      if result == {} {
        return false;
      }
      ghost var w := FirstExists(cfg.before, result);
      var first :| first in result && IsFirst(cfg.before, result, first);
      newInfo := IsNew(first);
      FirstDecides(cfg.before, result, queueToAsk, first);
      queueToAsk := queueToAsk + result;
    }

    method IsNew(item: Peer) returns (isNew: bool)
      ensures isNew <==> item !in queueToAsk && forall q :: q in queueToAsk ==> !cfg.before(q, item)
    {
      if item in queueToAsk {
        return false;
      }
      var head := set q | q in queueToAsk && cfg.before(q, item);
      assert forall q :: q in head <==> q in queueToAsk && cfg.before(q, item);
      isNew := head == {};
    }

    method EvaluateDirectHits(remote: Peer, digest: Digest) returns (enough: bool)
      modifies this`directHits
      ensures directHits == if digest.size > 0 then old(directHits)[remote := digest] else old(directHits)
      ensures enough <==> digest.size > 0 && |directHits| >= cfg.maxDirectHits
    {
      enough := false;
      if digest.size > 0 {
        directHits := directHits[remote := digest];
        enough := |directHits| >= cfg.maxDirectHits;
      }
    }

    method EvaluateInformation(peers: seq<Peer>) returns (exhausted: bool)
      requires StrictTotal(cfg.before)
      modifies this`queueToAsk, this`nrNoNewInfo
      ensures queueToAsk == old(queueToAsk) + Unasked(peers, alreadyAsked)
      ensures nrNoNewInfo ==
              if Nearer(cfg.before, Unasked(peers, alreadyAsked), old(queueToAsk)) then 0 else old(nrNoNewInfo) + 1
      ensures exhausted <==> nrNoNewInfo != 0 && nrNoNewInfo >= cfg.maxNoNewInfo
    {
      var newInformation := Merge(peers);
      if newInformation {
        nrNoNewInfo := 0;
        exhausted := false;
      } else {
        nrNoNewInfo := nrNoNewInfo + 1;
        exhausted := nrNoNewInfo >= cfg.maxNoNewInfo;
      }
    }

    method Success(remote: Peer, digest: Digest, peers: seq<Peer>, last: bool) returns (finished: bool)
      requires StrictTotal(cfg.before)
      modifies this
      ensures Evaluation(View(), finished) == EvaluateSuccess(cfg, old(View()), remote, digest, peers, last)
    {
      var kept := FilterPeers(peers);
      var enough := EvaluateDirectHits(remote, digest);
      if enough {
        finished, stopCreatingNewFutures := true, true;
        return;
      }
      nrSuccess := nrSuccess + 1;
      if nrSuccess > cfg.maxSuccess {
        finished, stopCreatingNewFutures := last, true;
        return;
      }
      var exhausted := EvaluateInformation(kept);
      finished, stopCreatingNewFutures := exhausted && last, exhausted;
    }

    method Failed() returns (finished: bool)
      modifies this`nrFailures, this`stopCreatingNewFutures
      ensures Evaluation(View(), finished) == EvaluateFailed(cfg, old(View()))
    {
      nrFailures := nrFailures + 1;
      finished := nrFailures > cfg.maxFailures;
      stopCreatingNewFutures := finished;
    }
  }

  /** The first of the candidates decides whether any of them is nearer. */
  lemma FirstDecides(before: (Peer, Peer) -> bool, candidates: set<Peer>, queue: set<Peer>, first: Peer)
    requires StrictTotal(before) && IsFirst(before, candidates, first)
    ensures Nearer(before, candidates, queue) <==> first !in queue && forall q :: q in queue ==> !before(q, first)
  {
    if first !in queue && forall q :: q in queue ==> !before(q, first) {
      assert forall q :: q in queue ==> before(first, q);
    }
    if Nearer(before, candidates, queue) {
      var p :| p in candidates && forall q :: q in queue ==> before(p, q);
      forall q | q in queue ensures before(first, q) {
        assert before(p, q) && (p == first || before(first, p));
      }
    }
  }
}
