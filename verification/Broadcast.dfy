/** One structured broadcast over a static network, with every delivery order.

    `Handler` is the per-peer object; `Deliver` is one step of the whole
    network: any message in flight may be the next to arrive. */
module Broadcast {
  import opened Arithmetic
  import opened Metric
  import opened Bags
  import N = Number160

  /** A broadcast message on the wire: addressee, hop count, bucket it was sent through. */
  datatype Msg = Msg(dest: Id, hop: nat, bucket: nat)

  /** The messages that `firstPeer` and `otherPeer` emit for a list of peers. */
  function Fan(self: Id, hop: nat, peers: seq<Id>): (ms: seq<Msg>)
    requires forall i :: 0 <= i < |peers| ==> peers[i] != self
    ensures |ms| == |peers|
    ensures forall i :: 0 <= i < |peers| ==> ms[i].dest == peers[i] && ms[i].hop == hop + 1 && ms[i].bucket == Class(peers[i], self)
  {
    if peers == [] then []
    else
      ClassEqual(peers[|peers| - 1], self);
      Fan(self, hop, peers[..|peers| - 1]) + [Msg(peers[|peers| - 1], hop + 1, Class(peers[|peers| - 1], self))]
  }

  ghost predicate NotSelf(self: Id, t: Table) {
    forall c, i :: 0 <= c < N.BITS && 0 <= i < |t[c]| ==> t[c][i] != self
  }

  lemma FanFits(self: Id, t: Table, r: nat, k: nat)
    requires NotSelf(self, t) && k <= N.BITS
    ensures forall i :: 0 <= i < |FromBags(t, r, k)| ==> FromBags(t, r, k)[i] != self
  {
    forall i | 0 <= i < |FromBags(t, r, k)| ensures FromBags(t, r, k)[i] != self {
      var c := FromBagsSound(t, r, k, FromBags(t, r, k)[i]);
    }
  }

  /** Forwarding into every bag below `bucket`, ignoring the hop limit. */
  ghost function Forward(self: Id, t: Table, r: nat, hop: nat, bucket: nat): (ms: seq<Msg>)
    requires NotSelf(self, t) && bucket <= N.BITS
  {
    FanFits(self, t, r, bucket);
    Fan(self, hop, FromBags(t, r, bucket))
  }

  /** What a peer sends for a message it sees for the first time. */
  ghost function Sends(self: Id, t: Table, r: nat, m: Msg): (ms: seq<Msg>)
    requires NotSelf(self, t)
  {
    if m.hop >= FilledFrom(t, 0) then []
    else Forward(self, t, r, m.hop, if m.hop == 0 then N.BITS else Min(m.bucket, N.BITS))
  }

  /** The bucket a peer forwards below: everything for the initiator. */
  function Reach(m: Msg): (b: nat) {
    if m.hop == 0 then N.BITS else Min(m.bucket, N.BITS)
  }

  /** A first copy: nothing once there have been as many hops as bags with peers; before that one message to
      each of the first `r` peers of every bag below the bucket and to nobody else, with one hop more and
      the class of the peer as bucket. */
  ghost predicate FansOut(self: Id, t: Table, r: nat, m: Msg, sent: seq<Msg>) {
    if m.hop >= |FilledClasses(t, 0)| then sent == []
    else
      |sent| == Quota(t, r, Reach(m)) &&
      forall c, i {:trigger CopyGoes(self, t, r, m, sent, c, i)} :: 0 <= c < Reach(m) && 0 <= i < Min(r, |t[c]|) ==>
        CopyGoes(self, t, r, m, sent, c, i)
  }

  /** Peer i of bag c gets its copy, in the order of the bags. */
  ghost predicate CopyGoes(self: Id, t: Table, r: nat, m: Msg, sent: seq<Msg>, c: nat, i: nat)
    requires c < N.BITS && i < |t[c]|
  {
    var at := Quota(t, r, c) + i;
    at < |sent| && sent[at].dest == t[c][i] && sent[at].hop == m.hop + 1 && sent[at].bucket == Class(t[c][i], self)
  }

  lemma SendsFanOut(self: Id, t: Table, r: nat, m: Msg)
    requires NotSelf(self, t)
    ensures FansOut(self, t, r, m, Sends(self, t, r, m))
  {
    FilledIsCount(t, 0);
    if m.hop < FilledFrom(t, 0) {
      var peers := FromBags(t, r, Reach(m));
      FanFits(self, t, r, Reach(m));
      FromBagsExact(t, r, Reach(m));
      var sent := Sends(self, t, r, m);
      forall c, i | 0 <= c < Reach(m) && 0 <= i < Min(r, |t[c]|) ensures CopyGoes(self, t, r, m, sent, c, i) {
        assert InPlace(t, r, peers, c, i);
      }
    }
  }

  /** The handler of one peer. */
  class Handler {
    const self: Id
    const table: Table
    const redundancy: nat
    var cache: set<nat>
    var broadcastCounter: nat
    var messageCounter: nat

    constructor (self: Id, table: Table, redundancy: nat)
      ensures this.self == self && this.table == table && this.redundancy == redundancy
      ensures cache == {} && broadcastCounter == 0 && messageCounter == 0
    {
      this.self, this.table, this.redundancy := self, table, redundancy;
      cache, broadcastCounter, messageCounter := {}, 0, 0;
    }

    method TwiceSeen(key: nat) returns (seen: bool)
      modifies this`cache
      ensures seen <==> key in old(cache)
      ensures cache == old(cache) + {key}
    {
      seen := key in cache;
      cache := cache + {key};
    }

    /** Acts on the first copy of a message only. */
    method Receive(key: nat, m: Msg) returns (sent: seq<Msg>)
      requires NotSelf(self, table)
      modifies this
      ensures cache == old(cache) + {key}
      ensures key in old(cache) ==> sent == [] && broadcastCounter == old(broadcastCounter)
      ensures key !in old(cache) ==> sent == Sends(self, table, redundancy, m) && FansOut(self, table, redundancy, m, sent)
      ensures key !in old(cache) ==> broadcastCounter == old(broadcastCounter) + 1
      ensures messageCounter == old(messageCounter) + |sent|
    {
      sent := [];
      var seen := TwiceSeen(key);
      if seen {
        return;
      }
      broadcastCounter := broadcastCounter + 1;
      SendsFanOut(self, table, redundancy, m);
      var filled := NrFilledBags(table);
      if m.hop < filled {
        if m.hop == 0 {
          sent := SendAll(m.hop, N.BITS);
        } else {
          sent := SendAll(m.hop, m.bucket);
        }
      }
    }

    /** `firstPeer` and `otherPeer`: one message to each peer drawn from the bags below `bucket`. */
    method SendAll(hop: nat, bucket: nat) returns (sent: seq<Msg>)
      requires NotSelf(self, table)
      modifies this`messageCounter
      ensures sent == Forward(self, table, redundancy, hop, Min(bucket, N.BITS))
      ensures messageCounter == old(messageCounter) + |sent|
    {
      var list := FromEachBag(table, redundancy, bucket);
      FanFits(self, table, redundancy, Min(bucket, N.BITS));
      sent := [];
      var i := 0;
      while i < |list|
        invariant i <= |list| && sent == Fan(self, hop, list[..i])
        invariant messageCounter == old(messageCounter) + i
      {
        assert list[..i + 1][..i] == list[..i];
        ClassEqual(list[i], self);
        sent := sent + [Msg(list[i], hop + 1, Class(list[i], self))];
        messageCounter := messageCounter + 1;
        i := i + 1;
      }
      assert list[..i] == list;
    }
  }

  // ---------------------------------------------------------------- the network

  datatype Network = Network(peers: set<Id>, tables: map<Id, Table>)

  /** Every bag holds network peers of its class only, and holds one whenever there is one. */
  ghost predicate Complete(net: Network) {
    net.tables.Keys == net.peers && forall p {:trigger PeerComplete(net, p)} :: p in net.peers ==> PeerComplete(net, p)
  }

  ghost predicate PeerComplete(net: Network, p: Id) {
    p in net.tables && CompleteFor(net.peers, p, net.tables[p])
  }

  ghost predicate CompleteFor(peers: set<Id>, p: Id, t: Table) {
    (forall c, i :: 0 <= c < N.BITS && 0 <= i < |t[c]| ==> t[c][i] in peers && Class(p, t[c][i]) == c) &&
    (forall y {:trigger Bag(p, y)} :: y in peers && y != p ==> t[Bag(p, y)] != [])
  }

  /** The bag of `p` that `y` belongs to. */
  function Bag(p: Id, y: Id): (c: nat)
    requires y != p
    ensures c == Class(p, y) < N.BITS
  {
    ClassEqual(p, y);
    Class(p, y)
  }

  lemma CompleteNotSelf(peers: set<Id>, p: Id, t: Table)
    requires CompleteFor(peers, p, t)
    ensures NotSelf(p, t)
  {
    forall c, i | 0 <= c < N.BITS && 0 <= i < |t[c]| ensures t[c][i] != p {
      ClassEqual(p, p);
    }
  }

  /** `seen` maps each peer that has acted to the bucket it acted with; `log` is the order of acting. */
  datatype State = State(inflight: seq<Msg>, seen: map<Id, nat>, log: seq<Id>, sent: nat)

  function Init(origin: Id): (s: State) {
    State([Msg(origin, 0, N.BITS)], map[], [], 0)
  }

  function Without<T>(s: seq<T>, i: nat): (r: seq<T>)
    requires i < |s|
  {
    s[..i] + s[i + 1..]
  }

  /** Message number `i` arrives. */
  ghost function Deliver(net: Network, r: nat, s: State, i: nat): (s': State)
    requires Complete(net) && i < |s.inflight| && s.inflight[i].dest in net.peers
  {
    var m := s.inflight[i];
    if m.dest in s.seen then s.(inflight := Without(s.inflight, i))
    else
      assert PeerComplete(net, m.dest);
      CompleteNotSelf(net.peers, m.dest, net.tables[m.dest]);
      var out := Sends(m.dest, net.tables[m.dest], r, m);
      State(Without(s.inflight, i) + out, s.seen[m.dest := m.bucket], s.log + [m.dest], s.sent + |out|)
  }

  ghost predicate Step(net: Network, r: nat, s: State, s': State)
    requires Complete(net)
  {
    exists i :: 0 <= i < |s.inflight| && s.inflight[i].dest in net.peers && s' == Deliver(net, r, s, i)
  }

  ghost predicate IsRun(net: Network, r: nat, origin: Id, trace: seq<State>)
    requires Complete(net)
  {
    |trace| > 0 && trace[0] == Init(origin) &&
    forall k {:trigger StepAt(net, r, trace, k)} :: 0 <= k < |trace| - 1 ==> StepAt(net, r, trace, k)
  }

  ghost predicate StepAt(net: Network, r: nat, trace: seq<State>, k: nat)
    requires Complete(net) && k < |trace| - 1
  {
    Step(net, r, trace[k], trace[k + 1])
  }

  // ---------------------------------------------------------------- messages in flight

  /** What is known of every message in flight. */
  ghost predicate Good(net: Network, seen: map<Id, nat>, m: Msg)
    requires Complete(net)
  {
    m.dest in net.peers && m.bucket <= N.BITS &&
    (m.hop == 0 ==> m.bucket == N.BITS) &&
    m.hop <= FilledFrom(net.tables[m.dest], m.bucket) &&
    (m.bucket < N.BITS ==> exists p :: p in seen && Class(p, m.dest) == m.bucket)
  }

  /** The hop limit never cuts anything off. */
  lemma HopLimitHarmless(net: Network, seen: map<Id, nat>, r: nat, m: Msg)
    requires Complete(net) && Good(net, seen, m)
    ensures NotSelf(m.dest, net.tables[m.dest])
    ensures Sends(m.dest, net.tables[m.dest], r, m) == Forward(m.dest, net.tables[m.dest], r, m.hop, m.bucket)
  {
    var t := net.tables[m.dest];
    assert PeerComplete(net, m.dest);
    CompleteNotSelf(net.peers, m.dest, t);
    if m.hop >= FilledFrom(t, 0) {
      FilledAbove(t, 0, m.bucket);
      FromBagsEmpty(t, r, m.bucket);
    }
  }

  /** Seen from a neighbour of class `c`, the bags above `c` are filled as seen from here. */
  lemma NeighbourFilled(net: Network, p: Id, x: Id, b: nat)
    requires Complete(net) && p in net.peers && x in net.peers
    requires 0 <= Class(p, x) < b <= N.BITS
    ensures FilledFrom(net.tables[x], Class(p, x)) >= 1 + FilledFrom(net.tables[p], b)
  {
    var c: nat := Class(p, x);
    var t, u := net.tables[p], net.tables[x];
    forall j | c < j < N.BITS ensures t[j] == [] <==> u[j] == [] {
      FilledTransfers(net, p, x, j);
      ClassSymmetric(p, x);
      FilledTransfers(net, x, p, j);
    }
    FilledAgree(t, u, c + 1);
    FilledMonotone(t, c + 1, b);
    ClassSymmetric(p, x);
    ClassEqual(p, x);
    assert PeerComplete(net, x);
    assert u[Bag(x, p)] != [];
  }

  lemma FilledTransfers(net: Network, p: Id, x: Id, j: nat)
    requires Complete(net) && p in net.peers && x in net.peers && Class(p, x) < j < N.BITS
    ensures net.tables[p][j] != [] ==> net.tables[x][j] != []
  {
    var t := net.tables[p];
    if t[j] != [] {
      var y := t[j][0];
      assert PeerComplete(net, p);
      ClassSymmetric(p, x);
      ClassUltrametric(x, p, y);
      ClassEqual(x, y);
      assert PeerComplete(net, x);
      assert net.tables[x][Bag(x, y)] != [];
    }
  }

  /** Every forwarded message is addressed below the bucket, to a peer of the class it names, and is good. */
  lemma ForwardGood(net: Network, seen: map<Id, nat>, r: nat, m: Msg, i: nat)
    requires Complete(net) && Good(net, seen, m) && NotSelf(m.dest, net.tables[m.dest])
    requires i < |Forward(m.dest, net.tables[m.dest], r, m.hop, m.bucket)|
    ensures var x := Forward(m.dest, net.tables[m.dest], r, m.hop, m.bucket)[i];
            x.bucket < m.bucket && Class(m.dest, x.dest) == x.bucket &&
            forall seen' :: m.dest in seen' ==> Good(net, seen', x)
  {
    var t := net.tables[m.dest];
    FanFits(m.dest, t, r, m.bucket);
    var x := Forward(m.dest, t, r, m.hop, m.bucket)[i];
    var c := FromBagsSound(t, r, m.bucket, x.dest);
    assert PeerComplete(net, m.dest);
    ClassSymmetric(m.dest, x.dest);
    NeighbourFilled(net, m.dest, x.dest, m.bucket);
  }

  /** Every class below the bucket that has a peer gets a message. */
  lemma ForwardReaches(net: Network, seen: map<Id, nat>, r: nat, m: Msg, y: Id) returns (i: nat)
    requires Complete(net) && Good(net, seen, m) && NotSelf(m.dest, net.tables[m.dest]) && r >= 1
    requires y in net.peers && 0 <= Class(m.dest, y) < m.bucket
    ensures i < |Forward(m.dest, net.tables[m.dest], r, m.hop, m.bucket)|
    ensures Forward(m.dest, net.tables[m.dest], r, m.hop, m.bucket)[i].bucket == Class(m.dest, y)
    ensures Class(m.dest, Forward(m.dest, net.tables[m.dest], r, m.hop, m.bucket)[i].dest) == Class(m.dest, y)
  {
    var t := net.tables[m.dest];
    ClassEqual(m.dest, y);
    var c := Bag(m.dest, y);
    assert PeerComplete(net, m.dest);
    FromBagsComplete(t, r, m.bucket, c);
    FanFits(m.dest, t, r, m.bucket);
    var list := FromBags(t, r, m.bucket);
    i :| 0 <= i < |list| && list[i] == t[c][0];
    ClassSymmetric(m.dest, list[i]);
  }

  // ---------------------------------------------------------------- the invariant

  /** In every subtree that has an acting peer, one of them acted on behalf of the whole subtree. */
  ghost predicate Rooted(s: State) {
    forall x, h {:trigger HasRoot(s.seen, x, h)} :: x in s.seen && 0 <= h <= N.BITS ==> HasRoot(s.seen, x, h)
  }

  ghost predicate HasRoot(seen: map<Id, nat>, x: Id, h: nat) {
    exists p :: p in seen && Together(p, x, h) && seen[p] >= h
  }

  /** Every class an acting peer was responsible for has been reached or will be. */
  ghost predicate Pending(net: Network, s: State) {
    forall p, y {:trigger Served(s, p, Class(p, y))} :: p in s.seen && y in net.peers && 0 <= Class(p, y) < s.seen[p] ==> Served(s, p, Class(p, y))
  }

  ghost predicate Served(s: State, p: Id, c: int) {
    (exists z :: z in s.seen && Class(p, z) == c) ||
    (exists j :: 0 <= j < |s.inflight| && Class(p, s.inflight[j].dest) == c)
  }

  ghost predicate Once(net: Network, s: State) {
    s.seen.Keys <= net.peers && |s.log| == |s.seen| &&
    (forall k :: 0 <= k < |s.log| ==> s.log[k] in s.seen) &&
    (forall k, l :: 0 <= k < l < |s.log| ==> s.log[k] != s.log[l])
  }

  /** The origin is reached, or its own message is still waiting. */
  ghost predicate Started(s: State, origin: Id) {
    origin in s.seen || exists j :: 0 <= j < |s.inflight| && s.inflight[j].dest == origin
  }

  ghost predicate AllGood(net: Network, s: State)
    requires Complete(net)
  {
    forall j :: 0 <= j < |s.inflight| ==> Good(net, s.seen, s.inflight[j])
  }

  ghost predicate Inv(net: Network, origin: Id, s: State)
    requires Complete(net)
  {
    AllGood(net, s) && Rooted(s) && Pending(net, s) && Once(net, s) && Started(s, origin)
  }

  lemma InitInv(net: Network, origin: Id)
    requires Complete(net) && origin in net.peers
    ensures Inv(net, origin, Init(origin))
  {
    var s := Init(origin);
    assert s.inflight[0].dest == origin;
  }

  lemma WithoutKeeps<T>(s: seq<T>, i: nat, j: nat) returns (k: nat)
    requires i < |s| && j < |s| && j != i
    ensures k < |Without(s, i)| && Without(s, i)[k] == s[j]
  {
    k := if j < i then j else j - 1;
  }

  lemma GoodStays(net: Network, seen: map<Id, nat>, seen': map<Id, nat>, m: Msg)
    requires Complete(net) && Good(net, seen, m) && seen.Keys <= seen'.Keys
    ensures Good(net, seen', m)
  {
    if m.bucket < N.BITS {
      var p :| p in seen && Class(p, m.dest) == m.bucket;
      assert p in seen';
    }
  }

  /** The first message to enter a subtree comes from outside, so it carries the whole subtree. */
  lemma NewRoot(net: Network, s: State, m: Msg, h: nat)
    requires Complete(net) && Good(net, s.seen, m) && Rooted(s) && m.dest !in s.seen && h <= N.BITS
    ensures HasRoot(s.seen[m.dest := m.bucket], m.dest, h)
  {
    var seen' := s.seen[m.dest := m.bucket];
    if h <= m.bucket {
      assert Together(m.dest, m.dest, h) && seen'[m.dest] >= h;
    } else {
      var p :| p in s.seen && Class(p, m.dest) == m.bucket;
      ClassBelow(p, m.dest, h);
      assert HasRoot(s.seen, p, h);
      var q :| q in s.seen && Together(q, p, h) && s.seen[q] >= h;
      assert q in seen' && Together(q, m.dest, h) && seen'[q] >= h;
    }
  }

  lemma RootedStep(net: Network, s: State, m: Msg, s': State)
    requires Complete(net) && Good(net, s.seen, m) && Rooted(s) && m.dest !in s.seen
    requires s'.seen == s.seen[m.dest := m.bucket]
    ensures Rooted(s')
  {
    forall x, h | x in s'.seen && 0 <= h <= N.BITS ensures HasRoot(s'.seen, x, h) {
      if x == m.dest {
        NewRoot(net, s, m, h);
      } else {
        assert HasRoot(s.seen, x, h);
        var q :| q in s.seen && Together(q, x, h) && s.seen[q] >= h;
        assert q in s'.seen && s'.seen[q] >= h;
      }
    }
  }

  /** Delivering the message that serves a class leaves its addressee acting. */
  lemma ServedStays(s: State, s': State, i: nat, p: Id, c: int)
    requires i < |s.inflight| && Served(s, p, c)
    requires s.seen.Keys + {s.inflight[i].dest} <= s'.seen.Keys
    requires Without(s.inflight, i) <= s'.inflight
    ensures Served(s', p, c)
  {
    if z :| z in s.seen && Class(p, z) == c {
      assert z in s'.seen;
    } else {
      var j :| 0 <= j < |s.inflight| && Class(p, s.inflight[j].dest) == c;
      if j == i {
        assert s.inflight[i].dest in s'.seen;
      } else {
        var k := WithoutKeeps(s.inflight, i, j);
        assert s'.inflight[k] == s.inflight[j];
      }
    }
  }

  lemma StepOld(net: Network, r: nat, origin: Id, s: State, i: nat)
    requires Complete(net) && Inv(net, origin, s) && i < |s.inflight| && s.inflight[i].dest in s.seen
    ensures Inv(net, origin, Deliver(net, r, s, i))
  {
    var s' := Deliver(net, r, s, i);
    assert s'.seen == s.seen && s'.inflight == Without(s.inflight, i);
    forall p, y | p in s'.seen && y in net.peers && 0 <= Class(p, y) < s'.seen[p] ensures Served(s', p, Class(p, y)) {
      ServedStays(s, s', i, p, Class(p, y));
    }
    StartedStays(origin, s, s', i);
    assert Rooted(s');
  }

  lemma StartedStays(origin: Id, s: State, s': State, i: nat)
    requires Started(s, origin) && i < |s.inflight|
    requires s.seen.Keys + {s.inflight[i].dest} <= s'.seen.Keys
    requires Without(s.inflight, i) <= s'.inflight
    ensures Started(s', origin)
  {
    if origin !in s'.seen {
      var j :| 0 <= j < |s.inflight| && s.inflight[j].dest == origin;
      var k := WithoutKeeps(s.inflight, i, j);
      assert s'.inflight[k].dest == origin;
    }
  }

  lemma StepNew(net: Network, r: nat, origin: Id, s: State, i: nat)
    requires Complete(net) && Inv(net, origin, s) && i < |s.inflight| && s.inflight[i].dest !in s.seen && r >= 1
    ensures Inv(net, origin, Deliver(net, r, s, i))
  {
    var m := s.inflight[i];
    var s' := Deliver(net, r, s, i);
    HopLimitHarmless(net, s.seen, r, m);
    var out := Forward(m.dest, net.tables[m.dest], r, m.hop, m.bucket);
    assert s'.inflight == Without(s.inflight, i) + out;
    forall j | 0 <= j < |s'.inflight| ensures Good(net, s'.seen, s'.inflight[j]) {
      var n := |Without(s.inflight, i)|;
      if j >= n {
        assert s'.inflight[j] == out[j - n];
        ForwardGood(net, s.seen, r, m, j - n);
      } else {
        GoodStays(net, s.seen, s'.seen, Without(s.inflight, i)[j]);
      }
    }
    RootedStep(net, s, m, s');
    PendingStep(net, r, s, i, out, s');
    StartedStays(origin, s, s', i);
  }

  lemma PendingStep(net: Network, r: nat, s: State, i: nat, out: seq<Msg>, s': State)
    requires Complete(net) && i < |s.inflight| && Good(net, s.seen, s.inflight[i]) && Pending(net, s) && r >= 1
    requires s.inflight[i].dest !in s.seen
    requires NotSelf(s.inflight[i].dest, net.tables[s.inflight[i].dest])
    requires out == Forward(s.inflight[i].dest, net.tables[s.inflight[i].dest], r, s.inflight[i].hop, s.inflight[i].bucket)
    requires s'.inflight == Without(s.inflight, i) + out
    requires s'.seen == s.seen[s.inflight[i].dest := s.inflight[i].bucket]
    ensures Pending(net, s')
  {
    var m := s.inflight[i];
    forall p, y | p in s'.seen && y in net.peers && 0 <= Class(p, y) < s'.seen[p] ensures Served(s', p, Class(p, y)) {
      if p == m.dest {
        var k := ForwardReaches(net, s.seen, r, m, y);
        assert s'.inflight[|Without(s.inflight, i)| + k] == out[k];
      } else {
        ServedStays(s, s', i, p, Class(p, y));
      }
    }
  }

  /** Every state of every run satisfies the invariant. */
  lemma {:induction false} RunInv(net: Network, r: nat, origin: Id, trace: seq<State>, k: nat)
    requires Complete(net) && origin in net.peers && r >= 1 && IsRun(net, r, origin, trace) && k < |trace|
    ensures Inv(net, origin, trace[k])
  {
    if k == 0 {
      InitInv(net, origin);
    } else {
      RunInv(net, r, origin, trace, k - 1);
      var s := trace[k - 1];
      assert StepAt(net, r, trace, k - 1);
      var i :| 0 <= i < |s.inflight| && s.inflight[i].dest in net.peers && trace[k] == Deliver(net, r, s, i);
      if s.inflight[i].dest in s.seen {
        StepOld(net, r, origin, s, i);
      } else {
        StepNew(net, r, origin, s, i);
      }
    }
  }

  // ---------------------------------------------------------------- theorems

  /** Once nothing is in flight, a subtree with one acting peer is all acting. */
  lemma {:induction false} Covered(net: Network, origin: Id, s: State, h: nat, x: Id, y: Id)
    requires Complete(net) && Inv(net, origin, s) && s.inflight == [] && h <= N.BITS
    requires x in s.seen && y in net.peers && Together(x, y, h)
    ensures y in s.seen
  {
    if h > 0 {
      assert HasRoot(s.seen, x, h);
      var p :| p in s.seen && Together(p, x, h) && s.seen[p] >= h;
      ClassBelow(p, y, h);
      ClassBelow(p, y, h - 1);
      if Class(p, y) == h - 1 {
        assert Served(s, p, Class(p, y));
        var z :| z in s.seen && Class(p, z) == h - 1;
        ClassSiblings(p, z, y);
        ClassBelow(z, y, h - 1);
        Covered(net, origin, s, h - 1, z, y);
      } else {
        Covered(net, origin, s, h - 1, p, y);
      }
    }
  }

  /** Coverage: whatever the delivery order, a run that has come to rest has been acted on by
      every peer of the network exactly once. */
  lemma Coverage(net: Network, r: nat, origin: Id, trace: seq<State>)
    requires Complete(net) && origin in net.peers && r >= 1 && IsRun(net, r, origin, trace)
    requires trace[|trace| - 1].inflight == []
    ensures trace[|trace| - 1].seen.Keys == net.peers
    ensures multiset(trace[|trace| - 1].log) == multiset(net.peers)
  {
    var s := trace[|trace| - 1];
    RunInv(net, r, origin, trace, |trace| - 1);
    forall y | y in net.peers ensures y in s.seen {
      ClassBelow(origin, y, N.BITS);
      Covered(net, origin, s, N.BITS, origin, y);
    }
    DistinctLog(s.log, s.seen.Keys);
  }

  lemma {:induction false} DistinctLog(log: seq<Id>, all: set<Id>)
    requires |log| == |all| && forall k :: 0 <= k < |log| ==> log[k] in all
    requires forall k, l :: 0 <= k < l < |log| ==> log[k] != log[l]
    ensures multiset(log) == multiset(all)
  {
    if log == [] {
    } else {
      var n := |log| - 1;
      DistinctLog(log[..n], all - {log[n]});
      assert log == log[..n] + [log[n]];
    }
  }

  /** The hop limit in every run: a message that has travelled `hop` hops finds at least that many
      filled bags at or above its bucket, and a peer sends exactly what it would without the limit. */
  lemma HopLimit(net: Network, r: nat, origin: Id, trace: seq<State>, k: nat, j: nat)
    requires Complete(net) && origin in net.peers && r >= 1 && IsRun(net, r, origin, trace)
    requires k < |trace| && j < |trace[k].inflight|
    ensures var m := trace[k].inflight[j];
            m.dest in net.peers && m.bucket <= N.BITS && NotSelf(m.dest, net.tables[m.dest]) &&
            m.hop <= FilledFrom(net.tables[m.dest], m.bucket) &&
            Sends(m.dest, net.tables[m.dest], r, m) == Forward(m.dest, net.tables[m.dest], r, m.hop, m.bucket)
  {
    RunInv(net, r, origin, trace, k);
    HopLimitHarmless(net, trace[k].seen, r, trace[k].inflight[j]);
  }

  /** Work left: messages in flight, and what the peers yet to act may still send. */
  ghost function Work(net: Network, r: nat, s: State): int {
    |s.inflight| + r * N.BITS * (|net.peers| - |s.seen|)
  }

  lemma SendsBounded(net: Network, seen: map<Id, nat>, r: nat, m: Msg)
    requires Complete(net) && Good(net, seen, m)
    ensures NotSelf(m.dest, net.tables[m.dest])
    ensures |Sends(m.dest, net.tables[m.dest], r, m)| <= r * N.BITS
  {
    var t := net.tables[m.dest];
    HopLimitHarmless(net, seen, r, m);
    FanFits(m.dest, t, r, m.bucket);
    FromBagsLength(t, r, m.bucket);
    MulMonotone(r, m.bucket, N.BITS);
  }

  /** A duplicate only disappears; a first copy turns one peer into an acting one. */
  ghost predicate Effect(a: nat, s: State, s': State) {
    (|s'.inflight| == |s.inflight| - 1 && |s'.seen| == |s.seen|) ||
    (|s'.inflight| <= |s.inflight| - 1 + a && |s'.seen| == |s.seen| + 1)
  }

  lemma StepEffect(net: Network, r: nat, s: State, s': State)
    requires Complete(net) && AllGood(net, s) && Step(net, r, s, s')
    ensures Effect(r * N.BITS, s, s')
  {
    var i :| 0 <= i < |s.inflight| && s.inflight[i].dest in net.peers && s' == Deliver(net, r, s, i);
    var m := s.inflight[i];
    if m.dest !in s.seen {
      SendsBounded(net, s.seen, r, m);
      MapGrows(s.seen, m.dest, m.bucket);
    }
  }

  lemma MapGrows<K, V>(m: map<K, V>, k: K, v: V)
    requires k !in m
    ensures |m[k := v]| == |m| + 1
  {
    assert m[k := v].Keys == m.Keys + {k};
  }

  lemma EffectDecreases(net: Network, r: nat, s: State, s': State)
    requires Effect(r * N.BITS, s, s')
    ensures Work(net, r, s') < Work(net, r, s)
  {
    var a, u := r * N.BITS, |net.peers| - |s.seen|;
    assert a * (u - 1) == a * u - a;
  }

  /** Every run ends: its length is bounded by the size of the network. */
  lemma {:induction false} Terminates(net: Network, r: nat, origin: Id, trace: seq<State>)
    requires Complete(net) && origin in net.peers && r >= 1 && IsRun(net, r, origin, trace)
    ensures |trace| <= 2 + r * N.BITS * |net.peers|
  {
    var n := |trace| - 1;
    RunInv(net, r, origin, trace, n);
    WorkBound(net, r, origin, trace, n);
    SubsetSize(trace[n].seen.Keys, net.peers);
    NonNegative(r * N.BITS, |net.peers| - |trace[n].seen|);
  }

  lemma {:induction false} WorkBound(net: Network, r: nat, origin: Id, trace: seq<State>, k: nat)
    requires Complete(net) && origin in net.peers && r >= 1 && IsRun(net, r, origin, trace) && k < |trace|
    ensures Work(net, r, trace[k]) + k <= 1 + r * N.BITS * |net.peers|
  {
    if k > 0 {
      WorkBound(net, r, origin, trace, k - 1);
      RunInv(net, r, origin, trace, k - 1);
      assert StepAt(net, r, trace, k - 1);
      StepEffect(net, r, trace[k - 1], trace[k]);
      EffectDecreases(net, r, trace[k - 1], trace[k]);
    }
  }

  lemma SubsetSize<T>(a: set<T>, b: set<T>)
    requires a <= b
    ensures |a| <= |b|
  {
    assert |b| == |a| + |b - a| by { assert b == a + (b - a); }
  }

  /** And no run gets stuck before that: any message in flight can be delivered. */
  lemma Progress(net: Network, r: nat, origin: Id, trace: seq<State>)
    requires Complete(net) && origin in net.peers && r >= 1 && IsRun(net, r, origin, trace)
    requires trace[|trace| - 1].inflight != []
    ensures exists s' :: IsRun(net, r, origin, trace + [s'])
  {
    var s := trace[|trace| - 1];
    RunInv(net, r, origin, trace, |trace| - 1);
    assert Good(net, s.seen, s.inflight[0]);
    var s' := Deliver(net, r, s, 0);
    assert Step(net, r, s, s');
    var longer := trace + [s'];
    forall k | 0 <= k < |longer| - 1 ensures StepAt(net, r, longer, k) {
      if k < |trace| - 1 {
        assert StepAt(net, r, trace, k);
      }
    }
  }
}
