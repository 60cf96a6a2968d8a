/** The broadcast with redundancy 1: the messages in flight divide the peers not yet
    reached among themselves, so nothing is ever sent twice. */
module BroadcastExact {
  import opened Metric
  import opened Bags
  import opened Broadcast
  import N = Number160

  function Max(a: nat, b: nat): (m: nat) {
    if a < b then b else a
  }

  /** The peers a message is responsible for: the addressee's subtree of height `bucket`. */
  ghost predicate InRegion(m: Msg, y: Id) {
    Together(y, m.dest, m.bucket)
  }

  /** Two regions have no identifier in common. */
  ghost predicate Apart(m: Msg, m': Msg) {
    !Together(m.dest, m'.dest, Max(m.bucket, m'.bucket))
  }

  ghost predicate AllApart(ms: seq<Msg>) {
    forall i, j {:trigger Apart(ms[i], ms[j])} :: 0 <= i < j < |ms| ==> Apart(ms[i], ms[j])
  }

  ghost predicate Fresh(s: State) {
    forall j, x {:trigger InRegion(s.inflight[j], x)} :: 0 <= j < |s.inflight| && x in s.seen ==> !InRegion(s.inflight[j], x)
  }

  ghost predicate Total(net: Network, s: State) {
    forall y {:trigger Assigned(s, y)} :: y in net.peers && y !in s.seen ==> Assigned(s, y)
  }

  ghost predicate Assigned(s: State, y: Id) {
    exists j :: 0 <= j < |s.inflight| && InRegion(s.inflight[j], y)
  }

  ghost predicate Exact(net: Network, s: State) {
    AllApart(s.inflight) && Fresh(s) && Total(net, s) && s.sent + 1 == |s.seen| + |s.inflight|
  }

  lemma ApartMeans(m: Msg, m': Msg, y: Id)
    requires InRegion(m, y) && InRegion(m', y)
    ensures !Apart(m, m')
  {
    TogetherUp(y, m.dest, m.bucket, Max(m.bucket, m'.bucket));
    TogetherUp(y, m'.dest, m'.bucket, Max(m.bucket, m'.bucket));
  }

  lemma TogetherUp(a: Id, b: Id, h: nat, k: nat)
    requires Together(a, b, h) && h <= k
    ensures Together(a, b, k)
  {
    ClassBelow(a, b, h);
    ClassBelow(a, b, k);
  }

  lemma InitExact(net: Network, origin: Id)
    requires origin in net.peers
    ensures Exact(net, Init(origin))
  {
    var s := Init(origin);
    forall y | y in net.peers ensures Assigned(s, y) {
      ClassBelow(y, origin, N.BITS);
      assert InRegion(s.inflight[0], y);
    }
  }

  // ---------------------------------------------------------------- one peer per bag

  ghost predicate Increasing(p: Id, xs: seq<Id>) {
    forall i, j {:trigger xs[i], xs[j]} :: 0 <= i < j < |xs| ==> Class(p, xs[i]) < Class(p, xs[j])
  }

  lemma {:induction false} OnePerBag(peers: set<Id>, p: Id, t: Table, k: nat)
    requires CompleteFor(peers, p, t) && k <= N.BITS
    ensures forall i :: 0 <= i < |FromBags(t, 1, k)| ==> Class(p, FromBags(t, 1, k)[i]) < k
    ensures Increasing(p, FromBags(t, 1, k))
  {
    if k != 0 {
      OnePerBag(peers, p, t, k - 1);
      if t[k - 1] != [] {
        assert Take(t[k - 1], 1) == [t[k - 1][0]];
        assert Class(p, t[k - 1][0]) == k - 1;
      }
    }
  }

  // ---------------------------------------------------------------- splitting a region

  /** What `Forward` emits with redundancy 1: peers of rising classes below the bucket. */
  ghost predicate Split(net: Network, m: Msg, out: seq<Msg>) {
    (forall i :: 0 <= i < |out| ==> 0 <= Class(m.dest, out[i].dest) == out[i].bucket < m.bucket) &&
    (forall i, j {:trigger out[i], out[j]} :: 0 <= i < j < |out| ==> out[i].bucket < out[j].bucket) &&
    (forall y {:trigger Reached(m, out, y)} :: y in net.peers && 0 <= Class(m.dest, y) < m.bucket ==> Reached(m, out, y))
  }

  ghost predicate Reached(m: Msg, out: seq<Msg>, y: Id) {
    exists i :: 0 <= i < |out| && out[i].bucket == Class(m.dest, y)
  }

  lemma ForwardSplits(net: Network, seen: map<Id, nat>, m: Msg, out: seq<Msg>)
    requires Complete(net) && Good(net, seen, m) && NotSelf(m.dest, net.tables[m.dest])
    requires out == Forward(m.dest, net.tables[m.dest], 1, m.hop, m.bucket)
    ensures Split(net, m, out)
  {
    var t := net.tables[m.dest];
    assert PeerComplete(net, m.dest);
    FanFits(m.dest, t, 1, m.bucket);
    OnePerBag(net.peers, m.dest, t, m.bucket);
    forall i | 0 <= i < |out| ensures 0 <= Class(m.dest, out[i].dest) == out[i].bucket < m.bucket {
      ForwardGood(net, seen, 1, m, i);
    }
    forall y | y in net.peers && 0 <= Class(m.dest, y) < m.bucket ensures Reached(m, out, y) {
      var i := ForwardReaches(net, seen, 1, m, y);
    }
  }

  /** The parts of a region are disjoint from each other. */
  lemma PartsApart(net: Network, m: Msg, out: seq<Msg>)
    requires Split(net, m, out)
    ensures AllApart(out)
  {
    forall i, j | 0 <= i < j < |out| ensures Apart(out[i], out[j]) {
      var x, y := out[i].dest, out[j].dest;
      ClassSymmetric(m.dest, x);
      ClassUltrametric(x, m.dest, y);
      ClassBelow(x, y, out[j].bucket);
    }
  }

  /** A part lies inside the region it came from, so whatever was outside stays outside. */
  lemma PartInside(m: Msg, x: Msg, y: Id)
    requires 0 <= Class(m.dest, x.dest) == x.bucket < m.bucket && InRegion(x, y)
    ensures InRegion(m, y)
  {
    TogetherUp(y, x.dest, x.bucket, m.bucket);
    ClassBelow(m.dest, x.dest, m.bucket);
  }

  lemma PartApart(m: Msg, x: Msg, m': Msg)
    requires 0 <= Class(m.dest, x.dest) == x.bucket < m.bucket && Apart(m', m)
    ensures Apart(m', x)
  {
    if Together(m'.dest, x.dest, Max(m'.bucket, x.bucket)) {
      var h := Max(m'.bucket, m.bucket);
      TogetherUp(m'.dest, x.dest, Max(m'.bucket, x.bucket), h);
      ClassBelow(m.dest, x.dest, h);
    }
  }

  lemma ApartSymmetric(m: Msg, m': Msg)
    ensures Apart(m, m') <==> Apart(m', m)
  {
  }

  lemma NotInPart(m: Msg, x: Msg)
    requires 0 <= Class(m.dest, x.dest) == x.bucket
    ensures !InRegion(x, m.dest)
  {
    ClassBelow(m.dest, x.dest, x.bucket);
  }

  // ---------------------------------------------------------------- the step

  /** Message `i` is replaced by the parts of its region. */
  ghost predicate Replaced(s: State, i: nat, out: seq<Msg>, s': State) {
    i < |s.inflight| && s.inflight[i].dest !in s.seen &&
    s'.inflight == Without(s.inflight, i) + out &&
    s'.seen == s.seen[s.inflight[i].dest := s.inflight[i].bucket] &&
    s'.sent == s.sent + |out|
  }

  lemma StepApart(net: Network, s: State, i: nat, out: seq<Msg>, s': State)
    requires Exact(net, s) && Replaced(s, i, out, s') && Split(net, s.inflight[i], out)
    ensures AllApart(s'.inflight)
  {
    var m := s.inflight[i];
    var rest := Without(s.inflight, i);
    PartsApart(net, m, out);
    forall k, l | 0 <= k < l < |s'.inflight| ensures Apart(s'.inflight[k], s'.inflight[l]) {
      if l < |rest| {
        var k', l' := Position(i, k), Position(i, l);
        assert Apart(s.inflight[k'], s.inflight[l']);
      } else if k < |rest| {
        var k' := Position(i, k);
        if k' < i {
          assert Apart(s.inflight[k'], s.inflight[i]);
        } else {
          assert Apart(s.inflight[i], s.inflight[k']);
          ApartSymmetric(s.inflight[i], s.inflight[k']);
        }
        PartApart(m, out[l - |rest|], s.inflight[k']);
      } else {
        assert Apart(out[k - |rest|], out[l - |rest|]);
      }
    }
  }

  /** Where element `k` of the shortened sequence was before. */
  function Position(i: nat, k: nat): (p: nat)
    ensures p != i
  {
    if k < i then k else k + 1
  }

  lemma StepFresh(net: Network, s: State, i: nat, out: seq<Msg>, s': State)
    requires Exact(net, s) && Replaced(s, i, out, s') && Split(net, s.inflight[i], out)
    ensures Fresh(s')
  {
    var m := s.inflight[i];
    var rest := Without(s.inflight, i);
    forall k, x | 0 <= k < |s'.inflight| && x in s'.seen ensures !InRegion(s'.inflight[k], x) {
      if k < |rest| {
        var k' := Position(i, k);
        if x == m.dest {
          if k' < i {
            assert Apart(s.inflight[k'], s.inflight[i]);
          } else {
            assert Apart(s.inflight[i], s.inflight[k']);
          }
          if InRegion(s.inflight[k'], x) {
            ApartMeans(s.inflight[k'], m, x);
            ApartMeans(m, s.inflight[k'], x);
          }
        } else {
          assert !InRegion(s.inflight[k'], x);
        }
      } else {
        var o := out[k - |rest|];
        if x == m.dest {
          NotInPart(m, o);
        } else {
          assert !InRegion(s.inflight[i], x);
          if InRegion(o, x) {
            PartInside(m, o, x);
          }
        }
      }
    }
  }

  lemma StepTotal(net: Network, s: State, i: nat, out: seq<Msg>, s': State)
    requires Exact(net, s) && Replaced(s, i, out, s') && Split(net, s.inflight[i], out)
    ensures Total(net, s')
  {
    var m := s.inflight[i];
    var rest := Without(s.inflight, i);
    forall y | y in net.peers && y !in s'.seen ensures Assigned(s', y) {
      assert Assigned(s, y);
      var j :| 0 <= j < |s.inflight| && InRegion(s.inflight[j], y);
      if j == i {
        ClassSymmetric(y, m.dest);
        ClassBelow(y, m.dest, m.bucket);
        ClassEqual(m.dest, y);
        assert Reached(m, out, y);
        var c :| 0 <= c < |out| && out[c].bucket == Class(m.dest, y);
        ClassSiblings(m.dest, y, out[c].dest);
        ClassBelow(y, out[c].dest, out[c].bucket);
        assert s'.inflight[|rest| + c] == out[c];
      } else {
        var k := WithoutKeeps(s.inflight, i, j);
        assert s'.inflight[k] == s.inflight[j];
      }
    }
  }

  lemma StepExact(net: Network, s: State, i: nat)
    requires Complete(net) && AllGood(net, s) && Exact(net, s) && i < |s.inflight|
    ensures s.inflight[i].dest in net.peers && Exact(net, Deliver(net, 1, s, i))
  {
    var m := s.inflight[i];
    assert Good(net, s.seen, m);
    assert InRegion(s.inflight[i], m.dest);
    var s' := Deliver(net, 1, s, i);
    HopLimitHarmless(net, s.seen, 1, m);
    var out := Forward(m.dest, net.tables[m.dest], 1, m.hop, m.bucket);
    ForwardSplits(net, s.seen, m, out);
    StepApart(net, s, i, out, s');
    StepFresh(net, s, i, out, s');
    StepTotal(net, s, i, out, s');
    MapGrows(s.seen, m.dest, m.bucket);
  }

  lemma NextExact(net: Network, s: State, s': State)
    requires Complete(net) && Step(net, 1, s, s') && AllGood(net, s) && Exact(net, s)
    ensures Exact(net, s')
  {
    var i :| 0 <= i < |s.inflight| && s.inflight[i].dest in net.peers && s' == Deliver(net, 1, s, i);
    StepExact(net, s, i);
  }

  lemma RunSteps(net: Network, origin: Id, trace: seq<State>, k: nat)
    requires Complete(net) && IsRun(net, 1, origin, trace) && 0 < k < |trace|
    ensures Step(net, 1, trace[k - 1], trace[k])
  {
    assert StepAt(net, 1, trace, k - 1);
  }

  lemma RunGood(net: Network, origin: Id, trace: seq<State>, k: nat)
    requires Complete(net) && origin in net.peers && IsRun(net, 1, origin, trace) && k < |trace|
    ensures AllGood(net, trace[k])
  {
    RunInv(net, 1, origin, trace, k);
  }

  lemma {:induction false} RunExact(net: Network, origin: Id, trace: seq<State>, k: nat)
    requires Complete(net) && origin in net.peers && IsRun(net, 1, origin, trace) && k < |trace|
    ensures Exact(net, trace[k])
  {
    if k == 0 {
      InitExact(net, origin);
    } else {
      RunExact(net, origin, trace, k - 1);
      RunGood(net, origin, trace, k - 1);
      RunSteps(net, origin, trace, k);
      NextExact(net, trace[k - 1], trace[k]);
    }
  }

  // ---------------------------------------------------------------- theorems

  /** At every moment of every run each peer that has not acted lies in the region of exactly one
      message in flight, and no message is on its way to a peer that has acted. */
  lemma Partition(net: Network, origin: Id, trace: seq<State>, k: nat, y: Id)
    requires Complete(net) && origin in net.peers && IsRun(net, 1, origin, trace) && k < |trace| && y in net.peers
    ensures var s := trace[k];
            if y in s.seen then forall j :: 0 <= j < |s.inflight| ==> !InRegion(s.inflight[j], y) && s.inflight[j].dest != y
            else exists j :: 0 <= j < |s.inflight| && InRegion(s.inflight[j], y) &&
                   forall l :: 0 <= l < |s.inflight| && l != j ==> !InRegion(s.inflight[l], y)
  {
    var s := trace[k];
    RunExact(net, origin, trace, k);
    if y in s.seen {
      forall j | 0 <= j < |s.inflight| ensures !InRegion(s.inflight[j], y) && s.inflight[j].dest != y {
        assert !InRegion(s.inflight[j], y);
      }
    } else {
      assert Assigned(s, y);
      var j :| 0 <= j < |s.inflight| && InRegion(s.inflight[j], y);
      forall l | 0 <= l < |s.inflight| && l != j ensures !InRegion(s.inflight[l], y) {
        if j < l {
          assert Apart(s.inflight[j], s.inflight[l]);
        } else {
          assert Apart(s.inflight[l], s.inflight[j]);
          ApartSymmetric(s.inflight[l], s.inflight[j]);
        }
        if InRegion(s.inflight[l], y) {
          ApartMeans(s.inflight[j], s.inflight[l], y);
        }
      }
    }
  }

  /** N peers cost exactly N - 1 messages. */
  lemma MessageCount(net: Network, origin: Id, trace: seq<State>)
    requires Complete(net) && origin in net.peers && IsRun(net, 1, origin, trace)
    requires trace[|trace| - 1].inflight == []
    ensures trace[|trace| - 1].sent == |net.peers| - 1
  {
    RunExact(net, origin, trace, |trace| - 1);
    Coverage(net, 1, origin, trace);
    assert |trace[|trace| - 1].seen| == |trace[|trace| - 1].seen.Keys|;
  }
}
