/** Runs in which the permits are not what they should be, built for every configuration. */
module PermitRuns {
  import opened Reservation
  import opened OpenChannels

  /** A run has come to s. */
  ghost predicate Comes(cfg: Config, es: seq<Event>, s: State) {
    Possible(cfg, New(cfg), es) && Run(cfg, New(cfg), es) == s
  }

  lemma {:induction false} Then(cfg: Config, s: State, es: seq<Event>, e: Event)
    requires Possible(cfg, s, es) && Enabled(Run(cfg, s, es), e)
    ensures Possible(cfg, s, es + [e]) && Run(cfg, s, es + [e]) == Apply(cfg, Run(cfg, s, es), e)
    decreases |es|
  {
    if es == [] {
      assert [e][1..] == [];
    } else {
      Then(cfg, Apply(cfg, s, es[0]), es[1..], e);
      assert (es + [e])[1..] == es[1..] + [e];
    }
  }

  /** How often callers shut creators down. */
  function Shutdowns(es: seq<Event>): (n: nat) {
    if es == [] then 0 else Shutdowns(es[..|es| - 1]) + if es[|es| - 1].ShutdownCreator? then 1 else 0
  }

  lemma {:induction false} NoCalls(es: seq<Event>)
    requires Shutdowns(es) == 0
    ensures forall a :: 0 <= a < |es| ==> !es[a].ShutdownCreator?
  {
    if es != [] {
      var m := |es| - 1;
      NoCalls(es[..m]);
      assert forall a :: 0 <= a < m ==> es[a] == es[..m][a];
    }
  }

  lemma {:induction false} AtMostOneCall(es: seq<Event>)
    requires Shutdowns(es) <= 1
    ensures CalledOnce(es)
  {
    if es != [] {
      var m := |es| - 1;
      AtMostOneCall(es[..m]);
      forall n | 0 <= n < |es| && es[n].ShutdownCreator? ensures !ShutBefore(es, n, es[n].who) {
        if n == m {
          NoCalls(es[..m]);
          SameBefore(es, m, n, es[n].who);
        } else {
          OneCallBefore(es[..m], n);
          SameBefore(es, m, n, es[n].who);
        }
      }
    }
  }

  lemma SameBefore(es: seq<Event>, m: nat, n: nat, i: nat)
    requires n <= m <= |es|
    ensures ShutBefore(es, n, i) <==> ShutBefore(es[..m], n, i)
  {
    if ShutBefore(es, n, i) {
      var a :| 0 <= a < n && es[a] == ShutdownCreator(i);
      assert es[..m][a] == ShutdownCreator(i);
    }
    if ShutBefore(es[..m], n, i) {
      var a :| 0 <= a < n && es[..m][a] == ShutdownCreator(i);
      assert es[a] == ShutdownCreator(i);
    }
  }

  lemma {:induction false} OneCallBefore(es: seq<Event>, n: nat)
    requires Shutdowns(es) <= 1 && n < |es| && es[n].ShutdownCreator?
    ensures !ShutBefore(es, n, es[n].who)
  {
    var m := |es| - 1;
    SameBefore(es, m, n, es[n].who);
    if n == m {
      NoCalls(es[..m]);
    } else {
      OneCallBefore(es[..m], n);
    }
  }

  /** A run that reaches s goes on with any event enabled there. */
  lemma Longer(cfg: Config, es: seq<Event>, s: State, e: Event, s': State) returns (es': seq<Event>)
    requires Comes(cfg, es, s) && Enabled(s, e) && Apply(cfg, s, e) == s'
    ensures Comes(cfg, es', s') && Shutdowns(es') == Shutdowns(es) + if e.ShutdownCreator? then 1 else 0
  {
    Then(cfg, New(cfg), es, e);
    es' := es + [e];
    assert es'[..|es|] == es;
  }

  function Less(p: Permits, q: Permits): (r: Permits)
    requires Fits(q, p)
  {
    Permits(p.udp - q.udp, p.tcp - q.tcp)
  }

  predicate Quiet(s: State) {
    s.queue == [] && s.pending == Idle && !s.shutdown
  }

  /** A request for permits that are all there gets as far as the grant. */
  lemma Granting(cfg: Config, es: seq<Event>, s: State, unadjusted: nat, tcp: nat) returns (es': seq<Event>)
    requires Comes(cfg, es, s) && Quiet(s)
    requires Fits(Adjusted(unadjusted, tcp), cfg.max) && Fits(Adjusted(unadjusted, tcp), s.avail)
    ensures var b := Adjusted(unadjusted, tcp);
            Comes(cfg, es', s.(avail := Permits(s.avail.udp - b.udp, s.avail.tcp), pending := Waiting(b, WaitTcp)))
    ensures Shutdowns(es') == Shutdowns(es)
  {
    var b := Adjusted(unadjusted, tcp);
    var s1, s2 := s.(queue := [b]), s.(pending := Waiting(b, WaitUdp));
    es' := Longer(cfg, es, s, Create(unadjusted, tcp), s1);
    es' := Longer(cfg, es', s1, StartReservation, s2);
    es' := Longer(cfg, es', s2, AcquireUdp, s.(avail := Permits(s.avail.udp - b.udp, s.avail.tcp), pending := Waiting(b, WaitTcp)));
  }

  /** Without a local address at the grant the block is gone, for every configuration and every block that
      can be asked for at all. */
  lemma UnknownSourceLeaks(cfg: Config, unadjusted: nat, tcp: nat) returns (es: seq<Event>)
    requires Fits(Adjusted(unadjusted, tcp), cfg.max)
    ensures var b := Adjusted(unadjusted, tcp);
            Comes(cfg, es, New(cfg).(avail := Less(cfg.max, b), lost := b))
  {
    var b := Adjusted(unadjusted, tcp);
    var s := New(cfg).(avail := Permits(cfg.max.udp - b.udp, cfg.max.tcp), pending := Waiting(b, WaitTcp));
    es := Granting(cfg, [], New(cfg), unadjusted, tcp);
    es := Longer(cfg, es, s, AcquireTcp(false), New(cfg).(avail := Less(cfg.max, b), lost := b));
  }

  /** A reservation of all UDP permits after such a loss: blocked, and by nobody. */
  lemma BlockedByNobody(cfg: Config, n: nat) returns (es: seq<Event>)
    requires 0 < n <= cfg.max.udp
    ensures Possible(cfg, New(cfg), es)
    ensures var s := Run(cfg, New(cfg), es); Blocked(s) && Awaited(s.pending) == Udp && !SomebodyHolds(s, Udp)
  {
    var b, all := Adjusted(n, 0), Adjusted(cfg.max.udp, 0);
    var s := New(cfg).(avail := Less(cfg.max, b), lost := b);
    es := UnknownSourceLeaks(cfg, n, 0);
    es := Longer(cfg, es, s, Create(cfg.max.udp, 0), s.(queue := [all]));
    es := Longer(cfg, es, s.(queue := [all]), StartReservation, s.(pending := Waiting(all, WaitUdp)));
  }

  // ---------------------------------------------------------------- a creator with one channel

  /** The smallest block with a permit of kind k. */
  function OneOf(k: Kind): (p: Permits) {
    if k == Udp then Permits(1, 0) else Permits(3, 1)
  }

  function Opening(k: Kind): (c: Creator) {
    Opened(FreshCreator(OneOf(k)), k)
  }

  lemma ReserveAndOpen(cfg: Config, es: seq<Event>, s: State, k: Kind) returns (es': seq<Event>)
    requires Comes(cfg, es, s) && Quiet(s) && Fits(OneOf(k), cfg.max) && Fits(OneOf(k), s.avail)
    ensures Comes(cfg, es', s.(avail := Less(s.avail, OneOf(k)), creators := s.creators + [Opening(k)]))
    ensures Shutdowns(es') == Shutdowns(es)
  {
    var b, n := OneOf(k), |s.creators|;
    var s3 := s.(avail := Permits(s.avail.udp - b.udp, s.avail.tcp), pending := Waiting(b, WaitTcp));
    var s4 := s.(avail := Less(s.avail, b), creators := s.creators + [FreshCreator(b)]);
    var s5 := s.(avail := Less(s.avail, b), creators := s.creators + [Opening(k)]);
    es' := Granting(cfg, es, s, if k == Udp then 1 else 0, if k == Udp then 0 else 1);
    es' := Longer(cfg, es', s3, AcquireTcp(true), s4);
    assert s4.creators[n := Opening(k)] == s5.creators;
    es' := Longer(cfg, es', s4, OpenChannel(n, k), s5);
  }

  // ---------------------------------------------------------------- a second call of shutdown

  /** Shut down twice and released, with its channel still open. */
  function Gone(k: Kind): (c: Creator) {
    Shut(Shut(Opening(k))).(stage := Released)
  }

  function Copies(c: Creator, n: nat): (cs: seq<Creator>)
    ensures |cs| == n
  {
    if n == 0 then [] else Copies(c, n - 1) + [c]
  }

  lemma OneMoreOpen(cs: seq<Creator>, c: Creator, k: Kind)
    ensures AllOpen(cs + [c], k) == AllOpen(cs, k) + Of(c.open, k)
  {
    assert (cs + [c])[..|cs|] == cs;
  }

  lemma {:induction false} CopiesOpen(c: Creator, k: Kind, n: nat)
    requires Of(c.open, k) == 1
    ensures AllOpen(Copies(c, n), k) == n
  {
    if n > 0 {
      CopiesOpen(c, k, n - 1);
      OneMoreOpen(Copies(c, n - 1), c, k);
    }
  }

  lemma GoOnce(cfg: Config, es: seq<Event>, s: State, k: Kind) returns (es': seq<Event>)
    requires Comes(cfg, es, s) && Quiet(s) && Fits(OneOf(k), cfg.max) && s.avail == cfg.max
    ensures Comes(cfg, es', s.(creators := s.creators + [Gone(k)]))
  {
    var n, c := |s.creators|, Opening(k);
    var t := s.(avail := Less(s.avail, OneOf(k)));
    es' := ReserveAndOpen(cfg, es, s, k);
    assert (s.creators + [c])[n := Shut(c)] == s.creators + [Shut(c)];
    es' := Longer(cfg, es', t.(creators := s.creators + [c]), ShutdownCreator(n), t.(creators := s.creators + [Shut(c)]));
    assert (s.creators + [Shut(c)])[n := Shut(Shut(c))] == s.creators + [Shut(Shut(c))];
    es' := Longer(cfg, es', t.(creators := s.creators + [Shut(c)]), ShutdownCreator(n), t.(creators := s.creators + [Shut(Shut(c))]));
    assert (s.creators + [Shut(Shut(c))])[n := Gone(k)] == s.creators + [Gone(k)];
    es' := Longer(cfg, es', t.(creators := s.creators + [Shut(Shut(c))]), RunRelease(n), s.(creators := s.creators + [Gone(k)]));
  }

  /** With two calls of `shutdown` per creator there is no bound at all: in every configuration that can
      grant a permit of the kind, any number of channels can be open at once. */
  lemma SecondShutdownOverruns(cfg: Config, k: Kind, n: nat) returns (es: seq<Event>)
    requires Fits(OneOf(k), cfg.max)
    ensures Comes(cfg, es, New(cfg).(creators := Copies(Gone(k), n)))
    ensures AllOpen(Run(cfg, New(cfg), es).creators, k) == n
  {
    CopiesOpen(Gone(k), k, n);
    es := GoMany(cfg, k, n);
  }

  lemma {:induction false} GoMany(cfg: Config, k: Kind, n: nat) returns (es: seq<Event>)
    requires Fits(OneOf(k), cfg.max)
    ensures Comes(cfg, es, New(cfg).(creators := Copies(Gone(k), n)))
  {
    if n == 0 {
      es := [];
    } else {
      var before := GoMany(cfg, k, n - 1);
      es := GoOnce(cfg, before, New(cfg).(creators := Copies(Gone(k), n - 1)), k);
    }
  }

  /** A block that can be asked for: it fits, and brings three UDP permits for each TCP permit. */
  predicate Askable(cfg: Config, p: Permits) {
    Fits(p, cfg.max) && p.udp >= 3 * p.tcp
  }

  ghost predicate AllAskable(cfg: Config, s: State) {
    (forall j :: 0 <= j < |s.queue| ==> Askable(cfg, s.queue[j])) &&
    (s.pending.Waiting? ==> Askable(cfg, s.pending.permits)) &&
    (forall i :: 0 <= i < |s.creators| ==> Askable(cfg, s.creators[i].permits))
  }

  lemma AskableStep(cfg: Config, s: State, e: Event)
    requires AllAskable(cfg, s) && Enabled(s, e)
    ensures AllAskable(cfg, Apply(cfg, s, e))
  {
    if !e.AcquireTcp? {
      var i := OneCreator(cfg, s, e);
    }
  }

  lemma {:induction false} AskableRun(cfg: Config, s: State, es: seq<Event>)
    requires AllAskable(cfg, s) && Possible(cfg, s, es)
    ensures AllAskable(cfg, Run(cfg, s, es))
    decreases |es|
  {
    if es != [] {
      AskableStep(cfg, s, es[0]);
      AskableRun(cfg, Apply(cfg, s, es[0]), es[1..]);
    }
  }

  lemma {:induction false} NothingOpen(cs: seq<Creator>, k: Kind)
    requires Creators(cs) && forall i :: 0 <= i < |cs| ==> Of(cs[i].permits, k) == 0
    ensures AllOpen(cs, k) == 0
  {
    if cs != [] {
      NothingOpen(cs[..|cs| - 1], k);
    }
  }

  /** Some run has more channels open than the maximum, exactly when a permit of the kind can be granted at
      all; by `OpenChannelsBounded` every such run contains a second call of `shutdown`. */
  lemma OverrunExactly(cfg: Config, k: Kind)
    ensures (exists es :: Possible(cfg, New(cfg), es) && AllOpen(Run(cfg, New(cfg), es).creators, k) > Of(cfg.max, k))
            <==> Fits(OneOf(k), cfg.max)
  {
    if Fits(OneOf(k), cfg.max) {
      var es := SecondShutdownOverruns(cfg, k, Of(cfg.max, k) + 1);
      assert Possible(cfg, New(cfg), es);
    } else {
      forall es | Possible(cfg, New(cfg), es) ensures AllOpen(Run(cfg, New(cfg), es).creators, k) == 0 {
        AskableRun(cfg, New(cfg), es);
        RunInv(cfg, New(cfg), es);
        NothingOpen(Run(cfg, New(cfg), es).creators, k);
      }
    }
  }

  // ---------------------------------------------------------------- a shutdown reported too early

  /** The state in which the bulk shutdown finds one creator, shut down by its caller with an open channel. */
  function OneShut(cfg: Config, k: Kind): (s: State)
    requires Fits(OneOf(k), cfg.max)
  {
    New(cfg).(avail := Less(cfg.max, OneOf(k)), creators := [Shut(Opening(k))], shutdown := true, phase := Flagged)
  }

  lemma CallerThenBulk(cfg: Config, k: Kind) returns (es: seq<Event>)
    requires Fits(OneOf(k), cfg.max)
    ensures Comes(cfg, es, OneShut(cfg, k)) && Shutdowns(es) == 1
  {
    var c := Opening(k);
    var t := New(cfg).(avail := Less(cfg.max, OneOf(k)));
    es := ReserveAndOpen(cfg, [], New(cfg), k);
    assert [] + [c] == [c] && [c][0 := Shut(c)] == [Shut(c)];
    es := Longer(cfg, es, t.(creators := [c]), ShutdownCreator(0), t.(creators := [Shut(c)]));
    es := Longer(cfg, es, t.(creators := [Shut(c)]), BulkShutdown, OneShut(cfg, k));
  }

  /** The creator once the bulk shutdown has called it again. */
  function Again(k: Kind, stage: Listeners): (c: Creator) {
    Shut(Opening(k)).(subscribed := true, done := true, again := true, stage := stage)
  }

  lemma BulkListens(cfg: Config, k: Kind) returns (es: seq<Event>)
    requires Fits(OneOf(k), cfg.max)
    ensures Comes(cfg, es, OneShut(cfg, k).(phase := Closing([]), size := 1, creators := [Again(k, NoneRun)])) && Shutdowns(es) == 1
  {
    var s := OneShut(cfg, k);
    var s1 := s.(phase := Closing([0]), size := 1);
    es := CallerThenBulk(cfg, k);
    assert ListedIndices(s.creators, 0) == [] && ListedIndices(s.creators, 1) == [0];
    es := Longer(cfg, es, s, CopyList, s1);
    var todo: seq<nat> := [0];
    assert s1.phase.todo == todo && todo[1..] == [];
    assert s1.creators[0 := Again(k, NoneRun)] == [Again(k, NoneRun)];
    es := Longer(cfg, es, s1, Subscribe, s1.(phase := Closing([]), creators := [Again(k, NoneRun)]));
  }

  lemma ListenersRun(cfg: Config, k: Kind) returns (es: seq<Event>)
    requires Fits(OneOf(k), cfg.max)
    ensures Comes(cfg, es, OneShut(cfg, k).(avail := cfg.max, phase := Closing([]), size := 1, counter := 1, creators := [Again(k, Counted)]))
    ensures Shutdowns(es) == 1
  {
    var s := OneShut(cfg, k).(phase := Closing([]), size := 1, creators := [Again(k, NoneRun)]);
    es := BulkListens(cfg, k);
    var s1 := s.(avail := cfg.max, creators := [Again(k, Released)]);
    assert Plus(Less(cfg.max, OneOf(k)), OneOf(k)) == cfg.max;
    es := Longer(cfg, es, s, RunRelease(0), s1);
    var s2 := s1.(creators := [Again(k, Unlisted)]);
    es := Longer(cfg, es, s1, RunUnlist(0), s2);
    es := Longer(cfg, es, s2, RunCounter(0), s2.(counter := 1, creators := [Again(k, Counted)]));
  }

  /** One call of `shutdown` by the caller, followed by the bulk shutdown's own: the reservation reports that
      it is shut down while the caller's channel is still open. */
  lemma ShutdownReportedEarly(cfg: Config, k: Kind) returns (es: seq<Event>)
    requires Fits(OneOf(k), cfg.max)
    ensures Possible(cfg, New(cfg), es) && CalledOnce(es)
    ensures Run(cfg, New(cfg), es).outcome == DoneOk && AllOpen(Run(cfg, New(cfg), es).creators, k) == 1
  {
    var c := Again(k, Counted);
    var s := OneShut(cfg, k).(avail := cfg.max, phase := Closing([]), size := 1, counter := 1, creators := [c]);
    var s1 := s.(avail := Permits(0, cfg.max.tcp), taken := Permits(cfg.max.udp, 0));
    es := ListenersRun(cfg, k);
    es := Longer(cfg, es, s, TakeUdp, s1);
    es := Longer(cfg, es, s1, TakeTcp, s1.(avail := Permits(0, 0), taken := cfg.max, outcome := DoneOk));
    AtMostOneCall(es);
    assert [c][..0] == [];
  }
}
