/** How many channels can be open at once, and what a finished shutdown says about them. */
module OpenChannels {
  import opened Reservation

  /** Channels of creators whose `shutdown` was called at most once. */
  function OpenOnce(cs: seq<Creator>, k: Kind): (n: nat) {
    if cs == [] then 0
    else OpenOnce(cs[..|cs| - 1], k) + if cs[|cs| - 1].again then 0 else Of(cs[|cs| - 1].open, k)
  }

  lemma {:induction false} OpenBelowHeld(cs: seq<Creator>, k: Kind)
    requires Creators(cs)
    ensures OpenOnce(cs, k) <= Held(cs, k)
  {
    if cs != [] {
      OpenBelowHeld(cs[..|cs| - 1], k);
    }
  }

  /** In any run whatsoever, the channels of creators shut down at most once stay within the maximum. */
  lemma OpenOnceBounded(cfg: Config, es: seq<Event>, k: Kind)
    requires Possible(cfg, New(cfg), es)
    ensures OpenOnce(Run(cfg, New(cfg), es).creators, k) <= Of(cfg.max, k)
  {
    RunInv(cfg, New(cfg), es);
    OpenBelowHeld(Run(cfg, New(cfg), es).creators, k);
  }

  function AllOpen(cs: seq<Creator>, k: Kind): (n: nat) {
    if cs == [] then 0 else AllOpen(cs[..|cs| - 1], k) + Of(cs[|cs| - 1].open, k)
  }

  /** The blocks of the creators that have not got all their own permits back. */
  function Undrained(cs: seq<Creator>, k: Kind): (n: nat) {
    if cs == [] then 0 else Undrained(cs[..|cs| - 1], k) + Block(cs[|cs| - 1], k)
  }

  function Block(c: Creator, k: Kind): (n: nat) {
    if c.drained then 0 else Of(c.permits, k)
  }

  lemma {:induction false} OpenBelowUndrained(cs: seq<Creator>, k: Kind)
    requires Creators(cs)
    ensures AllOpen(cs, k) <= Undrained(cs, k)
  {
    if cs != [] {
      OpenBelowUndrained(cs[..|cs| - 1], k);
    }
  }

  lemma {:induction false} UndrainedBelowHeld(cs: seq<Creator>, k: Kind)
    requires Creators(cs) && forall i :: 0 <= i < |cs| ==> !cs[i].again
    ensures Undrained(cs, k) <= Held(cs, k)
  {
    if cs != [] {
      UndrainedBelowHeld(cs[..|cs| - 1], k);
    }
  }

  lemma {:induction false} UndrainedUpdate(cs: seq<Creator>, i: nat, c: Creator, k: Kind)
    requires i < |cs|
    ensures Undrained(cs[i := c], k) == Undrained(cs, k) - Block(cs[i], k) + Block(c, k)
  {
    var n := |cs| - 1;
    if i == n {
      assert cs[i := c][..n] == cs[..n];
    } else {
      assert cs[i := c][..n] == cs[..n][i := c];
      UndrainedUpdate(cs[..n], i, c, k);
    }
  }

  predicate BulkBefore(es: seq<Event>, n: nat)
    requires n <= |es|
  {
    exists b :: 0 <= b < n && es[b].BulkShutdown?
  }

  predicate ShutBefore(es: seq<Event>, n: nat, i: nat)
    requires n <= |es|
  {
    exists a :: 0 <= a < n && es[a] == ShutdownCreator(i)
  }

  /** Nobody calls `shutdown` on a creator a second time before the bulk shutdown begins. */
  predicate CalledOnce(es: seq<Event>) {
    forall n {:trigger es[n]} :: 0 <= n < |es| && es[n].ShutdownCreator? && ShutBefore(es, n, es[n].who) ==> BulkBefore(es, n)
  }

  lemma {:induction false} Prefix(cfg: Config, s: State, es: seq<Event>, n: nat)
    requires Possible(cfg, s, es) && n < |es|
    ensures Possible(cfg, s, es[..n]) && Enabled(Run(cfg, s, es[..n]), es[n])
    ensures Possible(cfg, s, es[..n + 1]) && Run(cfg, s, es[..n + 1]) == Apply(cfg, Run(cfg, s, es[..n]), es[n])
    decreases n
  {
    if n > 0 {
      Prefix(cfg, Apply(cfg, s, es[0]), es[1..], n - 1);
      assert es[..n][1..] == es[1..][..n - 1] && es[..n + 1][1..] == es[1..][..n];
    } else {
      assert es[..1][1..] == [];
    }
  }

  /** Before the bulk shutdown no creator has been shut down twice, or without a call; the blocks of
      undrained creators fit into the maximum at all times. */
  ghost predicate Tracked(cfg: Config, es: seq<Event>, n: nat, s: State)
    requires n <= |es|
  {
    (s.shutdown <==> BulkBefore(es, n)) &&
    (!s.shutdown ==> Calls(es, n, s.creators)) &&
    Undrained(s.creators, Udp) <= cfg.max.udp && Undrained(s.creators, Tcp) <= cfg.max.tcp
  }

  /** One step replaces at most one creator, which keeps its block and stays drained if it was, unless it
      grants a reservation. */
  lemma OneCreator(cfg: Config, s: State, e: Event) returns (i: nat)
    requires Enabled(s, e) && !e.AcquireTcp?
    ensures var s' := Apply(cfg, s, e);
            s'.creators == s.creators ||
            (i < |s.creators| && |s'.creators| == |s.creators| && s'.creators == s.creators[i := s'.creators[i]] &&
             s'.creators[i].permits == s.creators[i].permits && (s.creators[i].drained ==> s'.creators[i].drained))
  {
    if e.Subscribe? {
      i := s.phase.todo[0];
    } else if e.OpenChannel? || e.CloseChannel? || e.ShutdownCreator? || e.DrainCreator? || e.RunRelease? || e.RunUnlist? || e.RunCounter? {
      i := e.who;
    } else {
      i := 0;
    }
  }

  lemma UndrainedStep(cfg: Config, s: State, e: Event, k: Kind)
    requires Enabled(s, e) && !e.AcquireTcp?
    ensures Undrained(Apply(cfg, s, e).creators, k) <= Undrained(s.creators, k)
  {
    var s' := Apply(cfg, s, e);
    var i := OneCreator(cfg, s, e);
    if s'.creators != s.creators {
      UndrainedUpdate(s.creators, i, s'.creators[i], k);
    }
  }

  lemma MoreBefore(es: seq<Event>, n: nat)
    requires n < |es|
    ensures BulkBefore(es, n + 1) <==> BulkBefore(es, n) || es[n].BulkShutdown?
    ensures forall i :: ShutBefore(es, n, i) ==> ShutBefore(es, n + 1, i)
    ensures es[n].ShutdownCreator? ==> ShutBefore(es, n + 1, es[n].who)
  {
  }

  /** No creator is shut down twice, or without a call. */
  ghost predicate Calls(es: seq<Event>, n: nat, cs: seq<Creator>)
    requires n <= |es|
  {
    forall i {:trigger cs[i]} :: 0 <= i < |cs| ==> !cs[i].again && (cs[i].shut ==> ShutBefore(es, n, i))
  }

  lemma CallsStep(cfg: Config, es: seq<Event>, n: nat, s: State)
    requires n < |es| && CalledOnce(es) && Enabled(s, es[n]) && Control(cfg, s)
    requires Calls(es, n, s.creators) && !s.shutdown && !BulkBefore(es, n)
    ensures Calls(es, n + 1, Apply(cfg, s, es[n]).creators)
  {
    var e := es[n];
    var cs, cs' := s.creators, Apply(cfg, s, e).creators;
    MoreBefore(es, n);
    if !e.AcquireTcp? {
      var j := OneCreator(cfg, s, e);
      forall i | 0 <= i < |cs'| ensures !cs'[i].again && (cs'[i].shut ==> ShutBefore(es, n + 1, i)) {
        assert !cs[i].again;
      }
    }
  }

  lemma TrackedStep(cfg: Config, es: seq<Event>, n: nat, s: State)
    requires n < |es| && CalledOnce(es) && Inv(cfg, s) && Tracked(cfg, es, n, s) && Enabled(s, es[n])
    ensures Tracked(cfg, es, n + 1, Apply(cfg, s, es[n]))
  {
    var e := es[n];
    var s' := Apply(cfg, s, e);
    MoreBefore(es, n);
    StepInv(cfg, s, e);
    if !s'.shutdown {
      CallsStep(cfg, es, n, s);
      UndrainedBelowHeld(s'.creators, Udp);
      UndrainedBelowHeld(s'.creators, Tcp);
    } else if s.shutdown {
      UndrainedStep(cfg, s, e, Udp);
      UndrainedStep(cfg, s, e, Tcp);
    }
  }

  lemma {:induction false} TrackedRun(cfg: Config, es: seq<Event>, n: nat)
    requires Possible(cfg, New(cfg), es) && CalledOnce(es) && n <= |es|
    ensures Possible(cfg, New(cfg), es[..n])
    ensures Inv(cfg, Run(cfg, New(cfg), es[..n])) && Tracked(cfg, es, n, Run(cfg, New(cfg), es[..n]))
  {
    if n == 0 {
      assert es[..0] == [];
    } else {
      TrackedRun(cfg, es, n - 1);
      Prefix(cfg, New(cfg), es, n - 1);
      var s := Run(cfg, New(cfg), es[..n - 1]);
      TrackedStep(cfg, es, n - 1, s);
      StepInv(cfg, s, es[n - 1]);
    }
  }

  /** In every run in which nobody calls `shutdown` on a creator a second time before the bulk shutdown, the
      channels open over all creators never exceed the maximum. */
  lemma OpenChannelsBounded(cfg: Config, es: seq<Event>, k: Kind)
    requires Possible(cfg, New(cfg), es) && CalledOnce(es)
    ensures AllOpen(Run(cfg, New(cfg), es).creators, k) <= Of(cfg.max, k)
  {
    TrackedRun(cfg, es, |es|);
    assert es[..|es|] == es;
    OpenBelowUndrained(Run(cfg, New(cfg), es).creators, k);
  }
}
