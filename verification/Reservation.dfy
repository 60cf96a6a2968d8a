/** The two-level connection permits: the bulk reservation hands blocks of permits to channel
    creators, a creator spends its block on channels and gives it back when its shutdown future
    completes.

    Every event is one step of one thread: a lock-protected section, one
    semaphore operation, or one call of a future listener.  Any enabled event may
    happen next. */
module Reservation {

  datatype Kind = Udp | Tcp

  datatype Permits = Permits(udp: nat, tcp: nat)

  function Of(p: Permits, k: Kind): (n: nat) {
    if k == Udp then p.udp else p.tcp
  }

  /** Which listeners of a creator's shutdown future have run, in registration order. */
  datatype Listeners = NoneRun | Released | Unlisted | Counted

  datatype Creator = Creator(
    permits: Permits,     // size of its own two semaphores
    open: Permits,        // channels open, that is, own permits taken
    shut: bool,           // shutdownUDP and shutdownTCP
    again: bool,          // shutdown() has been called a second time
    drained: bool,        // the close callback has taken all its own permits
    done: bool,           // the shutdown future is completed
    stage: Listeners,
    subscribed: bool)     // the bulk shutdown registered its counter before completion

  datatype Stage = WaitUdp | WaitTcp

  datatype Pending = Idle | Waiting(permits: Permits, stage: Stage)

  datatype Phase = Open | Flagged | Closing(todo: seq<nat>) | Empty

  datatype Outcome = Undecided | DoneOk | DoneFailed

  datatype Config = Config(max: Permits)

  datatype State = State(
    avail: Permits,
    creators: seq<Creator>,
    queue: seq<Permits>,
    pending: Pending,
    shutdown: bool,
    phase: Phase,
    size: nat,
    counter: nat,
    taken: Permits,       // acquired by the bulk shutdown itself
    lost: Permits,        // acquired for a creator that could not be built
    outcome: Outcome)

  datatype Event =
    | Create(unadjusted: nat, tcp: nat)
    | StartReservation
    | AcquireUdp
    | AcquireTcp(known: bool)  // whether a local address to send from is found at this moment
    | Interrupt
    | OpenChannel(who: nat, kind: Kind)
    | CloseChannel(who: nat, kind: Kind)
    | ShutdownCreator(who: nat)
    | DrainCreator(who: nat)
    | RunRelease(who: nat)
    | RunUnlist(who: nat)
    | RunCounter(who: nat)
    | BulkShutdown
    | DropQueue
    | CopyList
    | Subscribe
    | TakeUdp
    | TakeTcp

  function New(cfg: Config): (s: State) {
    State(cfg.max, [], [], Idle, false, Open, 0, 0, Permits(0, 0), Permits(0, 0), Undecided)
  }

  function Adjusted(unadjusted: nat, tcp: nat): (p: Permits) {
    Permits(unadjusted + tcp * 3, tcp)
  }

  predicate Fits(p: Permits, max: Permits) {
    p.udp <= max.udp && p.tcp <= max.tcp
  }

  function Bump(p: Permits, k: Kind): (r: Permits) {
    if k == Udp then p.(udp := p.udp + 1) else p.(tcp := p.tcp + 1)
  }

  function Drop(p: Permits, k: Kind): (r: Permits)
    requires Of(p, k) > 0
  {
    if k == Udp then p.(udp := p.udp - 1) else p.(tcp := p.tcp - 1)
  }

  function Plus(p: Permits, q: Permits): (r: Permits) {
    Permits(p.udp + q.udp, p.tcp + q.tcp)
  }

  function Decide(o: Outcome, r: Outcome): (o': Outcome) {
    if o == Undecided then r else o
  }

  function WithCreator(s: State, i: nat, c: Creator): (r: State)
    requires i < |s.creators|
  {
    s.(creators := s.creators[i := c])
  }

  function FreshCreator(p: Permits): (c: Creator) {
    Creator(p, Permits(0, 0), false, false, false, false, NoneRun, false)
  }

  /** `createUDP` and `createTCP`: nothing happens after a shutdown or without a permit. */
  function Opened(c: Creator, k: Kind): (r: Creator) {
    if c.shut || Of(c.open, k) >= Of(c.permits, k) then c else c.(open := Bump(c.open, k))
  }

  /** The close listener of a channel gives its permit back. */
  function Closed(c: Creator, k: Kind): (r: Creator)
    requires Of(c.open, k) > 0
  {
    c.(open := Drop(c.open, k))
  }

  /** `ChannelCreator.shutdown`: the second call completes the future at once. */
  function Shut(c: Creator): (r: Creator) {
    if c.shut then c.(done := true, again := true) else c.(shut := true)
  }

  /** Whether creator `i` is still in the reservation's list. */
  predicate Listed(c: Creator) {
    c.stage == NoneRun || c.stage == Released
  }

  function ListedIndices(cs: seq<Creator>, n: nat): (r: seq<nat>)
    requires n <= |cs|
    ensures forall k :: 0 <= k < |r| ==> r[k] < n
    ensures r == [] ==> forall k :: 0 <= k < n ==> !Listed(cs[k])
  {
    if n == 0 then []
    else ListedIndices(cs, n - 1) + if Listed(cs[n - 1]) then [n - 1] else []
  }

  predicate Enabled(s: State, e: Event) {
    match e
    case Create(_, _) => true
    case StartReservation => s.pending == Idle && s.queue != []
    case AcquireUdp => s.pending.Waiting? && s.pending.stage == WaitUdp && s.avail.udp >= s.pending.permits.udp
    case AcquireTcp(_) => s.pending.Waiting? && s.pending.stage == WaitTcp && s.avail.tcp >= s.pending.permits.tcp
    case Interrupt => s.pending.Waiting?
    case OpenChannel(i, _) => i < |s.creators|
    case CloseChannel(i, k) => i < |s.creators| && Of(s.creators[i].open, k) > 0
    case ShutdownCreator(i) => i < |s.creators|
    case DrainCreator(i) =>
      i < |s.creators| && s.creators[i].shut && !s.creators[i].drained && s.creators[i].open == Permits(0, 0)
    case RunRelease(i) => i < |s.creators| && s.creators[i].done && s.creators[i].stage == NoneRun
    case RunUnlist(i) => i < |s.creators| && s.creators[i].stage == Released
    case RunCounter(i) => i < |s.creators| && s.creators[i].stage == Unlisted && s.creators[i].subscribed
    case BulkShutdown => s.pending == Idle  // the write lock waits for the reservation in progress
    case DropQueue => s.shutdown
    case CopyList => s.phase == Flagged
    case Subscribe => s.phase.Closing? && s.phase.todo != [] && s.phase.todo[0] < |s.creators|
    case TakeUdp => s.size > 0 && s.counter == s.size && s.taken == Permits(0, 0) && s.shutdown
    case TakeTcp => s.size > 0 && s.counter == s.size && s.taken.tcp == 0 && s.shutdown
  }

  function Apply(cfg: Config, s: State, e: Event): (r: State)
    requires Enabled(s, e)
  {
    match e
    case Create(unadjusted, tcp) =>
      if !Fits(Adjusted(unadjusted, tcp), cfg.max) || s.shutdown then s
      else s.(queue := s.queue + [Adjusted(unadjusted, tcp)])
    case StartReservation =>
      if s.shutdown then s.(queue := s.queue[1..])
      else s.(queue := s.queue[1..], pending := Waiting(s.queue[0], WaitUdp))
    case AcquireUdp =>
      s.(avail := Permits(s.avail.udp - s.pending.permits.udp, s.avail.tcp), pending := s.pending.(stage := WaitTcp))
    case AcquireTcp(known) =>
      var s1 := s.(avail := Permits(s.avail.udp, s.avail.tcp - s.pending.permits.tcp), pending := Idle);
      if known then s1.(creators := s.creators + [FreshCreator(s.pending.permits)])
      else s1.(lost := Plus(s.lost, s.pending.permits))
    case Interrupt =>
      if s.pending.stage == WaitUdp then s.(pending := Idle)
      else s.(avail := Permits(s.avail.udp + s.pending.permits.udp, s.avail.tcp), pending := Idle)
    case OpenChannel(i, k) => WithCreator(s, i, Opened(s.creators[i], k))
    case CloseChannel(i, k) => WithCreator(s, i, Closed(s.creators[i], k))
    case ShutdownCreator(i) => WithCreator(s, i, Shut(s.creators[i]))
    case DrainCreator(i) => WithCreator(s, i, s.creators[i].(drained := true, done := true))
    case RunRelease(i) =>
      WithCreator(s, i, s.creators[i].(stage := Released)).(avail := Plus(s.avail, s.creators[i].permits))
    case RunUnlist(i) => WithCreator(s, i, s.creators[i].(stage := Unlisted))
    case RunCounter(i) => WithCreator(s, i, s.creators[i].(stage := Counted)).(counter := s.counter + 1)
    case BulkShutdown =>
      if s.shutdown then s.(outcome := Decide(s.outcome, DoneFailed)) else s.(shutdown := true, phase := Flagged)
    case DropQueue => s.(queue := [])
    case CopyList =>
      var copy := ListedIndices(s.creators, |s.creators|);
      if copy == [] then s.(phase := Empty, outcome := Decide(s.outcome, DoneOk))
      else s.(phase := Closing(copy), size := |copy|)
    case Subscribe =>
      var i := s.phase.todo[0];
      var c := s.creators[i];
      // a completed future calls the listener at once
      var s1 := s.(phase := Closing(s.phase.todo[1..]), counter := if c.done then s.counter + 1 else s.counter);
      WithCreator(s1, i, Shut(c.(subscribed := c.subscribed || !c.done)))
    case TakeUdp =>
      if s.avail.udp >= cfg.max.udp then s.(avail := Permits(s.avail.udp - cfg.max.udp, s.avail.tcp), taken := Permits(cfg.max.udp, 0))
      else s
    case TakeTcp =>
      if s.taken.udp == cfg.max.udp && s.avail.tcp >= cfg.max.tcp then
        s.(avail := Permits(s.avail.udp, s.avail.tcp - cfg.max.tcp), taken := cfg.max, outcome := Decide(s.outcome, DoneOk))
      else s
  }

  ghost predicate Possible(cfg: Config, s: State, es: seq<Event>)
    decreases |es|
  {
    es == [] || (Enabled(s, es[0]) && Possible(cfg, Apply(cfg, s, es[0]), es[1..]))
  }

  function Run(cfg: Config, s: State, es: seq<Event>): (r: State)
    requires Possible(cfg, s, es)
    decreases |es|
  {
    if es == [] then s else Run(cfg, Apply(cfg, s, es[0]), es[1..])
  }

  // ---------------------------------------------------------------- who holds what

  /** Permits a creator has not given back. */
  function Holds(c: Creator, k: Kind): (n: nat) {
    if c.stage == NoneRun then Of(c.permits, k) else 0
  }

  function Held(cs: seq<Creator>, k: Kind): (n: nat) {
    if cs == [] then 0 else Held(cs[..|cs| - 1], k) + Holds(cs[|cs| - 1], k)
  }

  function PendingHolds(p: Pending, k: Kind): (n: nat) {
    if p.Waiting? && p.stage == WaitTcp && k == Udp then p.permits.udp else 0
  }

  lemma {:induction false} HeldUpdate(cs: seq<Creator>, i: nat, c: Creator, k: Kind)
    requires i < |cs|
    ensures Held(cs[i := c], k) == Held(cs, k) - Holds(cs[i], k) + Holds(c, k)
  {
    var n := |cs| - 1;
    if i == n {
      assert cs[i := c][..n] == cs[..n];
    } else {
      assert cs[i := c][..n] == cs[..n][i := c];
      HeldUpdate(cs[..n], i, c, k);
    }
  }

  lemma HeldAppend(cs: seq<Creator>, c: Creator, k: Kind)
    ensures Held(cs + [c], k) == Held(cs, k) + Holds(c, k)
  {
    assert (cs + [c])[..|cs|] == cs;
  }

  lemma {:induction false} HeldPositive(cs: seq<Creator>, k: Kind)
    requires Held(cs, k) > 0
    ensures exists i :: 0 <= i < |cs| && Holds(cs[i], k) > 0
  {
    var n := |cs| - 1;
    if Holds(cs[n], k) == 0 {
      HeldPositive(cs[..n], k);
      var i :| 0 <= i < |cs[..n]| && Holds(cs[..n][i], k) > 0;
      assert Holds(cs[i], k) > 0;
    }
  }

  lemma {:induction false} HeldNone(cs: seq<Creator>, k: Kind)
    requires forall i :: 0 <= i < |cs| ==> cs[i].stage != NoneRun
    ensures Held(cs, k) == 0
  {
    if cs != [] {
      HeldNone(cs[..|cs| - 1], k);
    }
  }

  /** Every permit is accounted for. */
  ghost predicate Conserved(cfg: Config, s: State, k: Kind) {
    Of(s.avail, k) + Held(s.creators, k) + PendingHolds(s.pending, k) + Of(s.taken, k) + Of(s.lost, k) == Of(cfg.max, k)
  }

  ghost predicate CreatorOk(c: Creator) {
    c.open.udp <= c.permits.udp && c.open.tcp <= c.permits.tcp &&
    (c.drained || c.again ==> c.shut) &&
    (c.drained ==> c.open == Permits(0, 0)) &&
    (c.done ==> c.drained || c.again) &&
    (c.stage != NoneRun ==> c.done)
  }

  ghost predicate Control(cfg: Config, s: State) {
    (forall j :: 0 <= j < |s.queue| ==> Fits(s.queue[j], cfg.max)) &&
    (s.pending.Waiting? ==> Fits(s.pending.permits, cfg.max) && !s.shutdown) &&
    (s.shutdown <==> s.phase != Open) &&
    (!s.shutdown ==> s.taken == Permits(0, 0) && s.outcome == Undecided) &&
    (s.outcome == DoneOk ==> Held(s.creators, Udp) == 0 && Held(s.creators, Tcp) == 0)
  }

  ghost predicate Creators(cs: seq<Creator>) {
    forall i :: 0 <= i < |cs| ==> CreatorOk(cs[i])
  }

  ghost predicate Inv(cfg: Config, s: State) {
    Conserved(cfg, s, Udp) && Conserved(cfg, s, Tcp) && Creators(s.creators) && Control(cfg, s)
  }

  /** Replacing a creator by one that holds the same changes no account. */
  lemma SameHolding(cfg: Config, s: State, i: nat, c: Creator, s': State)
    requires Inv(cfg, s) && i < |s.creators| && CreatorOk(c)
    requires c.permits == s.creators[i].permits && (c.stage == NoneRun <==> s.creators[i].stage == NoneRun)
    requires s' == WithCreator(s, i, c)
    ensures Inv(cfg, s')
  {
    HeldUpdate(s.creators, i, c, Udp);
    HeldUpdate(s.creators, i, c, Tcp);
  }

  lemma ReleaseStep(cfg: Config, s: State, i: nat)
    requires Inv(cfg, s) && Enabled(s, RunRelease(i))
    ensures Inv(cfg, Apply(cfg, s, RunRelease(i)))
  {
    var c := s.creators[i].(stage := Released);
    HeldUpdate(s.creators, i, c, Udp);
    HeldUpdate(s.creators, i, c, Tcp);
  }

  lemma QueueStep(cfg: Config, s: State, e: Event)
    requires Inv(cfg, s) && Enabled(s, e) && (e.Create? || e.StartReservation? || e.DropQueue? || e.BulkShutdown?)
    ensures Inv(cfg, Apply(cfg, s, e))
  {
  }

  lemma WaitStep(cfg: Config, s: State, e: Event)
    requires Inv(cfg, s) && Enabled(s, e) && (e.AcquireUdp? || e.Interrupt?)
    ensures Inv(cfg, Apply(cfg, s, e))
  {
  }

  /** Adding a creator that takes over the block in progress. */
  lemma GrantKnown(cfg: Config, s: State, k: Kind)
    requires Conserved(cfg, s, k) && Enabled(s, AcquireTcp(true))
    ensures Conserved(cfg, Apply(cfg, s, AcquireTcp(true)), k)
  {
    HeldAppend(s.creators, FreshCreator(s.pending.permits), k);
  }

  lemma GrantUnknown(cfg: Config, s: State, k: Kind)
    requires Conserved(cfg, s, k) && Enabled(s, AcquireTcp(false))
    ensures Conserved(cfg, Apply(cfg, s, AcquireTcp(false)), k)
  {
  }

  lemma CreatorsAppend(cs: seq<Creator>, p: Permits)
    requires Creators(cs)
    ensures Creators(cs + [FreshCreator(p)])
  {
  }

  lemma GrantStep(cfg: Config, s: State, known: bool)
    requires Inv(cfg, s) && Enabled(s, AcquireTcp(known))
    ensures Inv(cfg, Apply(cfg, s, AcquireTcp(known)))
  {
    CreatorsAppend(s.creators, s.pending.permits);
    if known {
      GrantKnown(cfg, s, Udp);
      GrantKnown(cfg, s, Tcp);
    } else {
      GrantUnknown(cfg, s, Udp);
      GrantUnknown(cfg, s, Tcp);
    }
  }

  lemma CreatorStep(cfg: Config, s: State, e: Event)
    requires Inv(cfg, s) && Enabled(s, e)
    requires e.OpenChannel? || e.CloseChannel? || e.ShutdownCreator? || e.DrainCreator? || e.RunUnlist?
    ensures Inv(cfg, Apply(cfg, s, e))
  {
    var s' := Apply(cfg, s, e);
    var i := e.who;
    assert CreatorOk(s.creators[i]);
    SameHolding(cfg, s, i, s'.creators[i], s');
  }

  lemma ClosingStep(cfg: Config, s: State, e: Event)
    requires Inv(cfg, s) && Enabled(s, e) && (e.RunCounter? || e.Subscribe?)
    ensures Inv(cfg, Apply(cfg, s, e))
  {
    var s' := Apply(cfg, s, e);
    var i := if e.RunCounter? then e.who else s.phase.todo[0];
    assert CreatorOk(s.creators[i]);
    var c := s'.creators[i];
    SameHolding(cfg, s, i, c, WithCreator(s, i, c));
  }

  lemma FinishStep(cfg: Config, s: State, e: Event)
    requires Inv(cfg, s) && Enabled(s, e) && (e.CopyList? || e.TakeUdp? || e.TakeTcp?)
    ensures Inv(cfg, Apply(cfg, s, e))
  {
    if e.CopyList? && ListedIndices(s.creators, |s.creators|) == [] {
      HeldNone(s.creators, Udp);
      HeldNone(s.creators, Tcp);
    }
  }

  lemma StepInv(cfg: Config, s: State, e: Event)
    requires Inv(cfg, s) && Enabled(s, e)
    ensures Inv(cfg, Apply(cfg, s, e))
  {
    match e
    case RunRelease(i) => ReleaseStep(cfg, s, i);
    case OpenChannel(_, _) => CreatorStep(cfg, s, e);
    case CloseChannel(_, _) => CreatorStep(cfg, s, e);
    case ShutdownCreator(_) => CreatorStep(cfg, s, e);
    case DrainCreator(_) => CreatorStep(cfg, s, e);
    case RunUnlist(_) => CreatorStep(cfg, s, e);
    case RunCounter(_) => ClosingStep(cfg, s, e);
    case Subscribe => ClosingStep(cfg, s, e);
    case CopyList => FinishStep(cfg, s, e);
    case TakeUdp => FinishStep(cfg, s, e);
    case TakeTcp => FinishStep(cfg, s, e);
    case AcquireTcp(known) => GrantStep(cfg, s, known);
    case AcquireUdp => WaitStep(cfg, s, e);
    case Interrupt => WaitStep(cfg, s, e);
    case _ => QueueStep(cfg, s, e);
  }

  lemma {:induction false} RunInv(cfg: Config, s: State, es: seq<Event>)
    requires Inv(cfg, s) && Possible(cfg, s, es)
    ensures Inv(cfg, Run(cfg, s, es))
    decreases |es|
  {
    if es != [] {
      StepInv(cfg, s, es[0]);
      RunInv(cfg, Apply(cfg, s, es[0]), es[1..]);
    }
  }

  // ---------------------------------------------------------------- where permits get lost

  /** The blocks granted while no local address to send from could be found. */
  function Unsourced(cfg: Config, s: State, es: seq<Event>): (p: Permits)
    requires Possible(cfg, s, es)
    decreases |es|
  {
    if es == [] then Permits(0, 0)
    else Plus(LostBy(s, es[0]), Unsourced(cfg, Apply(cfg, s, es[0]), es[1..]))
  }

  lemma {:induction false} LostIsUnsourced(cfg: Config, s: State, es: seq<Event>)
    requires Possible(cfg, s, es)
    ensures Run(cfg, s, es).lost == Plus(s.lost, Unsourced(cfg, s, es))
    decreases |es|
  {
    if es != [] {
      LostStep(cfg, s, es[0]);
      LostIsUnsourced(cfg, Apply(cfg, s, es[0]), es[1..]);
      PlusAssociates(s.lost, LostBy(s, es[0]), Unsourced(cfg, Apply(cfg, s, es[0]), es[1..]));
    }
  }

  /** What one event loses. */
  function LostBy(s: State, e: Event): (p: Permits)
    requires Enabled(s, e)
  {
    if e == AcquireTcp(false) then s.pending.permits else Permits(0, 0)
  }

  lemma LostStep(cfg: Config, s: State, e: Event)
    requires Enabled(s, e)
    ensures Apply(cfg, s, e).lost == Plus(s.lost, LostBy(s, e))
  {
  }

  lemma PlusAssociates(p: Permits, q: Permits, r: Permits)
    ensures Plus(Plus(p, q), r) == Plus(p, Plus(q, r))
  {
  }

  /** An address was found at every grant. */
  predicate AlwaysKnown(es: seq<Event>) {
    forall i :: 0 <= i < |es| ==> es[i] != AcquireTcp(false)
  }

  /** An address was found at no grant. */
  predicate NeverKnown(es: seq<Event>) {
    forall i :: 0 <= i < |es| ==> es[i] != AcquireTcp(true)
  }

  lemma {:induction false} AlwaysKnownLosesNothing(cfg: Config, s: State, es: seq<Event>)
    requires Possible(cfg, s, es) && AlwaysKnown(es)
    ensures Unsourced(cfg, s, es) == Permits(0, 0)
    decreases |es|
  {
    if es != [] {
      AlwaysKnownLosesNothing(cfg, Apply(cfg, s, es[0]), es[1..]);
    }
  }

  lemma {:induction false} NeverKnownBuildsNothing(cfg: Config, s: State, es: seq<Event>)
    requires Possible(cfg, s, es) && NeverKnown(es) && s.creators == []
    ensures Run(cfg, s, es).creators == []
    decreases |es|
  {
    if es != [] {
      assert es[0] != AcquireTcp(true);
      NeverKnownBuildsNothing(cfg, Apply(cfg, s, es[0]), es[1..]);
    }
  }

  // ---------------------------------------------------------------- theorems

  /** In every interleaving no permit is duplicated, and the only ones lost are the blocks granted while no
      local address could be found. */
  lemma PermitConservation(cfg: Config, es: seq<Event>, k: Kind)
    requires Possible(cfg, New(cfg), es)
    ensures var s := Run(cfg, New(cfg), es);
            Of(s.avail, k) + Held(s.creators, k) + PendingHolds(s.pending, k) + Of(s.taken, k) + Of(s.lost, k) == Of(cfg.max, k) &&
            s.lost == Unsourced(cfg, New(cfg), es) &&
            (AlwaysKnown(es) ==> s.lost == Permits(0, 0))
  {
    RunInv(cfg, New(cfg), es);
    LostInRun(cfg, New(cfg), es);
  }

  lemma LostInRun(cfg: Config, s: State, es: seq<Event>)
    requires Possible(cfg, s, es) && s.lost == Permits(0, 0)
    ensures Run(cfg, s, es).lost == Unsourced(cfg, s, es)
    ensures AlwaysKnown(es) ==> Unsourced(cfg, s, es) == Permits(0, 0)
  {
    LostIsUnsourced(cfg, s, es);
    PlusZero(Unsourced(cfg, s, es));
    if AlwaysKnown(es) {
      AlwaysKnownLosesNothing(cfg, s, es);
    }
  }

  lemma PlusZero(p: Permits)
    ensures Plus(Permits(0, 0), p) == p
  {
  }

  /** When the reservation reports that it is shut down, no creator holds a permit, and every channel is
      closed of the creators whose `shutdown` was called once. */
  lemma ShutdownReturnsAll(cfg: Config, es: seq<Event>, i: nat, k: Kind)
    requires Possible(cfg, New(cfg), es)
    requires Run(cfg, New(cfg), es).outcome == DoneOk && i < |Run(cfg, New(cfg), es).creators|
    ensures var c := Run(cfg, New(cfg), es).creators[i];
            Holds(c, k) == 0 && (!c.again ==> c.open == Permits(0, 0))
  {
    RunInv(cfg, New(cfg), es);
    var s := Run(cfg, New(cfg), es);
    HeldMember(s.creators, i, Udp);
    HeldMember(s.creators, i, Tcp);
    assert CreatorOk(s.creators[i]);
  }

  lemma {:induction false} HeldMember(cs: seq<Creator>, i: nat, k: Kind)
    requires i < |cs|
    ensures Holds(cs[i], k) <= Held(cs, k)
  {
    if i < |cs| - 1 {
      HeldMember(cs[..|cs| - 1], i, k);
    }
  }

  /** The kind of permit a reservation in progress waits for, and how many. */
  function Awaited(p: Pending): (k: Kind)
    requires p.Waiting?
  {
    if p.stage == WaitUdp then Udp else Tcp
  }

  function Needs(p: Pending): (n: nat)
    requires p.Waiting?
  {
    Of(p.permits, Awaited(p))
  }

  predicate Blocked(s: State) {
    s.pending.Waiting? && Of(s.avail, Awaited(s.pending)) < Needs(s.pending)
  }

  ghost predicate SomebodyHolds(s: State, k: Kind) {
    exists i :: 0 <= i < |s.creators| && Holds(s.creators[i], k) > 0
  }

  /** A blocked reservation has a creator that holds a permit of the kind it waits for exactly when the
      permits available and lost do not add up to the maximum.  That is always so when the permits not lost
      would satisfy it, in particular when an address was found at every grant, and never when at none. */
  lemma BlockedByCreator(cfg: Config, es: seq<Event>)
    requires Possible(cfg, New(cfg), es) && Blocked(Run(cfg, New(cfg), es))
    ensures var s := Run(cfg, New(cfg), es);
            var k := Awaited(s.pending);
            (SomebodyHolds(s, k) <==> Of(s.avail, k) + Of(s.lost, k) < Of(cfg.max, k)) &&
            (Needs(s.pending) + Of(s.lost, k) <= Of(cfg.max, k) ==> SomebodyHolds(s, k)) &&
            (AlwaysKnown(es) ==> SomebodyHolds(s, k)) &&
            (NeverKnown(es) ==> !SomebodyHolds(s, k))
  {
    var s := Run(cfg, New(cfg), es);
    RunInv(cfg, New(cfg), es);
    HoldersExactly(cfg, s);
    LostInRun(cfg, New(cfg), es);
    if NeverKnown(es) {
      NeverKnownBuildsNothing(cfg, New(cfg), es);
    }
  }

  lemma HoldersExactly(cfg: Config, s: State)
    requires Inv(cfg, s) && s.pending.Waiting?
    ensures var k := Awaited(s.pending); SomebodyHolds(s, k) <==> Of(s.avail, k) + Of(s.lost, k) < Of(cfg.max, k)
  {
    var k := Awaited(s.pending);
    SomebodyMeansHeld(s, k);
    assert PendingHolds(s.pending, k) == 0 && Of(s.taken, k) == 0;
  }

  lemma SomebodyMeansHeld(s: State, k: Kind)
    ensures SomebodyHolds(s, k) <==> Held(s.creators, k) > 0
  {
    if Held(s.creators, k) > 0 {
      HeldPositive(s.creators, k);
    }
    forall i | 0 <= i < |s.creators| ensures Holds(s.creators[i], k) <= Held(s.creators, k) {
      HeldMember(s.creators, i, k);
    }
  }

  /** The other reservations are blocked for good: what they need is never available again. */
  lemma BlockedForGood(cfg: Config, s: State, es: seq<Event>, k: Kind, needs: nat)
    requires Inv(cfg, s) && Possible(cfg, s, es) && needs + Of(s.lost, k) > Of(cfg.max, k)
    ensures Of(Run(cfg, s, es).avail, k) < needs
  {
    RunInv(cfg, s, es);
    LostIsUnsourced(cfg, s, es);
  }
}
