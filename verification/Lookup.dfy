/** The iterative lookup of `DistributedRouting`: one launch loop, one fork-join and one continuation per
    round, interleaved in every possible way with requests that complete in the meantime.

    A join looks for one success.  It registers at the slots one by one; a slot that is already complete
    is evaluated on the spot, also when it completed between two joins, and a slot that completes later
    is evaluated by the listener (`Fire`). */
module Lookup {
  import opened Wrappers
  import opened Arithmetic
  import opened Orders
  import opened ForkJoin
  import opened RoutingMechanism

  datatype Answer = Answer(sender: Peer, digest: Digest, neighbors: seq<Peer>)

  /** A slot of the shared array; a request is known by its number. */
  datatype Slot =
    | Free
    | Pending(id: nat)
    | Answered(id: nat, answer: Answer)
    | Errored(id: nat)

  datatype Decision = Succeeded(answer: Answer) | AllFailed

  datatype Phase =
    | Launch(i: nat, active: nat, random: bool)
    | Joining(i: nat, last: bool, counter: nat)
    | Joined(last: bool, decision: Decision)
    | Done

  /** `polled` is the history of the peers taken from the queue: request number n went to `polled[n]`.
      `consumed` holds the requests a join has evaluated, `completions` counts how often the routing
      future was set. */
  datatype State = State(
    k: Knowledge,
    slots: seq<Slot>,
    phase: Phase,
    keyKnown: bool,
    polled: seq<Peer>,
    consumed: set<nat>,
    completions: nat)

  datatype Event =
    | LaunchStep(choice: Option<Peer>)
    | LaunchEnd
    | JoinStep
    | Complete(j: nat, result: Option<Answer>)
    | Fire(j: nat)
    | Continue

  /** `routing`: a lookup with enough direct hits of its own, or nobody to ask, is over at once. */
  function Init(cfg: Config, self: Peer, start: set<Peer>, own: Option<Digest>, parallel: nat, random: bool): (s: State) {
    var hits := if own.Some? && own.value.size > 0 then map[self := own.value] else map[];
    var over := |hits| >= cfg.maxDirectHits || start == {};
    State(Knowledge(start, {self}, hits, {self}, 0, 0, 0, false),
          seq(parallel, _ => Free),
          if over then Done else Launch(0, 0, random),
          !random, [], {}, if over then 1 else 0)
  }

  /** The launch loop polls when the slot is free and new requests are wanted. */
  predicate Polls(s: State) {
    s.phase.Launch? && s.phase.i < |s.slots| && s.slots[s.phase.i].Free? && !s.k.stop && s.k.queue != {}
  }

  predicate Enabled(cfg: Config, s: State, e: Event) {
    match e
    case LaunchStep(choice) =>
      s.phase.Launch? && s.phase.i < |s.slots| && choice.Some? == Polls(s) &&
      (choice.Some? ==> choice.value in s.k.queue && (s.phase.random || IsFirst(cfg.before, s.k.queue, choice.value)))
    case LaunchEnd => s.phase.Launch? && s.phase.i == |s.slots|
    case JoinStep => s.phase.Joining? && s.phase.i < |s.slots|
    case Complete(j, _) => !s.phase.Done? && j < |s.slots| && s.slots[j].Pending?
    case Fire(j) => s.phase.Joining? && j < s.phase.i <= |s.slots| && (s.slots[j].Answered? || s.slots[j].Errored?)
    case Continue => s.phase.Joined?
  }

  function DoLaunch(s: State, choice: Option<Peer>): (s': State)
    requires s.phase.Launch? && s.phase.i < |s.slots|
  {
    var Launch(i, active, random) := s.phase;
    if choice.Some? then
      s.(k := s.k.(queue := s.k.queue - {choice.value}, asked := s.k.asked + {choice.value}),
         slots := s.slots[i := Pending(|s.polled|)],
         phase := Launch(i + 1, active + 1, random),
         keyKnown := true,
         polled := s.polled + [choice.value])
    else
      s.(phase := Launch(i + 1, active + (if s.slots[i].Free? then 0 else 1), random))
  }

  function DoLaunchEnd(s: State): (s': State)
    requires s.phase.Launch?
  {
    if s.phase.active == 0 then s.(phase := Done, completions := s.completions + 1)
    else s.(phase := Joining(0, s.phase.active == 1, 0))
  }

  /** The join takes the report of slot j; afterwards it has registered at the slots below i. */
  function DoReport(s: State, j: nat, i: nat): (s': State)
    requires s.phase.Joining? && j < |s.slots|
  {
    var Joining(_, last, counter) := s.phase;
    match s.slots[j]
    case Pending(_) => s.(phase := Joining(i, last, counter))
    case Answered(id, answer) =>
      s.(slots := s.slots[j := Free], consumed := s.consumed + {id}, phase := Joined(last, Succeeded(answer)))
    case Errored(id) =>
      s.(slots := s.slots[j := Free], consumed := s.consumed + {id}, phase := NoSuccess(|s.slots|, i, last, counter + 1))
    case Free => s.(phase := NoSuccess(|s.slots|, i, last, counter + 1))
  }

  function NoSuccess(n: nat, i: nat, last: bool, counter: nat): (p: Phase) {
    if counter >= n then Joined(last, AllFailed) else Joining(i, last, counter)
  }

  function Settle(slot: Slot, result: Option<Answer>): (r: Slot)
    requires slot.Pending?
  {
    match result
    case Some(answer) => Answered(slot.id, answer)
    case None => Errored(slot.id)
  }

  function Evaluate(cfg: Config, s: State): (e: Evaluation)
    requires s.phase.Joined?
  {
    match s.phase.decision
    case Succeeded(a) =>
      EvaluateSuccess(cfg, s.k.(potentialHits := s.k.potentialHits + {a.sender}), a.sender, a.digest, a.neighbors, s.phase.last)
    case AllFailed => EvaluateFailed(cfg, s.k)
  }

  function DoContinue(cfg: Config, s: State): (s': State)
    requires s.phase.Joined?
  {
    var e := Evaluate(cfg, s);
    if e.finished then s.(k := e.knowledge, phase := Done, completions := s.completions + 1)
    else s.(k := e.knowledge, phase := Launch(0, 0, !s.keyKnown))
  }

  function Step(cfg: Config, s: State, e: Event): (s': State)
    requires Enabled(cfg, s, e)
  {
    match e
    case LaunchStep(choice) => DoLaunch(s, choice)
    case LaunchEnd => DoLaunchEnd(s)
    case JoinStep => DoReport(s, s.phase.i, s.phase.i + 1)
    case Complete(j, result) => s.(slots := s.slots[j := Settle(s.slots[j], result)])
    case Fire(j) => DoReport(s, j, s.phase.i)
    case Continue => DoContinue(cfg, s)
  }

  predicate Possible(cfg: Config, s: State, es: seq<Event>)
    decreases |es|
  {
    es == [] || (Enabled(cfg, s, es[0]) && Possible(cfg, Step(cfg, s, es[0]), es[1..]))
  }

  function Run(cfg: Config, s: State, es: seq<Event>): (s': State)
    requires Possible(cfg, s, es)
    decreases |es|
  {
    if es == [] then s else Run(cfg, Step(cfg, s, es[0]), es[1..])
  }

  // ---------------------------------------------------------------- counting slots

  function Busy(slot: Slot): (n: nat) { if slot.Free? then 0 else 1 }

  function Load(slot: Slot): (n: nat) { if slot.Free? then 0 else if slot.Pending? then 2 else 1 }

  function Tally(f: Slot -> nat, slots: seq<Slot>): (n: nat) {
    if slots == [] then 0 else Tally(f, slots[..|slots| - 1]) + f(slots[|slots| - 1])
  }

  lemma {:induction false} TallySet(f: Slot -> nat, slots: seq<Slot>, j: nat, x: Slot)
    requires j < |slots|
    ensures Tally(f, slots[j := x]) == Tally(f, slots) - f(slots[j]) + f(x)
  {
    var n := |slots| - 1;
    var slots' := slots[j := x];
    if j < n {
      assert slots'[..n] == slots[..n][j := x];
      TallySet(f, slots[..n], j, x);
    } else {
      assert slots'[..n] == slots[..n];
    }
  }

  lemma TallyNext(f: Slot -> nat, slots: seq<Slot>, i: nat)
    requires i < |slots|
    ensures Tally(f, slots[..i + 1]) == Tally(f, slots[..i]) + f(slots[i])
  {
    assert slots[..i + 1][..i] == slots[..i];
  }

  lemma TallyBelow(f: Slot -> nat, slots: seq<Slot>, i: nat, j: nat, x: Slot)
    requires j < |slots| && i <= |slots|
    ensures j < i ==> Tally(f, slots[j := x][..i]) == Tally(f, slots[..i]) - f(slots[j]) + f(x)
    ensures i <= j ==> slots[j := x][..i] == slots[..i]
  {
    if j < i {
      assert slots[j := x][..i] == slots[..i][j := x];
      TallySet(f, slots[..i], j, x);
    }
  }

  lemma {:induction false} TallyBound(f: Slot -> nat, slots: seq<Slot>, top: nat)
    requires forall x :: f(x) <= top
    ensures Tally(f, slots) <= top * |slots|
  {
    if slots != [] {
      TallyBound(f, slots[..|slots| - 1], top);
    }
  }

  function Occupied(s: State): (n: nat) { Tally(Busy, s.slots) }

  // ---------------------------------------------------------------- the round structure

  /** The launch loop counts the busy slots below its index, an undecided join has counted exactly the
      empty ones; only a lookup with enough direct hits leaves requests behind; the routing future is
      set exactly when the lookup is done. */
  ghost predicate RoundOk(cfg: Config, parallel: nat, s: State) {
    |s.slots| == parallel &&
    s.completions == (if s.phase.Done? then 1 else 0) &&
    match s.phase
    case Launch(i, active, _) => i <= parallel && active == Tally(Busy, s.slots[..i])
    case Joining(i, last, counter) =>
      i <= parallel && counter < parallel && counter + Tally(Busy, s.slots[..i]) == i && (last ==> Occupied(s) <= 1)
    case Joined(last, decision) => last || decision.AllFailed? ==> Occupied(s) == 0
    case Done => Occupied(s) == 0 || |s.k.directHits| >= cfg.maxDirectHits
  }

  lemma LaunchRound(cfg: Config, parallel: nat, s: State, choice: Option<Peer>)
    requires RoundOk(cfg, parallel, s) && Enabled(cfg, s, LaunchStep(choice))
    ensures RoundOk(cfg, parallel, DoLaunch(s, choice))
  {
    var i := s.phase.i;
    var s' := DoLaunch(s, choice);
    TallyNext(Busy, s'.slots, i);
    TallyBelow(Busy, s.slots, i, i, Pending(|s.polled|));
  }

  lemma LaunchEndRound(cfg: Config, parallel: nat, s: State)
    requires RoundOk(cfg, parallel, s) && Enabled(cfg, s, LaunchEnd)
    ensures RoundOk(cfg, parallel, DoLaunchEnd(s))
  {
    assert s.slots[..|s.slots|] == s.slots;
  }

  /** An empty or failed slot counts; with the last one counted nothing is left in any slot. */
  lemma NoSuccessRound(cfg: Config, parallel: nat, s: State, s': State, i: nat)
    requires |s'.slots| == parallel && s.phase.Joining? && s.completions == s'.completions == 0
    requires i <= parallel && s.phase.counter < parallel && s.phase.counter + 1 + Tally(Busy, s'.slots[..i]) == i
    requires s.phase.last ==> Occupied(s') <= 1
    requires s'.phase == NoSuccess(parallel, i, s.phase.last, s.phase.counter + 1)
    ensures RoundOk(cfg, parallel, s')
  {
    assert i == parallel ==> s'.slots[..i] == s'.slots;
  }

  /** Emptying a busy slot. */
  lemma Freed(slots: seq<Slot>, j: nat, i: nat)
    requires j < i <= |slots| && !slots[j].Free?
    ensures Tally(Busy, slots[j := Free]) == Tally(Busy, slots) - 1
    ensures Tally(Busy, slots[j := Free][..i]) == Tally(Busy, slots[..i]) - 1
  {
    TallySet(Busy, slots, j, Free);
    TallyBelow(Busy, slots, i, j, Free);
  }

  lemma FireRound(cfg: Config, parallel: nat, s: State, j: nat)
    requires RoundOk(cfg, parallel, s) && Enabled(cfg, s, Fire(j))
    ensures RoundOk(cfg, parallel, DoReport(s, j, s.phase.i))
  {
    var i := s.phase.i;
    var s' := DoReport(s, j, i);
    Freed(s.slots, j, i);
    if s.slots[j].Errored? {
      NoSuccessRound(cfg, parallel, s, s', i);
    }
  }

  lemma JoinFreeRound(cfg: Config, parallel: nat, s: State)
    requires RoundOk(cfg, parallel, s) && Enabled(cfg, s, JoinStep) && s.slots[s.phase.i].Free?
    ensures RoundOk(cfg, parallel, DoReport(s, s.phase.i, s.phase.i + 1))
  {
    var j := s.phase.i;
    TallyNext(Busy, s.slots, j);
    NoSuccessRound(cfg, parallel, s, DoReport(s, j, j + 1), j + 1);
  }

  function Registered(s: State): (s': State)
    requires s.phase.Joining?
  {
    s.(phase := s.phase.(i := s.phase.i + 1))
  }

  lemma RegisterRound(cfg: Config, parallel: nat, s: State)
    requires RoundOk(cfg, parallel, s) && Enabled(cfg, s, JoinStep) && !s.slots[s.phase.i].Free?
    ensures RoundOk(cfg, parallel, Registered(s))
  {
    TallyNext(Busy, s.slots, s.phase.i);
  }

  /** Meeting a busy slot is registering at it, and firing at once when it is complete. */
  lemma JoinBusyRound(cfg: Config, parallel: nat, s: State)
    requires RoundOk(cfg, parallel, s) && Enabled(cfg, s, JoinStep) && !s.slots[s.phase.i].Free?
    ensures RoundOk(cfg, parallel, DoReport(s, s.phase.i, s.phase.i + 1))
  {
    RegisterRound(cfg, parallel, s);
    if !s.slots[s.phase.i].Pending? {
      FireRound(cfg, parallel, Registered(s), s.phase.i);
    }
  }

  lemma CompleteRound(cfg: Config, parallel: nat, s: State, j: nat, result: Option<Answer>)
    requires RoundOk(cfg, parallel, s) && Enabled(cfg, s, Complete(j, result))
    ensures RoundOk(cfg, parallel, Step(cfg, s, Complete(j, result)))
  {
    var x := Settle(s.slots[j], result);
    TallySet(Busy, s.slots, j, x);
    if s.phase.Launch? || s.phase.Joining? {
      TallyBelow(Busy, s.slots, s.phase.i, j, x);
    }
  }

  // ---------------------------------------------------------------- peers and hits

  /** Every polled peer was polled once, counts as asked and is out of the queue for good; direct hits
      are potential hits, and there are fewer than asked for while the lookup runs. */
  ghost predicate PeersOk(cfg: Config, s: State) {
    (forall p :: p in s.polled ==> p in s.k.asked && p !in s.k.queue) &&
    (forall a, b :: 0 <= a < b < |s.polled| ==> s.polled[a] != s.polled[b]) &&
    s.k.directHits.Keys <= s.k.potentialHits &&
    |s.k.directHits| <= (if cfg.maxDirectHits < 1 then 1 else cfg.maxDirectHits) &&
    (!s.phase.Done? ==> |s.k.directHits| < cfg.maxDirectHits)
  }

  lemma LaunchPeers(cfg: Config, s: State, choice: Option<Peer>)
    requires PeersOk(cfg, s) && Enabled(cfg, s, LaunchStep(choice))
    ensures PeersOk(cfg, DoLaunch(s, choice))
  {
    if choice.Some? {
      var s' := DoLaunch(s, choice);
      assert choice.value !in s.polled;
      forall p | p in s'.polled ensures p in s'.k.asked && p !in s'.k.queue {
        assert p in s.polled || p == choice.value;
      }
    }
  }

  lemma ContinuePeers(cfg: Config, s: State)
    requires PeersOk(cfg, s) && s.phase.Joined?
    ensures PeersOk(cfg, DoContinue(cfg, s))
  {
    if s.phase.decision.Succeeded? {
      var a := s.phase.decision.answer;
      SuccessCases(cfg, s.k.(potentialHits := s.k.potentialHits + {a.sender}), a.sender, a.digest, a.neighbors, s.phase.last);
    }
  }

  lemma ContinueRound(cfg: Config, parallel: nat, s: State)
    requires PeersOk(cfg, s) && RoundOk(cfg, parallel, s) && s.phase.Joined?
    ensures RoundOk(cfg, parallel, DoContinue(cfg, s))
  {
    assert s.slots[..0] == [];
    if s.phase.decision.Succeeded? {
      var a := s.phase.decision.answer;
      SuccessCases(cfg, s.k.(potentialHits := s.k.potentialHits + {a.sender}), a.sender, a.digest, a.neighbors, s.phase.last);
    }
  }

  // ---------------------------------------------------------------- requests

  predicate Distinct(slots: seq<Slot>) {
    forall a, b :: 0 <= a < b < |slots| && !slots[a].Free? && !slots[b].Free? ==> slots[a].id != slots[b].id
  }

  /** Every request sent is either in exactly one slot or was evaluated by exactly one join. */
  ghost predicate RequestsOk(s: State) {
    Distinct(s.slots) &&
    (forall a :: 0 <= a < |s.slots| && !s.slots[a].Free? ==> s.slots[a].id < |s.polled| && s.slots[a].id !in s.consumed) &&
    (forall n :: n in s.consumed ==> n < |s.polled|) &&
    |s.consumed| + Occupied(s) == |s.polled|
  }

  lemma LaunchRequests(cfg: Config, s: State, choice: Option<Peer>)
    requires RequestsOk(s) && Enabled(cfg, s, LaunchStep(choice))
    ensures RequestsOk(DoLaunch(s, choice))
  {
    TallySet(Busy, s.slots, s.phase.i, Pending(|s.polled|));
  }

  lemma ReportRequests(s: State, j: nat, i: nat)
    requires RequestsOk(s) && s.phase.Joining? && j < |s.slots|
    ensures RequestsOk(DoReport(s, j, i))
  {
    if s.slots[j].Answered? || s.slots[j].Errored? {
      var id := s.slots[j].id;
      var s' := DoReport(s, j, i);
      TallySet(Busy, s.slots, j, Free);
      assert |s'.consumed| == |s.consumed| + 1;
      forall a | 0 <= a < |s'.slots| && !s'.slots[a].Free?
        ensures s'.slots[a].id < |s.polled| && s'.slots[a].id !in s'.consumed
      {
        assert s'.slots[a] == s.slots[a] && a != j;
      }
    }
  }

  lemma CompleteRequests(cfg: Config, s: State, j: nat, result: Option<Answer>)
    requires RequestsOk(s) && Enabled(cfg, s, Complete(j, result))
    ensures RequestsOk(Step(cfg, s, Complete(j, result)))
  {
    TallySet(Busy, s.slots, j, Settle(s.slots[j], result));
  }

  // ---------------------------------------------------------------- the bound on requests

  /** How many requests the running launch loop may still send. */
  function Launching(s: State): (n: nat) {
    if s.phase.Launch? && !s.k.stop && s.phase.i <= |s.slots| then |s.slots| - s.phase.i else 0
  }

  function Limit(cfg: Config, parallel: nat): (n: nat) {
    parallel * (1 + Clamp(cfg.maxSuccess) + Clamp(cfg.maxFailures))
  }

  ghost predicate SentOk(cfg: Config, parallel: nat, s: State) {
    |s.polled| + parallel * Budget(cfg, s.k) + Launching(s) <= Limit(cfg, parallel)
  }

  /** Continuing costs budget unless it stops new requests. */
  lemma ContinueBudget(cfg: Config, s: State)
    requires PeersOk(cfg, s) && s.phase.Joined?
    ensures var s' := DoContinue(cfg, s);
            Budget(cfg, s'.k) <= Budget(cfg, s.k) &&
            (!s'.k.stop ==> Budget(cfg, s'.k) + 1 == Budget(cfg, s.k)) &&
            (s.phase.decision.AllFailed? ==> s'.phase.Done? || !s'.k.stop)
  {
    if s.phase.decision.Succeeded? {
      var a := s.phase.decision.answer;
      SuccessCases(cfg, s.k.(potentialHits := s.k.potentialHits + {a.sender}), a.sender, a.digest, a.neighbors, s.phase.last);
    }
  }

  lemma ContinueSent(cfg: Config, parallel: nat, s: State)
    requires PeersOk(cfg, s) && |s.slots| == parallel && s.phase.Joined? && SentOk(cfg, parallel, s)
    ensures SentOk(cfg, parallel, DoContinue(cfg, s))
  {
    ContinueBudget(cfg, s);
    var s' := DoContinue(cfg, s);
    SpendUnit(parallel, Budget(cfg, s.k), Budget(cfg, s'.k));
  }

  /** A unit of the budget pays for one round of launches. */
  lemma SpendUnit(parallel: nat, b: nat, b': nat)
    requires b' <= b
    ensures parallel * b' <= parallel * b && (b' + 1 == b ==> parallel * b' + parallel == parallel * b)
  {
    MulMonotone(parallel, b', b);
    assert parallel * (b' + 1) == parallel * b' + parallel;
  }

  lemma SentBelow(cfg: Config, parallel: nat, s: State)
    requires SentOk(cfg, parallel, s)
    ensures |s.polled| <= parallel * (1 + Clamp(cfg.maxSuccess) + Clamp(cfg.maxFailures))
  {
    MulMonotone(parallel, 0, Budget(cfg, s.k));
  }

  // ---------------------------------------------------------------- whole runs

  ghost predicate Inv(cfg: Config, parallel: nat, s: State) {
    RoundOk(cfg, parallel, s) && PeersOk(cfg, s) && RequestsOk(s) && SentOk(cfg, parallel, s)
  }

  lemma StepRound(cfg: Config, parallel: nat, s: State, e: Event)
    requires RoundOk(cfg, parallel, s) && PeersOk(cfg, s) && Enabled(cfg, s, e)
    ensures RoundOk(cfg, parallel, Step(cfg, s, e))
  {
    match e
    case LaunchStep(choice) => LaunchRound(cfg, parallel, s, choice);
    case LaunchEnd => LaunchEndRound(cfg, parallel, s);
    case JoinStep => if s.slots[s.phase.i].Free? { JoinFreeRound(cfg, parallel, s); } else { JoinBusyRound(cfg, parallel, s); }
    case Complete(j, result) => CompleteRound(cfg, parallel, s, j, result);
    case Fire(j) => FireRound(cfg, parallel, s, j);
    case Continue => ContinueRound(cfg, parallel, s);
  }

  lemma StepPeers(cfg: Config, s: State, e: Event)
    requires PeersOk(cfg, s) && Enabled(cfg, s, e)
    ensures PeersOk(cfg, Step(cfg, s, e))
  {
    match e
    case LaunchStep(choice) => LaunchPeers(cfg, s, choice);
    case Continue => ContinuePeers(cfg, s);
    case _ =>
  }

  lemma StepRequests(cfg: Config, s: State, e: Event)
    requires RequestsOk(s) && Enabled(cfg, s, e)
    ensures RequestsOk(Step(cfg, s, e))
  {
    match e
    case LaunchStep(choice) => LaunchRequests(cfg, s, choice);
    case JoinStep => ReportRequests(s, s.phase.i, s.phase.i + 1);
    case Complete(j, result) => CompleteRequests(cfg, s, j, result);
    case Fire(j) => ReportRequests(s, j, s.phase.i);
    case _ =>
  }

  lemma StepSent(cfg: Config, parallel: nat, s: State, e: Event)
    requires PeersOk(cfg, s) && |s.slots| == parallel && SentOk(cfg, parallel, s) && Enabled(cfg, s, e)
    ensures SentOk(cfg, parallel, Step(cfg, s, e))
  {
    if e.Continue? {
      ContinueSent(cfg, parallel, s);
    } else {
      assert Budget(cfg, Step(cfg, s, e).k) == Budget(cfg, s.k);
    }
  }

  lemma {:induction false} RunInv(cfg: Config, parallel: nat, s: State, es: seq<Event>)
    requires Inv(cfg, parallel, s) && Possible(cfg, s, es)
    ensures Inv(cfg, parallel, Run(cfg, s, es))
    decreases |es|
  {
    if es != [] {
      StepRound(cfg, parallel, s, es[0]);
      StepPeers(cfg, s, es[0]);
      StepRequests(cfg, s, es[0]);
      StepSent(cfg, parallel, s, es[0]);
      RunInv(cfg, parallel, Step(cfg, s, es[0]), es[1..]);
    }
  }

  lemma InitInv(cfg: Config, self: Peer, start: set<Peer>, own: Option<Digest>, parallel: nat, random: bool)
    ensures Inv(cfg, parallel, Init(cfg, self, start, own, parallel, random))
  {
    var s := Init(cfg, self, start, own, parallel, random);
    NoneBusy(s.slots);
    assert s.slots[..0] == [];
    InitSent(cfg, parallel, s);
  }

  lemma InitSent(cfg: Config, parallel: nat, s: State)
    requires s.polled == [] && |s.slots| == parallel && s.k.nrSuccess == s.k.nrFailures == 0
    ensures SentOk(cfg, parallel, s)
  {
    var b := Budget(cfg, s.k);
    assert parallel * (1 + b) == parallel + parallel * b;
  }

  lemma {:induction false} NoneBusy(slots: seq<Slot>)
    requires forall a :: 0 <= a < |slots| ==> slots[a].Free?
    ensures Tally(Busy, slots) == 0
  {
    if slots != [] {
      NoneBusy(slots[..|slots| - 1]);
    }
  }

  // ---------------------------------------------------------------- every run ends

  /** Where the round stands: every step of a round lowers it. */
  function Rank(n: nat, p: Phase): (r: nat) {
    match p
    case Launch(i, _, _) => if i <= n then 4 * (n - i) + n + 5 else 0
    case Joining(i, _, _) => if i <= n then (n - i) + 4 else 0
    case Joined(_, _) => 2
    case Done => 0
  }

  function Inner(s: State): (r: nat) { Rank(|s.slots|, s.phase) + Tally(Load, s.slots) }

  /** While new requests are forbidden, each round empties a slot. */
  function Drain(s: State): (r: nat) {
    if !s.k.stop then 2 * |s.slots| + 2
    else 2 * Occupied(s) + if s.phase.Joined? && s.phase.decision.Succeeded? then 1 else 0
  }

  function Pack(n: nat, budget: nat, drain: nat, inner: nat): (m: nat) {
    (budget * (2 * n + 3) + drain) * (7 * n + 6) + inner
  }

  function Measure(cfg: Config, s: State): (m: nat) {
    if s.phase.Done? then 0 else Pack(|s.slots|, Budget(cfg, s.k), Drain(s), Inner(s))
  }

  lemma Bounds(s: State)
    requires s.phase.Launch? || s.phase.Joining? ==> s.phase.i <= |s.slots|
    ensures Inner(s) < 7 * |s.slots| + 6 && Drain(s) < 2 * |s.slots| + 3 && Occupied(s) <= |s.slots|
  {
    TallyBound(Load, s.slots, 2);
    TallyBound(Busy, s.slots, 1);
  }

  lemma Lower(a: nat, a': nat, w: nat, x: nat, x': nat)
    requires a' < a && x' < w
    ensures a' * w + x' < a * w + x
  {
    assert (a' + 1) * w <= a * w by { MulMonotone(w, a' + 1, a); }
    assert (a' + 1) * w == a' * w + w;
  }

  lemma PackLower(n: nat, b: nat, d: nat, x: nat, b': nat, d': nat, x': nat)
    requires b' <= b && d' < 2 * n + 3 && x' < 7 * n + 6
    requires b' < b || d' < d || (d' == d && x' < x)
    ensures Pack(n, b', d', x') < Pack(n, b, d, x)
  {
    var v, w := 2 * n + 3, 7 * n + 6;
    if b' < b {
      Lower(b, b', v, d, d');
      Lower(b * v + d, b' * v + d', w, x, x');
    } else if d' < d {
      Lower(b * v + d, b' * v + d', w, x, x');
    }
  }

  lemma PackAbove(n: nat, b: nat, d: nat, x: nat)
    ensures Pack(n, b, d, x) >= x
  {
    NonNegative(b * (2 * n + 3) + d, 7 * n + 6);
  }

  lemma PackBelow(n: nat, b: nat, d: nat, x: nat)
    requires d < 2 * n + 3 && x < 7 * n + 6
    ensures Pack(n, b, d, x) < (1 + b) * (2 * n + 3) * (7 * n + 6)
  {
    var v, w := 2 * n + 3, 7 * n + 6;
    Lower(1 + b, b, v, 0, d);
    Lower((1 + b) * v, b * v + d, w, 0, x);
  }

  ghost predicate Descends(cfg: Config, s: State, s': State) {
    Budget(cfg, s'.k) <= Budget(cfg, s.k) &&
    (Budget(cfg, s'.k) < Budget(cfg, s.k) || Drain(s') < Drain(s) || (Drain(s') == Drain(s) && Inner(s') < Inner(s)))
  }

  lemma LaunchDescends(cfg: Config, parallel: nat, s: State, choice: Option<Peer>)
    requires RoundOk(cfg, parallel, s) && Enabled(cfg, s, LaunchStep(choice))
    ensures Descends(cfg, s, DoLaunch(s, choice))
  {
    TallySet(Load, s.slots, s.phase.i, Pending(|s.polled|));
  }

  lemma ReportDescends(cfg: Config, parallel: nat, s: State, j: nat, i: nat)
    requires RoundOk(cfg, parallel, s) && s.phase.Joining? && j < parallel && s.phase.i <= i <= parallel
    requires i == s.phase.i ==> s.slots[j].Answered? || s.slots[j].Errored?
    ensures Descends(cfg, s, DoReport(s, j, i))
  {
    if s.slots[j].Answered? || s.slots[j].Errored? {
      TallySet(Load, s.slots, j, Free);
      TallySet(Busy, s.slots, j, Free);
    }
  }

  lemma CompleteDescends(cfg: Config, parallel: nat, s: State, j: nat, result: Option<Answer>)
    requires Enabled(cfg, s, Complete(j, result))
    ensures Descends(cfg, s, Step(cfg, s, Complete(j, result)))
  {
    var x := Settle(s.slots[j], result);
    TallySet(Load, s.slots, j, x);
    TallySet(Busy, s.slots, j, x);
  }

  lemma ContinueDescends(cfg: Config, parallel: nat, s: State)
    requires PeersOk(cfg, s) && RoundOk(cfg, parallel, s) && s.phase.Joined?
    ensures DoContinue(cfg, s).phase.Done? || Descends(cfg, s, DoContinue(cfg, s))
  {
    ContinueBudget(cfg, s);
    TallyBound(Busy, s.slots, 1);
  }

  lemma StepDescends(cfg: Config, parallel: nat, s: State, e: Event)
    requires PeersOk(cfg, s) && RoundOk(cfg, parallel, s) && Enabled(cfg, s, e)
    ensures Step(cfg, s, e).phase.Done? || Descends(cfg, s, Step(cfg, s, e))
  {
    match e
    case LaunchStep(choice) => LaunchDescends(cfg, parallel, s, choice);
    case LaunchEnd =>
    case JoinStep => ReportDescends(cfg, parallel, s, s.phase.i, s.phase.i + 1);
    case Complete(j, result) => CompleteDescends(cfg, parallel, s, j, result);
    case Fire(j) => ReportDescends(cfg, parallel, s, j, s.phase.i);
    case Continue => ContinueDescends(cfg, parallel, s);
  }

  lemma StepLowers(cfg: Config, parallel: nat, s: State, e: Event)
    requires PeersOk(cfg, s) && RoundOk(cfg, parallel, s) && Enabled(cfg, s, e)
    ensures Measure(cfg, Step(cfg, s, e)) < Measure(cfg, s)
  {
    var s' := Step(cfg, s, e);
    StepDescends(cfg, parallel, s, e);
    StepRound(cfg, parallel, s, e);
    PackAbove(parallel, Budget(cfg, s.k), Drain(s), Inner(s));
    if !s'.phase.Done? {
      Bounds(s');
      PackLower(parallel, Budget(cfg, s.k), Drain(s), Inner(s), Budget(cfg, s'.k), Drain(s'), Inner(s'));
    }
  }

  // ---------------------------------------------------------------- theorems

  /** Safety over every run of every lookup: no peer is polled twice, a direct hit is a potential hit,
      direct hits stay within `max(maxDirectHits, 1)`, every request is in one slot or consumed by one
      join, the routing future is set exactly when the lookup is done, and requests are left behind
      only by a lookup that has its direct hits. */
  lemma Safety(cfg: Config, self: Peer, start: set<Peer>, own: Option<Digest>, parallel: nat, random: bool, es: seq<Event>)
    requires Possible(cfg, Init(cfg, self, start, own, parallel, random), es)
    ensures var s := Run(cfg, Init(cfg, self, start, own, parallel, random), es);
            (forall a, b :: 0 <= a < b < |s.polled| ==> s.polled[a] != s.polled[b]) &&
            s.k.directHits.Keys <= s.k.potentialHits &&
            |s.k.directHits| <= (if cfg.maxDirectHits < 1 then 1 else cfg.maxDirectHits) &&
            RequestsOk(s) &&
            s.completions == (if s.phase.Done? then 1 else 0) &&
            (s.phase.Done? ==> Occupied(s) == 0 || |s.k.directHits| >= cfg.maxDirectHits)
  {
    InitInv(cfg, self, start, own, parallel, random);
    RunInv(cfg, parallel, Init(cfg, self, start, own, parallel, random), es);
  }

  /** The number of requests is bounded by the limits alone, whatever the network. */
  lemma RequestBound(cfg: Config, self: Peer, start: set<Peer>, own: Option<Digest>, parallel: nat, random: bool, es: seq<Event>)
    requires Possible(cfg, Init(cfg, self, start, own, parallel, random), es)
    ensures |Run(cfg, Init(cfg, self, start, own, parallel, random), es).polled|
            <= parallel * (1 + Clamp(cfg.maxSuccess) + Clamp(cfg.maxFailures))
  {
    var s := Init(cfg, self, start, own, parallel, random);
    InitInv(cfg, self, start, own, parallel, random);
    RunInv(cfg, parallel, s, es);
    SentBelow(cfg, parallel, Run(cfg, s, es));
  }

  lemma {:induction false} RunLowers(cfg: Config, parallel: nat, s: State, es: seq<Event>)
    requires Inv(cfg, parallel, s) && Possible(cfg, s, es)
    ensures |es| + Measure(cfg, Run(cfg, s, es)) <= Measure(cfg, s)
    decreases |es|
  {
    if es != [] {
      StepLowers(cfg, parallel, s, es[0]);
      RunInv(cfg, parallel, s, es[..1]);
      assert Run(cfg, s, es[..1]) == Step(cfg, s, es[0]);
      RunLowers(cfg, parallel, Step(cfg, s, es[0]), es[1..]);
    }
  }

  /** Every run is finite, with a length fixed by the limits. */
  lemma Terminates(cfg: Config, self: Peer, start: set<Peer>, own: Option<Digest>, parallel: nat, random: bool, es: seq<Event>)
    requires Possible(cfg, Init(cfg, self, start, own, parallel, random), es)
    ensures |es| <= (1 + Clamp(cfg.maxSuccess) + Clamp(cfg.maxFailures)) * (2 * parallel + 3) * (7 * parallel + 6)
  {
    var s := Init(cfg, self, start, own, parallel, random);
    InitInv(cfg, self, start, own, parallel, random);
    RunLowers(cfg, parallel, s, es);
    Bounds(s);
    PackBelow(parallel, Budget(cfg, s.k), Drain(s), Inner(s));
  }

  /** Until it is done a lookup can always move, if only by one of its requests completing. */
  lemma NeverStuck(cfg: Config, parallel: nat, s: State) returns (e: Event)
    requires Inv(cfg, parallel, s) && StrictTotal(cfg.before) && !s.phase.Done?
    ensures Enabled(cfg, s, e)
  {
    match s.phase
    case Launch(i, _, _) =>
      if i == parallel {
        e := LaunchEnd;
      } else if Polls(s) {
        var p := FirstExists(cfg.before, s.k.queue);
        e := LaunchStep(Some(p));
      } else {
        e := LaunchStep(None);
      }
    case Joining(i, _, _) =>
      if i < parallel {
        e := JoinStep;
      } else {
        assert s.slots[..i] == s.slots;
        var j := BusyExists(s.slots);
        e := if s.slots[j].Pending? then Complete(j, None) else Fire(j);
      }
    case Joined(_, _) => e := Continue;
  }

  lemma {:induction false} BusyExists(slots: seq<Slot>) returns (j: nat)
    requires Tally(Busy, slots) > 0
    ensures j < |slots| && !slots[j].Free?
  {
    var n := |slots| - 1;
    if slots[n].Free? {
      j := BusyExists(slots[..n]);
    } else {
      j := n;
    }
  }

  // ---------------------------------------------------------------- the join and the launch loop as code

  function VerdictOf(slot: Slot): (v: Verdict)
    requires !slot.Pending?
  {
    if slot.Free? then Null else if slot.Answered? then Success else Failure
  }

  function Forks(slots: seq<Slot>): (f: seq<Option<nat>>) {
    seq(|slots|, a requires 0 <= a < |slots| => if slots[a].Free? then None else Some(slots[a].id))
  }

  /** The lookup's joins are fork-joins that look for one success in the shared slots. */
  lemma JoinsOnSuccess(s: State, j: nat, i: nat, copy: seq<nat>)
    requires s.phase.Joining? && j < |s.slots| && !s.slots[j].Pending?
    ensures var s' := DoReport(s, j, i);
            var join := Take(Join(Forks(s.slots), 1, s.phase.counter, 0, copy, Undecided), Report(j, VerdictOf(s.slots[j])));
            join.forks == Forks(s'.slots) &&
            (join.outcome == Undecided <==> s'.phase == Joining(i, s.phase.last, join.counter)) &&
            (join.outcome == Outcome.Ok <==> s'.phase.Joined? && s'.phase.decision.Succeeded?) &&
            (join.outcome == Outcome.Failed <==> s'.phase.Joined? && s'.phase.decision.AllFailed?)
  {
  }

  lemma {:induction false} RunOne(cfg: Config, s: State, es: seq<Event>, e: Event)
    requires Possible(cfg, s, es) && Enabled(cfg, Run(cfg, s, es), e)
    ensures Possible(cfg, s, es + [e]) && Run(cfg, s, es + [e]) == Step(cfg, Run(cfg, s, es), e)
    decreases |es|
  {
    if es == [] {
      assert [e][1..] == [];
    } else {
      RunOne(cfg, Step(cfg, s, es[0]), es[1..], e);
      assert (es + [e])[1..] == es[1..] + [e];
    }
  }

  /** The loop of `routingRec` over the shared array, with every poll in the order the search calls for:
      it is a run of launch steps through all slots.  `sent` numbers the requests. */
  method LaunchAll(m: Mechanism, slots: array<Slot>, random: bool, sent: seq<Peer>, ghost s: State)
    returns (active: nat, polled: seq<Peer>, ghost es: seq<Event>)
    requires StrictTotal(m.cfg.before)
    requires s.k == m.View() && s.slots == slots[..] && s.phase == Launch(0, 0, random) && s.polled == sent
    modifies m, slots
    ensures Possible(m.cfg, s, es)
    ensures var s' := Run(m.cfg, s, es);
            s'.k == m.View() && s'.slots == slots[..] && s'.phase == Launch(slots.Length, active, random) && s'.polled == polled
  {
    active, polled, es := 0, sent, [];
    ghost var now := s;
    for i := 0 to slots.Length
      invariant Possible(m.cfg, s, es) && now == Run(m.cfg, s, es)
      invariant now.k == m.View() && now.slots == slots[..] && now.phase == Launch(i, active, random) && now.polled == polled
    {
      var choice: Option<Peer> := None;
      if slots[i].Free? && !m.stopCreatingNewFutures {
        if random {
          choice := m.PollAny();
        } else {
          choice := m.PollFirst();
        }
      }
      RunOne(m.cfg, s, es, LaunchStep(choice));
      es, now := es + [LaunchStep(choice)], DoLaunch(now, choice);
      if choice.Some? {
        m.alreadyAsked := m.alreadyAsked + {choice.value};
        active := active + 1;
        slots[i] := Pending(|polled|);
        polled := polled + [choice.value];
      } else if !slots[i].Free? {
        active := active + 1;
      }
    }
  }
}
