/** Whether the shutdown of the bulk reservation can complete. */
module BulkShutdown {
  import opened Reservation

  // ---------------------------------------------------------------- the completion counter

  /** A listener of the bulk shutdown that has still to count. */
  function Owes(c: Creator): (n: nat) { if c.subscribed && c.stage != Counted then 1 else 0 }

  /** What is left to do for a creator: close, shut down, drain, run its listeners. */
  function Load(c: Creator): (n: nat) {
    c.open.udp + c.open.tcp + (if c.shut then 0 else 1) + (if c.drained then 0 else 1) +
    match c.stage
    case NoneRun => 3
    case Released => 2
    case Unlisted => 1
    case Counted => 0
  }

  function Sum(f: Creator -> nat, cs: seq<Creator>): (n: nat) {
    if cs == [] then 0 else Sum(f, cs[..|cs| - 1]) + f(cs[|cs| - 1])
  }

  lemma {:induction false} SumSet(f: Creator -> nat, cs: seq<Creator>, i: nat, c: Creator)
    requires i < |cs|
    ensures Sum(f, cs[i := c]) == Sum(f, cs) - f(cs[i]) + f(c)
  {
    var n := |cs| - 1;
    if i == n {
      assert cs[i := c][..n] == cs[..n];
    } else {
      assert cs[i := c][..n] == cs[..n][i := c];
      SumSet(f, cs[..n], i, c);
    }
  }

  lemma {:induction false} SumZero(f: Creator -> nat, cs: seq<Creator>)
    requires forall i :: 0 <= i < |cs| ==> f(cs[i]) == 0
    ensures Sum(f, cs) == 0
  {
    if cs != [] {
      SumZero(f, cs[..|cs| - 1]);
    }
  }

  ghost predicate NoneSubscribed(cs: seq<Creator>) {
    forall i :: 0 <= i < |cs| ==> !cs[i].subscribed
  }

  /** The creators still to be subscribed to are different ones, and not subscribed to. */
  ghost predicate TodoOk(todo: seq<nat>, cs: seq<Creator>) {
    (forall j :: 0 <= j < |todo| ==> todo[j] < |cs| && !cs[todo[j]].subscribed) &&
    Distinct(todo)
  }

  ghost predicate StagesOk(cs: seq<Creator>) {
    forall i :: 0 <= i < |cs| ==> (cs[i].stage == Counted ==> cs[i].subscribed) && (cs[i].drained ==> cs[i].done)
  }

  ghost predicate PhaseOk(s: State) {
    match s.phase
    case Closing(todo) =>
      s.size > 0 && s.size == s.counter + |todo| + Sum(Owes, s.creators) && TodoOk(todo, s.creators)
    case Empty => s.size == 0 && s.outcome != Undecided
    case _ => s.size == 0 && s.counter == 0 && NoneSubscribed(s.creators)
  }

  /** Every creator of the list is still to be subscribed to, still to count, or has counted. */
  ghost predicate Counting(cfg: Config, s: State) {
    StagesOk(s.creators) && PhaseOk(s) &&
    (s.size == 0 ==> s.taken == Permits(0, 0)) &&
    (s.outcome == Undecided ==> s.taken == Permits(0, 0) || s.taken == Permits(cfg.max.udp, 0))
  }

  /** A creator changes and its part in the count does not. */
  lemma SameCount(cfg: Config, s: State, i: nat, c: Creator)
    requires Counting(cfg, s) && i < |s.creators|
    requires c.subscribed == s.creators[i].subscribed && (c.stage == Counted <==> s.creators[i].stage == Counted)
    requires c.drained ==> c.done
    ensures Counting(cfg, WithCreator(s, i, c))
  {
    SumSet(Owes, s.creators, i, c);
  }

  lemma CounterCounts(cfg: Config, s: State, i: nat)
    requires Inv(cfg, s) && Counting(cfg, s) && Enabled(s, RunCounter(i))
    ensures Counting(cfg, Apply(cfg, s, RunCounter(i)))
  {
    SumSet(Owes, s.creators, i, s.creators[i].(stage := Counted));
  }

  lemma SubscribeCounts(cfg: Config, s: State)
    requires Inv(cfg, s) && Counting(cfg, s) && Enabled(s, Subscribe)
    ensures Counting(cfg, Apply(cfg, s, Subscribe))
  {
    var i := s.phase.todo[0];
    var s' := Apply(cfg, s, Subscribe);
    assert CreatorOk(s.creators[i]);
    SumSet(Owes, s.creators, i, s'.creators[i]);
    var rest := s.phase.todo[1..];
    assert forall j :: 0 <= j < |rest| ==> rest[j] == s.phase.todo[j + 1] && rest[j] != i;
  }

  predicate Distinct(s: seq<nat>) {
    forall j, l :: 0 <= j < l < |s| ==> s[j] != s[l]
  }

  lemma {:induction false} ListedOnce(cs: seq<Creator>, n: nat)
    requires n <= |cs|
    ensures Distinct(ListedIndices(cs, n)) && forall j :: 0 <= j < |ListedIndices(cs, n)| ==> ListedIndices(cs, n)[j] < n
  {
    if n > 0 {
      var last: nat := n - 1;
      ListedOnce(cs, last);
      DistinctSnoc(ListedIndices(cs, last), last);
    }
  }

  lemma DistinctSnoc(s: seq<nat>, x: nat)
    requires Distinct(s) && forall j :: 0 <= j < |s| ==> s[j] < x
    ensures Distinct(s + [x])
  {
  }

  lemma TodoFresh(cs: seq<Creator>)
    requires NoneSubscribed(cs)
    ensures TodoOk(ListedIndices(cs, |cs|), cs)
  {
    ListedOnce(cs, |cs|);
    var r := ListedIndices(cs, |cs|);
    forall j | 0 <= j < |r| ensures r[j] < |cs| && !cs[r[j]].subscribed {
    }
  }

  lemma CopyCounts(cfg: Config, s: State)
    requires Counting(cfg, s) && Enabled(s, CopyList)
    ensures Counting(cfg, Apply(cfg, s, CopyList))
  {
    TodoFresh(s.creators);
    SumZero(Owes, s.creators);
    assert s.size == 0 && s.counter == 0 && s.taken == Permits(0, 0);
  }

  lemma TakeCounts(cfg: Config, s: State, e: Event)
    requires Counting(cfg, s) && Enabled(s, e) && (e.TakeUdp? || e.TakeTcp?)
    ensures Counting(cfg, Apply(cfg, s, e))
  {
  }

  lemma GrantCounts(cfg: Config, s: State, known: bool)
    requires Inv(cfg, s) && Counting(cfg, s) && Enabled(s, AcquireTcp(known))
    ensures Counting(cfg, Apply(cfg, s, AcquireTcp(known)))
  {
  }

  lemma OwnCounts(cfg: Config, s: State, e: Event)
    requires Inv(cfg, s) && Counting(cfg, s) && Enabled(s, e)
    requires e.OpenChannel? || e.CloseChannel? || e.ShutdownCreator? || e.DrainCreator? || e.RunRelease? || e.RunUnlist?
    ensures Counting(cfg, Apply(cfg, s, e))
  {
    var s' := Apply(cfg, s, e);
    SameCount(cfg, s, e.who, s'.creators[e.who]);
    assert s'.creators == s.creators[e.who := s'.creators[e.who]];
  }

  lemma OtherCounts(cfg: Config, s: State, e: Event)
    requires Inv(cfg, s) && Counting(cfg, s) && Enabled(s, e)
    requires e.Create? || e.StartReservation? || e.AcquireUdp? || e.Interrupt? || e.BulkShutdown? || e.DropQueue?
    ensures Counting(cfg, Apply(cfg, s, e))
  {
  }

  lemma StepCounts(cfg: Config, s: State, e: Event)
    requires Inv(cfg, s) && Counting(cfg, s) && Enabled(s, e)
    ensures Counting(cfg, Apply(cfg, s, e))
  {
    if e.RunCounter? {
      CounterCounts(cfg, s, e.who);
    } else if e.Subscribe? {
      SubscribeCounts(cfg, s);
    } else if e.CopyList? {
      CopyCounts(cfg, s);
    } else if e.TakeUdp? || e.TakeTcp? {
      TakeCounts(cfg, s, e);
    } else if e.AcquireTcp? {
      GrantCounts(cfg, s, e.known);
    } else if e.Create? || e.StartReservation? || e.AcquireUdp? || e.Interrupt? || e.BulkShutdown? || e.DropQueue? {
      OtherCounts(cfg, s, e);
    } else {
      OwnCounts(cfg, s, e);
    }
  }

  lemma {:induction false} RunCounts(cfg: Config, s: State, es: seq<Event>)
    requires Inv(cfg, s) && Counting(cfg, s) && Possible(cfg, s, es)
    ensures Inv(cfg, Run(cfg, s, es)) && Counting(cfg, Run(cfg, s, es))
    decreases |es|
  {
    if es != [] {
      StepInv(cfg, s, es[0]);
      StepCounts(cfg, s, es[0]);
      RunCounts(cfg, Apply(cfg, s, es[0]), es[1..]);
    }
  }

  // ---------------------------------------------------------------- a way to the end

  /** The bulk shutdown waits for its creators and nothing is lost. */
  ghost predicate Finishing(cfg: Config, s: State) {
    Inv(cfg, s) && Counting(cfg, s) && s.phase.Closing? && s.outcome == Undecided && s.lost == Permits(0, 0)
  }

  predicate AtRest(c: Creator) {
    c.open == Permits(0, 0) && c.shut && c.drained && (c.stage == Counted || (c.stage == Unlisted && !c.subscribed))
  }

  /** What happens next to creator i. */
  function NextFor(c: Creator, i: nat): (e: Event)
    requires !AtRest(c)
  {
    if c.open.udp > 0 then CloseChannel(i, Udp)
    else if c.open.tcp > 0 then CloseChannel(i, Tcp)
    else if !c.shut then ShutdownCreator(i)
    else if !c.drained then DrainCreator(i)
    else
      match c.stage
      case NoneRun => RunRelease(i)
      case Released => RunUnlist(i)
      case _ => RunCounter(i)
  }

  function Left(s: State): (n: nat)
    requires s.phase.Closing?
  {
    |s.phase.todo| + Sum(Load, s.creators)
  }

  lemma MoveLightens(cfg: Config, s: State, i: nat)
    requires i < |s.creators| && !AtRest(s.creators[i]) && CreatorOk(s.creators[i])
    requires s.creators[i].drained ==> s.creators[i].done
    requires s.creators[i].stage == Counted ==> s.creators[i].subscribed
    ensures var e := NextFor(s.creators[i], i);
            Enabled(s, e) &&
            var s' := Apply(cfg, s, e);
            s'.phase == s.phase && s'.outcome == s.outcome && s'.lost == s.lost && |s'.creators| == |s.creators| &&
            s'.creators == s.creators[i := s'.creators[i]] && Load(s'.creators[i]) < Load(s.creators[i])
  {
  }

  lemma CreatorMoves(cfg: Config, s: State, i: nat) returns (e: Event)
    requires Finishing(cfg, s) && i < |s.creators| && !AtRest(s.creators[i])
    ensures Enabled(s, e) && Finishing(cfg, Apply(cfg, s, e)) && Left(Apply(cfg, s, e)) < Left(s)
  {
    assert CreatorOk(s.creators[i]);
    MoveLightens(cfg, s, i);
    e := NextFor(s.creators[i], i);
    StepInv(cfg, s, e);
    StepCounts(cfg, s, e);
    SumSet(Load, s.creators, i, Apply(cfg, s, e).creators[i]);
  }

  lemma Subscribes(cfg: Config, s: State)
    requires Finishing(cfg, s) && s.phase.todo != []
    ensures Enabled(s, Subscribe) && Finishing(cfg, Apply(cfg, s, Subscribe)) && Left(Apply(cfg, s, Subscribe)) < Left(s)
  {
    var i := s.phase.todo[0];
    var s' := Apply(cfg, s, Subscribe);
    StepInv(cfg, s, Subscribe);
    StepCounts(cfg, s, Subscribe);
    SumSet(Load, s.creators, i, s'.creators[i]);
  }

  /** Every listener has run: all permits are back and can be taken. */
  lemma AllBack(cfg: Config, s: State)
    requires Finishing(cfg, s) && s.phase.todo == [] && forall i :: 0 <= i < |s.creators| ==> AtRest(s.creators[i])
    ensures s.counter == s.size > 0 && Plus(s.avail, s.taken) == cfg.max
  {
    SumZero(Owes, s.creators);
    HeldNone(s.creators, Udp);
    HeldNone(s.creators, Tcp);
  }

  lemma Takes(cfg: Config, s: State) returns (es: seq<Event>)
    requires Finishing(cfg, s) && s.phase.todo == [] && forall i :: 0 <= i < |s.creators| ==> AtRest(s.creators[i])
    ensures Possible(cfg, s, es) && Run(cfg, s, es).outcome == DoneOk
  {
    AllBack(cfg, s);
    if s.taken == Permits(0, 0) {
      var s1 := Apply(cfg, s, TakeUdp);
      Before(cfg, s1, TakeTcp, []);
      Before(cfg, s, TakeUdp, [TakeTcp] + []);
      es := [TakeUdp] + ([TakeTcp] + []);
    } else {
      Before(cfg, s, TakeTcp, []);
      es := [TakeTcp] + [];
    }
  }

  lemma Before(cfg: Config, s: State, e: Event, es: seq<Event>)
    requires Enabled(s, e) && Possible(cfg, Apply(cfg, s, e), es)
    ensures Possible(cfg, s, [e] + es) && Run(cfg, s, [e] + es) == Run(cfg, Apply(cfg, s, e), es)
  {
    assert ([e] + es)[1..] == es;
  }

  lemma {:induction false} Finishes(cfg: Config, s: State) returns (es: seq<Event>)
    requires Finishing(cfg, s)
    ensures Possible(cfg, s, es) && Run(cfg, s, es).outcome == DoneOk
    decreases Left(s)
  {
    if s.phase.todo != [] {
      Subscribes(cfg, s);
      var rest := Finishes(cfg, Apply(cfg, s, Subscribe));
      Before(cfg, s, Subscribe, rest);
      es := [Subscribe] + rest;
    } else if i :| 0 <= i < |s.creators| && !AtRest(s.creators[i]) {
      var e := CreatorMoves(cfg, s, i);
      var rest := Finishes(cfg, Apply(cfg, s, e));
      Before(cfg, s, e, rest);
      es := [e] + rest;
    } else {
      es := Takes(cfg, s);
    }
  }

  // ---------------------------------------------------------------- theorems

  /** With nothing lost, the shutdown can complete from wherever it is, once it has begun. */
  lemma ShutdownCanComplete(cfg: Config, es: seq<Event>) returns (more: seq<Event>)
    requires Possible(cfg, New(cfg), es)
    requires var s := Run(cfg, New(cfg), es); s.shutdown && s.outcome == Undecided && s.lost == Permits(0, 0)
    ensures Possible(cfg, Run(cfg, New(cfg), es), more) && Run(cfg, Run(cfg, New(cfg), es), more).outcome == DoneOk
  {
    var s := Run(cfg, New(cfg), es);
    RunCounts(cfg, New(cfg), es);
    more := Completes(cfg, s);
  }

  lemma Completes(cfg: Config, s: State) returns (more: seq<Event>)
    requires Inv(cfg, s) && Counting(cfg, s) && s.shutdown && s.outcome == Undecided && s.lost == Permits(0, 0)
    ensures Possible(cfg, s, more) && Run(cfg, s, more).outcome == DoneOk
  {
    if s.phase.Closing? {
      more := Finishes(cfg, s);
    } else {
      var s1 := Apply(cfg, s, CopyList);
      StepInv(cfg, s, CopyList);
      StepCounts(cfg, s, CopyList);
      var rest := [];
      if s1.phase.Closing? {
        rest := Finishes(cfg, s1);
      }
      Before(cfg, s, CopyList, rest);
      more := [CopyList] + rest;
    }
  }

  lemma LostKeeps(cfg: Config, s: State, e: Event)
    requires Inv(cfg, s) && Enabled(s, e) && s.phase.Closing? && s.outcome != DoneOk && s.lost != Permits(0, 0)
    ensures var s' := Apply(cfg, s, e); s'.phase.Closing? && s'.outcome != DoneOk && s'.lost != Permits(0, 0)
  {
    LostStep(cfg, s, e);
  }

  lemma {:induction false} LostHangs(cfg: Config, s: State, es: seq<Event>)
    requires Inv(cfg, s) && Possible(cfg, s, es) && s.phase.Closing? && s.outcome != DoneOk && s.lost != Permits(0, 0)
    ensures Run(cfg, s, es).outcome != DoneOk
    decreases |es|
  {
    if es != [] {
      LostKeeps(cfg, s, es[0]);
      StepInv(cfg, s, es[0]);
      LostHangs(cfg, Apply(cfg, s, es[0]), es[1..]);
    }
  }

  /** A shutdown that waits for creators can complete if and only if no block was lost. */
  lemma ShutdownCompletesExactly(cfg: Config, es: seq<Event>)
    requires Possible(cfg, New(cfg), es)
    requires var s := Run(cfg, New(cfg), es); s.phase.Closing? && s.outcome == Undecided
    ensures var s := Run(cfg, New(cfg), es);
            (exists more :: Possible(cfg, s, more) && Run(cfg, s, more).outcome == DoneOk) <==> s.lost == Permits(0, 0)
  {
    var s := Run(cfg, New(cfg), es);
    RunCounts(cfg, New(cfg), es);
    if s.lost == Permits(0, 0) {
      var more := Finishes(cfg, s);
      assert Possible(cfg, s, more);
    } else {
      forall more | Possible(cfg, s, more) ensures Run(cfg, s, more).outcome != DoneOk {
        LostHangs(cfg, s, more);
      }
    }
  }

  // ---------------------------------------------------------------- nothing new

  lemma ShutdownRefuses(cfg: Config, s: State, e: Event)
    requires Inv(cfg, s) && Enabled(s, e) && s.shutdown
    ensures var s' := Apply(cfg, s, e);
            s'.shutdown && |s'.creators| == |s.creators| && s'.pending == Idle && |s'.queue| <= |s.queue| &&
            (e.DropQueue? ==> s'.queue == [])
  {
  }

  /** From the moment the bulk shutdown is flagged no request is queued, no reservation is in progress and no creator
      is built, in any continuation. */
  lemma {:induction false} NothingNewAfterShutdown(cfg: Config, s: State, es: seq<Event>)
    requires Inv(cfg, s) && Possible(cfg, s, es) && s.shutdown
    ensures var s' := Run(cfg, s, es);
            s'.shutdown && |s'.creators| == |s.creators| && s'.pending == Idle && |s'.queue| <= |s.queue|
    decreases |es|
  {
    if es != [] {
      ShutdownRefuses(cfg, s, es[0]);
      StepInv(cfg, s, es[0]);
      NothingNewAfterShutdown(cfg, Apply(cfg, s, es[0]), es[1..]);
    }
  }
}
