/** What an answer does to a lookup, and why a lookup ends. */
module LookupOutcome {
  import opened Wrappers
  import opened RoutingMechanism
  import opened Lookup

  // ---------------------------------------------------------------- one answer

  /** A reported peer that is worth asking: nobody has asked it and the filter lets it pass. */
  predicate WorthAsking(cfg: Config, k: Knowledge, peers: seq<Peer>, p: Peer) {
    p in peers && p !in k.asked && !cfg.reject(p, k.asked + k.queue)
  }

  /** Some peer worth asking comes before everybody in the queue. */
  ghost predicate News(cfg: Config, k: Knowledge, peers: seq<Peer>) {
    exists p :: WorthAsking(cfg, k, peers, p) && forall q :: q in k.queue ==> cfg.before(p, q)
  }

  /** The knowledge after an answer that neither brings enough direct hits nor is one success too many. */
  ghost predicate Learned(cfg: Config, k: Knowledge, k': Knowledge, peers: seq<Peer>) {
    (forall p :: p in k'.queue <==> p in k.queue || WorthAsking(cfg, k, peers, p)) &&
    k'.nrNoNewInfo == if News(cfg, k, peers) then 0 else k.nrNoNewInfo + 1
  }

  /** What stays as it was when the reported peers are not looked at. */
  predicate NotLearned(k: Knowledge, k': Knowledge) {
    k'.queue == k.queue && k'.nrNoNewInfo == k.nrNoNewInfo
  }

  lemma KeptUnasked(cfg: Config, k: Knowledge, peers: seq<Peer>)
    ensures var unasked := Unasked(Kept(cfg, k.asked + k.queue, peers), k.asked);
            (forall p :: p in unasked <==> WorthAsking(cfg, k, peers, p)) &&
            (Nearer(cfg.before, unasked, k.queue) <==> News(cfg, k, peers))
  {
    KeptAreReported(cfg, k.asked + k.queue, peers);
    var unasked := Unasked(Kept(cfg, k.asked + k.queue, peers), k.asked);
    assert forall p :: p in unasked <==> WorthAsking(cfg, k, peers, p);
    if Nearer(cfg.before, unasked, k.queue) {
      var p :| p in unasked && forall q :: q in k.queue ==> cfg.before(p, q);
      assert WorthAsking(cfg, k, peers, p);
    }
    if News(cfg, k, peers) {
      var p :| WorthAsking(cfg, k, peers, p) && forall q :: q in k.queue ==> cfg.before(p, q);
      assert p in unasked;
    }
  }

  function Hits(k: Knowledge, a: Answer): (hits: map<Peer, Digest>) {
    if a.digest.size > 0 then k.directHits[a.sender := a.digest] else k.directHits
  }

  predicate Enough(cfg: Config, k: Knowledge, a: Answer) {
    a.digest.size > 0 && |Hits(k, a)| >= cfg.maxDirectHits
  }

  /** No news for too long. */
  predicate Stale(cfg: Config, k: Knowledge) {
    k.nrNoNewInfo > 0 && k.nrNoNewInfo >= cfg.maxNoNewInfo
  }

  /** What an answer does.  The sender becomes a potential hit, and a direct hit if it has data.  Enough direct hits
      end the lookup.  Otherwise the answer counts as a success; one too many, or no news for too long, forbids
      new requests and ends the lookup if no other request runs.  In all other cases the lookup goes on and may
      send new requests. */
  ghost predicate AnswerTaken(cfg: Config, k: Knowledge, a: Answer, last: bool, k': Knowledge, done: bool) {
    k'.directHits == Hits(k, a) && k'.potentialHits == k.potentialHits + {a.sender} && k'.asked == k.asked && k'.nrFailures == k.nrFailures &&
    if Enough(cfg, k, a) then NotLearned(k, k') && k'.nrSuccess == k.nrSuccess && k'.stop && done
    else
      k'.nrSuccess == k.nrSuccess + 1 &&
      if k'.nrSuccess > cfg.maxSuccess then NotLearned(k, k') && k'.stop && done == last
      else Learned(cfg, k, k', a.neighbors) && k'.stop == Stale(cfg, k') && done == (k'.stop && last)
  }

  lemma EvaluationTakes(cfg: Config, k: Knowledge, a: Answer, last: bool)
    ensures var e := EvaluateSuccess(cfg, k.(potentialHits := k.potentialHits + {a.sender}), a.sender, a.digest, a.neighbors, last);
            AnswerTaken(cfg, k, a, last, e.knowledge, e.finished)
  {
    hide Learned, WorthAsking, News, Nearer, Kept, Unasked;
    var k1 := k.(potentialHits := k.potentialHits + {a.sender});
    var e := EvaluateSuccess(cfg, k1, a.sender, a.digest, a.neighbors, last);
    if !Enough(cfg, k, a) && k.nrSuccess < cfg.maxSuccess {
      LearnedFrom(cfg, k, k1, a.neighbors, e.knowledge);
    }
  }

  /** The whole effect of an answer on the lookup. */
  lemma AnswerEffect(cfg: Config, s: State)
    requires s.phase.Joined? && s.phase.decision.Succeeded?
    ensures var s' := Step(cfg, s, Continue);
            AnswerTaken(cfg, s.k, s.phase.decision.answer, s.phase.last, s'.k, s'.phase.Done?) &&
            s'.slots == s.slots && s'.polled == s.polled && s'.consumed == s.consumed &&
            (!s'.phase.Done? ==> s'.phase == Launch(0, 0, !s.keyKnown))
  {
    hide AnswerTaken, EvaluateSuccess;
    EvaluationTakes(cfg, s.k, s.phase.decision.answer, s.phase.last);
  }

  lemma LearnedFrom(cfg: Config, k: Knowledge, k1: Knowledge, peers: seq<Peer>, k': Knowledge)
    requires k1.asked == k.asked && k1.queue == k.queue && k1.nrNoNewInfo == k.nrNoNewInfo
    requires var unasked := Unasked(Kept(cfg, k1.asked + k1.queue, peers), k1.asked);
             k'.queue == k1.queue + unasked && k'.nrNoNewInfo == if Nearer(cfg.before, unasked, k1.queue) then 0 else k1.nrNoNewInfo + 1
    ensures Learned(cfg, k, k', peers)
  {
    KeptUnasked(cfg, k1, peers);
    SameWorth(cfg, k, k1, peers);
  }

  /** Potential hits have no part in what is worth asking. */
  lemma SameWorth(cfg: Config, k: Knowledge, k1: Knowledge, peers: seq<Peer>)
    requires k1.asked == k.asked && k1.queue == k.queue
    ensures forall p :: WorthAsking(cfg, k, peers, p) <==> WorthAsking(cfg, k1, peers, p)
    ensures News(cfg, k, peers) <==> News(cfg, k1, peers)
  {
    if News(cfg, k, peers) {
      var p :| WorthAsking(cfg, k, peers, p) && forall q :: q in k.queue ==> cfg.before(p, q);
      assert WorthAsking(cfg, k1, peers, p);
    }
    if News(cfg, k1, peers) {
      var p :| WorthAsking(cfg, k1, peers, p) && forall q :: q in k1.queue ==> cfg.before(p, q);
      assert WorthAsking(cfg, k, peers, p);
    }
  }

  /** The whole effect of a round in which every request failed. */
  lemma FailureEffect(cfg: Config, s: State)
    requires s.phase.Joined? && s.phase.decision.AllFailed?
    ensures var s' := Step(cfg, s, Continue);
            s'.k == s.k.(nrFailures := s.k.nrFailures + 1, stop := s.k.nrFailures + 1 > cfg.maxFailures) &&
            (s'.phase.Done? <==> s.k.nrFailures + 1 > cfg.maxFailures) &&
            (!s'.phase.Done? ==> s'.phase == Launch(0, 0, !s.keyKnown))
  {
  }

  // ---------------------------------------------------------------- why a lookup ends

  /** One of the limits is reached. */
  predicate LimitReached(cfg: Config, k: Knowledge) {
    |k.directHits| >= cfg.maxDirectHits || k.nrSuccess > cfg.maxSuccess || Stale(cfg, k) || k.nrFailures > cfg.maxFailures
  }

  /** New requests are forbidden only by a limit; a launch loop that has sent none although it could has found the
      queue empty; a lookup that is done has reached a limit or has nobody left to ask. */
  ghost predicate Justified(cfg: Config, s: State) {
    (s.k.stop ==> LimitReached(cfg, s.k)) &&
    (s.phase.Launch? && s.phase.i > 0 && s.phase.active == 0 && !s.k.stop ==> s.k.queue == {}) &&
    (s.phase.Done? ==> LimitReached(cfg, s.k) || s.k.queue == {})
  }

  lemma ContinueJustified(cfg: Config, s: State)
    requires Justified(cfg, s) && s.phase.Joined?
    ensures Justified(cfg, Step(cfg, s, Continue))
  {
    if s.phase.decision.Succeeded? {
      AnswerEffect(cfg, s);
    } else {
      FailureEffect(cfg, s);
    }
  }

  lemma StepJustified(cfg: Config, parallel: nat, s: State, e: Event)
    requires parallel >= 1 && RoundOk(cfg, parallel, s) && Justified(cfg, s) && Enabled(cfg, s, e)
    ensures Justified(cfg, Step(cfg, s, e))
  {
    if e.Continue? {
      ContinueJustified(cfg, s);
    }
  }

  lemma {:induction false} RunJustified(cfg: Config, parallel: nat, s: State, es: seq<Event>)
    requires parallel >= 1 && Inv(cfg, parallel, s) && Justified(cfg, s) && Possible(cfg, s, es)
    ensures Justified(cfg, Run(cfg, s, es))
    decreases |es|
  {
    if es != [] {
      var s' := Step(cfg, s, es[0]);
      StepJustified(cfg, parallel, s, es[0]);
      StepRound(cfg, parallel, s, es[0]);
      StepPeers(cfg, s, es[0]);
      StepRequests(cfg, s, es[0]);
      StepSent(cfg, parallel, s, es[0]);
      RunJustified(cfg, parallel, s', es[1..]);
    }
  }

  /** A lookup goes on while it should: it is done only when it has its direct hits, has had more successes than
      asked for, has had no news for too long, has had too many failed rounds, or has nobody left to ask. */
  lemma DoneForAReason(cfg: Config, self: Peer, start: set<Peer>, own: Option<Digest>, parallel: nat, random: bool, es: seq<Event>)
    requires parallel >= 1 && Possible(cfg, Init(cfg, self, start, own, parallel, random), es)
    ensures var s := Run(cfg, Init(cfg, self, start, own, parallel, random), es);
            s.phase.Done? ==>
              |s.k.directHits| >= cfg.maxDirectHits || s.k.nrSuccess > cfg.maxSuccess ||
              (s.k.nrNoNewInfo > 0 && s.k.nrNoNewInfo >= cfg.maxNoNewInfo) || s.k.nrFailures > cfg.maxFailures || s.k.queue == {}
  {
    InitInv(cfg, self, start, own, parallel, random);
    RunJustified(cfg, parallel, Init(cfg, self, start, own, parallel, random), es);
  }

  // ---------------------------------------------------------------- the order of asking

  /** Only the first round of a search without a key polls at random. */
  ghost predicate Ordered(random: bool, s: State) {
    (!random || s.polled != [] ==> s.keyKnown) &&
    (s.phase.Joining? || s.phase.Joined? ==> s.keyKnown) &&
    (s.phase.Launch? && s.phase.random ==> random && s.consumed == {})
  }

  lemma StepOrdered(cfg: Config, parallel: nat, random: bool, s: State, e: Event)
    requires RoundOk(cfg, parallel, s) && RequestsOk(s) && Ordered(random, s) && Enabled(cfg, s, e)
    ensures Ordered(random, Step(cfg, s, e))
  {
    hide EvaluateSuccess, EvaluateFailed, Distinct;
    if e.LaunchEnd? {
      assert s.slots[..|s.slots|] == s.slots;
    }
  }

  lemma {:induction false} RunOrdered(cfg: Config, parallel: nat, random: bool, s: State, es: seq<Event>)
    requires Inv(cfg, parallel, s) && Ordered(random, s) && Possible(cfg, s, es)
    ensures Ordered(random, Run(cfg, s, es))
    decreases |es|
  {
    if es != [] {
      StepOrdered(cfg, parallel, random, s, es[0]);
      StepRound(cfg, parallel, s, es[0]);
      StepPeers(cfg, s, es[0]);
      StepRequests(cfg, s, es[0]);
      StepSent(cfg, parallel, s, es[0]);
      RunOrdered(cfg, parallel, random, Step(cfg, s, es[0]), es[1..]);
    }
  }

  /** In every run, a peer that is polled is the first of the queue, unless this is the first round of a random
      search: no answer has been looked at yet. */
  lemma PollsInOrder(cfg: Config, self: Peer, start: set<Peer>, own: Option<Digest>, parallel: nat, random: bool, es: seq<Event>, p: Peer)
    requires Possible(cfg, Init(cfg, self, start, own, parallel, random), es)
    requires Enabled(cfg, Run(cfg, Init(cfg, self, start, own, parallel, random), es), LaunchStep(Some(p)))
    ensures var s := Run(cfg, Init(cfg, self, start, own, parallel, random), es);
            p in s.k.queue && ((forall q :: q in s.k.queue ==> q == p || cfg.before(p, q)) || (random && s.consumed == {})) &&
            Step(cfg, s, LaunchStep(Some(p))).polled == s.polled + [p] && Step(cfg, s, LaunchStep(Some(p))).k.queue == s.k.queue - {p}
  {
    InitInv(cfg, self, start, own, parallel, random);
    RunOrdered(cfg, parallel, random, Init(cfg, self, start, own, parallel, random), es);
  }

  // ---------------------------------------------------------------- no answer is lost

  /** Request `id` is in slot `j` with its result: an answer, or none when it failed. */
  ghost predicate Completed(s: State, j: nat, id: nat, result: Option<Answer>) {
    j < |s.slots| && !s.slots[j].Free? && s.slots[j].id == id && id !in s.consumed &&
    if result.Some? then s.slots[j].Answered? && s.slots[j].answer == result.value else s.slots[j].Errored?
  }

  /** A join takes the result: an answer decides the join, and is what the evaluation then sees; a failure never
      makes the join a success. */
  ghost predicate Used(s: State, s': State, j: nat, result: Option<Answer>) {
    s.phase.Joining? && |s'.slots| == |s.slots| && j < |s.slots| && s'.slots[j].Free? &&
    if result.Some? then s'.phase == Joined(s.phase.last, Succeeded(result.value))
    else !(s'.phase.Joined? && s'.phase.decision.Succeeded?)
  }

  /** The result stays in its slot until a join takes it. */
  lemma StepKeepsResult(cfg: Config, s: State, e: Event, j: nat, id: nat, result: Option<Answer>)
    requires RequestsOk(s) && Completed(s, j, id, result) && Enabled(cfg, s, e)
    ensures var s' := Step(cfg, s, e); if id in s'.consumed then Used(s, s', j, result) else Completed(s', j, id, result)
  {
    hide RequestsOk, DoReport, DoContinue, EvaluateSuccess, EvaluateFailed;
    match e
    case JoinStep => ReportKeepsResult(s, s.phase.i, s.phase.i + 1, j, id, result);
    case Fire(x) => ReportKeepsResult(s, x, s.phase.i, j, id, result);
    case Continue => ContinueKeepsSlots(cfg, s);
    case _ =>
  }

  lemma ContinueKeepsSlots(cfg: Config, s: State)
    requires s.phase.Joined?
    ensures DoContinue(cfg, s).slots == s.slots && DoContinue(cfg, s).consumed == s.consumed
  {
    hide EvaluateSuccess, EvaluateFailed;
  }

  lemma ReportKeepsResult(s: State, x: nat, i: nat, j: nat, id: nat, result: Option<Answer>)
    requires RequestsOk(s) && s.phase.Joining? && x < |s.slots| && Completed(s, j, id, result)
    ensures var s' := DoReport(s, x, i); if id in s'.consumed then Used(s, s', j, result) else Completed(s', j, id, result)
  {
    hide Tally;
    assert x != j && !s.slots[x].Free? ==> s.slots[x].id != id;
  }

  lemma {:induction false} RunKeepsResult(cfg: Config, s: State, es: seq<Event>, j: nat, id: nat, result: Option<Answer>)
    requires RequestsOk(s) && Completed(s, j, id, result) && Possible(cfg, s, es) && id !in Run(cfg, s, es).consumed
    ensures RequestsOk(Run(cfg, s, es)) && Completed(Run(cfg, s, es), j, id, result)
    decreases |es|
  {
    if es != [] {
      var s' := Step(cfg, s, es[0]);
      StepKeepsResult(cfg, s, es[0], j, id, result);
      StepRequests(cfg, s, es[0]);
      if id in s'.consumed {
        ConsumedStays(cfg, s', es[1..], id);
      } else {
        RunKeepsResult(cfg, s', es[1..], j, id, result);
      }
    }
  }

  lemma {:induction false} ConsumedStays(cfg: Config, s: State, es: seq<Event>, id: nat)
    requires Possible(cfg, s, es) && id in s.consumed
    ensures id in Run(cfg, s, es).consumed
    decreases |es|
  {
    if es != [] {
      ConsumedStays(cfg, Step(cfg, s, es[0]), es[1..], id);
    }
  }

  /** In every run: the result of a request waits in its slot, through any number of steps, until one join takes it;
      that join succeeds with exactly this answer, or counts a failure. */
  lemma NoAnswerLost(cfg: Config, self: Peer, start: set<Peer>, own: Option<Digest>, parallel: nat, random: bool,
                     es: seq<Event>, j: nat, result: Option<Answer>, more: seq<Event>, e: Event)
    requires Possible(cfg, Init(cfg, self, start, own, parallel, random), es)
    requires var s := Run(cfg, Init(cfg, self, start, own, parallel, random), es); Enabled(cfg, s, Complete(j, result))
    requires var s := Run(cfg, Init(cfg, self, start, own, parallel, random), es);
             var s1 := Step(cfg, s, Complete(j, result));
             Possible(cfg, s1, more) && s.slots[j].id !in Run(cfg, s1, more).consumed && Enabled(cfg, Run(cfg, s1, more), e)
    ensures var s := Run(cfg, Init(cfg, self, start, own, parallel, random), es);
            var s2 := Run(cfg, Step(cfg, s, Complete(j, result)), more);
            var s3 := Step(cfg, s2, e);
            Completed(s2, j, s.slots[j].id, result) &&
            if s.slots[j].id in s3.consumed then Used(s2, s3, j, result) else Completed(s3, j, s.slots[j].id, result)
  {
    var s0 := Init(cfg, self, start, own, parallel, random);
    InitInv(cfg, self, start, own, parallel, random);
    RunInv(cfg, parallel, s0, es);
    var s := Run(cfg, s0, es);
    StepRequests(cfg, s, Complete(j, result));
    var s1 := Step(cfg, s, Complete(j, result));
    var id := s.slots[j].id;
    assert Completed(s1, j, id, result);
    RunKeepsResult(cfg, s1, more, j, id, result);
    StepKeepsResult(cfg, Run(cfg, s1, more), e, j, id, result);
  }

  // ---------------------------------------------------------------- who counts as asked

  /** The asked peers are the local one and those polled; the local peer is a potential hit from the start. */
  ghost predicate AskedOk(self: Peer, s: State) {
    (forall p :: p in s.k.asked <==> p == self || p in s.polled) && self in s.k.potentialHits
  }

  lemma StepAsked(cfg: Config, self: Peer, s: State, e: Event)
    requires AskedOk(self, s) && Enabled(cfg, s, e)
    ensures AskedOk(self, Step(cfg, s, e))
  {
    if e.Continue? {
      if s.phase.decision.Succeeded? {
        AnswerEffect(cfg, s);
      } else {
        FailureEffect(cfg, s);
      }
    }
  }

  lemma {:induction false} RunAsked(cfg: Config, self: Peer, s: State, es: seq<Event>)
    requires AskedOk(self, s) && Possible(cfg, s, es)
    ensures AskedOk(self, Run(cfg, s, es))
    decreases |es|
  {
    if es != [] {
      StepAsked(cfg, self, s, es[0]);
      RunAsked(cfg, self, Step(cfg, s, es[0]), es[1..]);
    }
  }

  /** In every run the asked peers are exactly the local peer and those a request was sent to. */
  lemma AskedExactly(cfg: Config, self: Peer, start: set<Peer>, own: Option<Digest>, parallel: nat, random: bool, es: seq<Event>)
    requires Possible(cfg, Init(cfg, self, start, own, parallel, random), es)
    ensures var s := Run(cfg, Init(cfg, self, start, own, parallel, random), es);
            (forall p :: p in s.k.asked <==> p == self || p in s.polled) && self in s.k.potentialHits
  {
    RunAsked(cfg, self, Init(cfg, self, start, own, parallel, random), es);
  }

  /** A lookup with enough data of its own, or with nobody to ask, is over before it sends anything; any other starts
      with the given peers in its queue and its own data as a direct hit. */
  lemma StartEffect(cfg: Config, self: Peer, start: set<Peer>, own: Option<Digest>, parallel: nat, random: bool)
    ensures var s := Init(cfg, self, start, own, parallel, random);
            s.k.queue == start && s.polled == [] && |s.slots| == parallel && Occupied(s) == 0 &&
            (self in s.k.directHits <==> own.Some? && own.value.size > 0) && (forall p :: p in s.k.directHits ==> p == self) &&
            (s.phase.Done? <==> |s.k.directHits| >= cfg.maxDirectHits || start == {}) &&
            (!s.phase.Done? ==> s.phase == Launch(0, 0, random))
  {
    NoneBusy(Init(cfg, self, start, own, parallel, random).slots);
  }
}
