/** The reservation queue of the client: one thread grants the requests in the order in which they were accepted. */
module ReservationOrder {
  import opened Reservation

  /** The request an event adds to the line: a create call that fits the limits, with three more datagram permits for
      each connection. */
  function Asked(cfg: Config, e: Event): (r: seq<Permits>) {
    match e
    case Create(unadjusted, tcp) =>
      if unadjusted + 3 * tcp <= cfg.max.udp && tcp <= cfg.max.tcp then [Permits(unadjusted + 3 * tcp, tcp)] else []
    case _ => []
  }

  function AskedIn(cfg: Config, es: seq<Event>): (r: seq<Permits>) {
    if es == [] then [] else Asked(cfg, es[0]) + AskedIn(cfg, es[1..])
  }

  function PermitsOf(cs: seq<Creator>): (r: seq<Permits>) {
    seq(|cs|, i requires 0 <= i < |cs| => cs[i].permits)
  }

  /** What was granted, what is being acquired, what waits. */
  function Line(s: State): (r: seq<Permits>) {
    PermitsOf(s.creators) + (if s.pending.Waiting? then [s.pending.permits] else []) + s.queue
  }

  /** Nothing is taken out of the line: no shutdown, no interrupt, and always an address to send from. */
  predicate KeepsLine(e: Event) {
    e != BulkShutdown && e != Interrupt && e != AcquireTcp(false)
  }

  /** The steps on the line itself. */
  predicate MovesLine(e: Event) {
    e.Create? || e.StartReservation? || e.AcquireUdp? || e.AcquireTcp?
  }

  lemma MoveStep(cfg: Config, s: State, e: Event)
    requires !s.shutdown && Enabled(s, e) && KeepsLine(e) && MovesLine(e)
    ensures !Apply(cfg, s, e).shutdown && Line(Apply(cfg, s, e)) == Line(s) + Asked(cfg, e)
  {
    if e == AcquireTcp(true) {
      assert PermitsOf(Apply(cfg, s, e).creators) == PermitsOf(s.creators) + [s.pending.permits];
    }
  }

  lemma OtherStep(cfg: Config, s: State, e: Event)
    requires !s.shutdown && Enabled(s, e) && KeepsLine(e) && !MovesLine(e)
    ensures var s' := Apply(cfg, s, e);
            !s'.shutdown && s'.queue == s.queue && s'.pending == s.pending && PermitsOf(s'.creators) == PermitsOf(s.creators)
  {
    var s' := Apply(cfg, s, e);
    if s'.creators != s.creators {
      assert |s'.creators| == |s.creators|;
      assert forall i :: 0 <= i < |s.creators| ==> s'.creators[i].permits == s.creators[i].permits;
    }
  }

  lemma LineStep(cfg: Config, s: State, e: Event)
    requires !s.shutdown && Enabled(s, e) && KeepsLine(e)
    ensures !Apply(cfg, s, e).shutdown && Line(Apply(cfg, s, e)) == Line(s) + Asked(cfg, e)
  {
    hide Apply, Enabled, PermitsOf;
    if MovesLine(e) {
      MoveStep(cfg, s, e);
    } else {
      OtherStep(cfg, s, e);
    }
  }

  /** First come, first served: creators have the permits of the first requests, in order; the next request is the one
      being acquired and the rest wait behind it. */
  lemma {:induction false} ServedInOrder(cfg: Config, s: State, es: seq<Event>)
    requires !s.shutdown && Possible(cfg, s, es) && forall i :: 0 <= i < |es| ==> KeepsLine(es[i])
    ensures Line(Run(cfg, s, es)) == Line(s) + AskedIn(cfg, es)
    decreases |es|
  {
    hide Apply, Enabled, Line, Asked;
    if es != [] {
      LineStep(cfg, s, es[0]);
      assert forall i :: 0 <= i < |es[1..]| ==> es[1..][i] == es[i + 1];
      ServedInOrder(cfg, Apply(cfg, s, es[0]), es[1..]);
    }
  }
}
