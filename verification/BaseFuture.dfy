/** The life of one future under concurrent use.

    Everything the original does inside one `synchronized (lock)` block is one
    step; every single call of a listener, which happens outside the lock, is a
    step of its own.  Any thread may take the next step.  A call stands for one
    `callOperationComplete`, which invokes a listener that does not throw once. */
module BaseFuture {

  datatype FutureType = Init | Ok | Failed | Cancel

  type Listener = nat

  /** How far the one thread that completed the future has got with `notifyListeners`. */
  datatype Notifier = Idle | Owed | Running(next: nat) | Finished

  datatype State = State(
    completed: bool,
    kind: FutureType,
    listeners: seq<Listener>,
    notifier: Notifier,
    direct: multiset<Listener>,      // calls owed by `addListener` on a completed future
    calls: seq<Listener>,            // calls made so far
    registered: multiset<Listener>)  // registrations that were not taken back

  datatype Event =
    | Complete(kind: FutureType)
    | Add(added: Listener)
    | Remove(removed: Listener)
    | StartNotify
    | NotifyNext
    | FinishNotify
    | CallDirect(called: Listener)

  function New(): (s: State) {
    State(false, Init, [], Idle, multiset{}, [], multiset{})
  }

  /** `List.remove`: the first occurrence, if there is one. */
  function RemoveFirst(s: seq<Listener>, l: Listener): (r: seq<Listener>) {
    if s == [] then [] else if s[0] == l then s[1..] else [s[0]] + RemoveFirst(s[1..], l)
  }

  lemma {:induction false} RemovesOne(s: seq<Listener>, l: Listener)
    ensures multiset(RemoveFirst(s, l)) == multiset(s) - multiset{l}
  {
    if s != [] {
      assert s == [s[0]] + s[1..];
      RemovesOne(s[1..], l);
    }
  }

  predicate Enabled(s: State, e: Event) {
    match e
    case Complete(kind) => kind != Init
    case Add(_) => true
    case Remove(_) => true
    case StartNotify => s.notifier == Owed
    case NotifyNext => s.notifier.Running? && s.notifier.next < |s.listeners|
    case FinishNotify => s.notifier.Running? && s.notifier.next == |s.listeners|
    case CallDirect(l) => l in s.direct
  }

  function Apply(s: State, e: Event): (s': State)
    requires Enabled(s, e)
  {
    match e
    case Complete(kind) => if s.completed then s else s.(completed := true, kind := kind, notifier := Owed)
    case Add(l) =>
      if s.completed then s.(direct := s.direct + multiset{l}, registered := s.registered + multiset{l})
      else s.(listeners := s.listeners + [l], registered := s.registered + multiset{l})
    case Remove(l) =>
      if s.completed then s
      else s.(listeners := RemoveFirst(s.listeners, l), registered := s.registered - multiset{l})
    case StartNotify => s.(notifier := Running(0))
    case NotifyNext => s.(calls := s.calls + [s.listeners[s.notifier.next]], notifier := Running(s.notifier.next + 1))
    case FinishNotify => s.(listeners := [], notifier := Finished)
    case CallDirect(l) => s.(direct := s.direct - multiset{l}, calls := s.calls + [l])
  }

  ghost predicate Possible(s: State, es: seq<Event>)
    decreases |es|
  {
    es == [] || (Enabled(s, es[0]) && Possible(Apply(s, es[0]), es[1..]))
  }

  function Run(s: State, es: seq<Event>): (s': State)
    requires Possible(s, es)
    decreases |es|
  {
    if es == [] then s else Run(Apply(s, es[0]), es[1..])
  }

  /** Registered listeners whose call is still to come from `notifyListeners`. */
  function Waiting(s: State): (m: multiset<Listener>) {
    match s.notifier
    case Idle => multiset(s.listeners)
    case Owed => multiset(s.listeners)
    case Running(n) => if n <= |s.listeners| then multiset(s.listeners[n..]) else multiset{}
    case Finished => multiset{}
  }

  ghost predicate Inv(s: State) {
    (s.completed <==> s.notifier != Idle) &&
    (s.completed <==> s.kind != Init) &&
    (!s.completed ==> s.calls == [] && s.direct == multiset{}) &&
    (s.notifier.Running? ==> s.notifier.next <= |s.listeners|) &&
    Balanced(s)
  }

  /** Calls made, calls owed and calls to come are the registrations. */
  ghost predicate Balanced(s: State) {
    multiset(s.calls) + s.direct + Waiting(s) == s.registered
  }

  lemma FromThird(a: multiset<Listener>, b: multiset<Listener>, c: multiset<Listener>, x: multiset<Listener>)
    ensures (a + x) + b + c == a + b + (x + c)
  {
  }

  lemma FromSecond(a: multiset<Listener>, b: multiset<Listener>, c: multiset<Listener>, x: multiset<Listener>)
    ensures (a + x) + b + c == a + (b + x) + c
  {
  }

  lemma IntoSecondOrThird(a: multiset<Listener>, b: multiset<Listener>, c: multiset<Listener>, x: multiset<Listener>)
    ensures a + (b + x) + c == (a + b + c) + x
    ensures a + b + (c + x) == (a + b + c) + x
  {
  }

  lemma NextBalanced(s: State)
    requires Inv(s) && Enabled(s, NotifyNext)
    ensures Balanced(Apply(s, NotifyNext))
  {
    CallOne(s.calls, s.direct, s.listeners, s.notifier.next);
  }

  /** Calling the listener at n moves it from those to come to those called. */
  lemma CallOne(calls: seq<Listener>, direct: multiset<Listener>, ls: seq<Listener>, n: nat)
    requires n < |ls|
    ensures multiset(calls + [ls[n]]) + direct + multiset(ls[n + 1..]) == multiset(calls) + direct + multiset(ls[n..])
  {
    var x, rest := ls[n], ls[n + 1..];
    assert ls[n..] == [x] + rest;
    assert multiset([x] + rest) == multiset{x} + multiset(rest);
    FromThird(multiset(calls), direct, multiset(rest), multiset{x});
    assert multiset(calls + [x]) == multiset(calls) + multiset{x};
  }

  lemma EdgesBalanced(s: State, e: Event)
    requires Inv(s) && Enabled(s, e) && (e.StartNotify? || e.FinishNotify?)
    ensures Balanced(Apply(s, e))
  {
    assert s.listeners[0..] == s.listeners;
    if e.FinishNotify? {
      assert s.listeners[s.notifier.next..] == [];
    }
  }

  lemma TakeOut(m: multiset<Listener>, x: Listener)
    requires x in m
    ensures m == (m - multiset{x}) + multiset{x}
  {
  }

  lemma DirectBalanced(s: State, x: Listener)
    requires Balanced(s) && x in s.direct
    ensures Balanced(Apply(s, CallDirect(x)))
  {
    var rest := s.direct - multiset{x};
    TakeOut(s.direct, x);
    FromSecond(multiset(s.calls), rest, Waiting(s), multiset{x});
    assert multiset(s.calls + [x]) == multiset(s.calls) + multiset{x};
  }

  lemma AddBalanced(s: State, x: Listener)
    requires Inv(s)
    ensures Balanced(Apply(s, Add(x)))
  {
    IntoSecondOrThird(multiset(s.calls), s.direct, Waiting(s), multiset{x});
    assert multiset(s.listeners + [x]) == multiset(s.listeners) + multiset{x};
  }

  lemma RemoveBalanced(s: State, x: Listener)
    requires Inv(s)
    ensures Balanced(Apply(s, Remove(x)))
  {
    if !s.completed {
      assert s.registered == multiset(s.listeners);
      RemovesOne(s.listeners, x);
    }
  }

  lemma StepInv(s: State, e: Event)
    requires Inv(s) && Enabled(s, e)
    ensures Inv(Apply(s, e))
  {
    match e
    case NotifyNext => NextBalanced(s);
    case StartNotify => EdgesBalanced(s, e);
    case FinishNotify => EdgesBalanced(s, e);
    case CallDirect(l) => DirectBalanced(s, l);
    case Add(l) => AddBalanced(s, l);
    case Remove(l) => RemoveBalanced(s, l);
    case Complete(_) =>
  }

  lemma {:induction false} RunInv(s: State, es: seq<Event>)
    requires Inv(s) && Possible(s, es)
    ensures Inv(Run(s, es))
    decreases |es|
  {
    if es != [] {
      StepInv(s, es[0]);
      RunInv(Apply(s, es[0]), es[1..]);
    }
  }

  /** The first completion in a sequence of events, if any. */
  function FirstCompletion(es: seq<Event>): (t: FutureType) {
    if es == [] then Init else if es[0].Complete? then es[0].kind else FirstCompletion(es[1..])
  }

  lemma {:induction false} KindStays(s: State, es: seq<Event>)
    requires Possible(s, es)
    ensures Run(s, es).completed == (s.completed || FirstCompletion(es) != Init)
    ensures Run(s, es).kind == if s.completed then s.kind else if FirstCompletion(es) == Init then s.kind else FirstCompletion(es)
    decreases |es|
  {
    if es != [] {
      KindStays(Apply(s, es[0]), es[1..]);
    }
  }

  /** The first completion fixes the outcome, whoever else tries to complete or cancel later. */
  lemma FirstCompletionWins(es: seq<Event>)
    requires Possible(New(), es)
    ensures Run(New(), es).kind == FirstCompletion(es)
    ensures Run(New(), es).completed <==> FirstCompletion(es) != Init
  {
    KindStays(New(), es);
  }

  /** No listener is called before the future is completed; every call answers a registration that was
      not taken back; and when the notifying threads are done, every such registration has been answered
      exactly once. */
  lemma CalledExactlyOnce(es: seq<Event>, l: Listener)
    requires Possible(New(), es)
    ensures var s := Run(New(), es);
            (!s.completed ==> s.calls == []) &&
            multiset(s.calls)[l] <= s.registered[l] &&
            (s.notifier == Finished && s.direct == multiset{} ==> multiset(s.calls)[l] == s.registered[l])
  {
    RunInv(New(), es);
    var s := Run(New(), es);
    assert (multiset(s.calls) + s.direct + Waiting(s))[l] == s.registered[l];
  }

  /** Which registrations count, told from the calls alone: every `addListener`, less one for each `removeListener`
      that comes before the completion and has something to remove. */
  function Registrations(es: seq<Event>, l: Listener, over: bool, n: nat): (r: nat)
    decreases |es|
  {
    if es == [] then n else Registrations(es[1..], l, over || es[0].Complete?, Registered(es[0], l, over, n))
  }

  function Registered(e: Event, l: Listener, over: bool, n: nat): (r: nat) {
    if e == Add(l) then n + 1 else if e == Remove(l) && !over && n > 0 then n - 1 else n
  }

  lemma RegisteredStep(s: State, e: Event, l: Listener)
    requires Enabled(s, e)
    ensures Apply(s, e).registered[l] == Registered(e, l, s.completed, s.registered[l])
    ensures Apply(s, e).completed == (s.completed || e.Complete?)
  {
  }

  lemma {:induction false} RegistrationsFrom(s: State, es: seq<Event>, l: Listener)
    requires Possible(s, es)
    ensures Run(s, es).registered[l] == Registrations(es, l, s.completed, s.registered[l])
    decreases |es|
  {
    hide Apply, Enabled, Registered;
    if es != [] {
      RegisteredStep(s, es[0], l);
      RegistrationsFrom(Apply(s, es[0]), es[1..], l);
    }
  }

  /** In every interleaving each listener is called as often as it was registered, once the notifying threads are
      done, and never more often. */
  lemma CallsAreRegistrations(es: seq<Event>, l: Listener)
    requires Possible(New(), es)
    ensures var s := Run(New(), es);
            multiset(s.calls)[l] <= Registrations(es, l, false, 0) &&
            (s.notifier == Finished && s.direct == multiset{} ==> multiset(s.calls)[l] == Registrations(es, l, false, 0))
  {
    CalledExactlyOnce(es, l);
    RegistrationsFrom(New(), es, l);
  }

  /** A removal takes the first occurrence and keeps the order of the rest. */
  lemma {:induction false} RemovesFirst(before: seq<Listener>, l: Listener, after: seq<Listener>)
    requires l !in before
    ensures RemoveFirst(before + [l] + after, l) == before + after
    ensures RemoveFirst(before, l) == before
  {
    var s := before + [l] + after;
    if before == [] {
      assert s[1..] == after;
    } else {
      assert s[0] == before[0] && s[1..] == before[1..] + [l] + after;
      RemovesFirst(before[1..], l, after);
      assert [before[0]] + (before[1..] + after) == before + after;
    }
  }

  /** And they always get done: after completion one of them can move, and what is owed shrinks. */
  lemma NotificationProgress(s: State)
    requires Inv(s) && s.completed && !(s.notifier == Finished && s.direct == multiset{})
    ensures exists e :: Enabled(s, e) && Owing(Apply(s, e)) < Owing(s)
  {
    if s.direct != multiset{} {
      var l :| l in s.direct;
      assert Enabled(s, CallDirect(l));
      assert Owing(Apply(s, CallDirect(l))) < Owing(s);
    } else {
      var e := if s.notifier == Owed then StartNotify else if s.notifier.next < |s.listeners| then NotifyNext else FinishNotify;
      assert Enabled(s, e) && Owing(Apply(s, e)) < Owing(s);
    }
  }

  /** Steps the notifying threads still have to take. */
  function Owing(s: State): (n: int) {
    |s.direct| + match s.notifier
                 case Idle => 0
                 case Owed => |s.listeners| + 2
                 case Running(n) => |s.listeners| - n + 1
                 case Finished => 0
  }

  // ---------------------------------------------------------------- the object, without interference

  lemma {:induction false} Then(s: State, es: seq<Event>, e: Event)
    requires Possible(s, es) && Enabled(Run(s, es), e)
    ensures Possible(s, es + [e]) && Run(s, es + [e]) == Apply(Run(s, es), e)
    decreases |es|
  {
    if es == [] {
      assert [e][1..] == [];
    } else {
      Then(Apply(s, es[0]), es[1..], e);
      assert (es + [e])[1..] == es[1..] + [e];
    }
  }

  /** The steps of `notifyListeners` from the listener at n on. */
  lemma {:induction false} NotifyFrom(s: State, es: seq<Event>, n: nat) returns (es': seq<Event>)
    requires Possible(s, es) && Run(s, es).notifier == Running(n) && n <= |Run(s, es).listeners|
    ensures Possible(s, es')
    ensures var now := Run(s, es); Run(s, es') == now.(listeners := [], notifier := Finished, calls := now.calls + now.listeners[n..])
    decreases |Run(s, es).listeners| - n
  {
    var now := Run(s, es);
    if n == |now.listeners| {
      Then(s, es, FinishNotify);
      es' := es + [FinishNotify];
      assert now.calls + now.listeners[n..] == now.calls;
    } else {
      Then(s, es, NotifyNext);
      es' := NotifyFrom(s, es + [NotifyNext], n + 1);
      assert now.calls + [now.listeners[n]] + now.listeners[n + 1..] == now.calls + now.listeners[n..];
    }
  }

  lemma NotifyRun(s: State, es: seq<Event>) returns (es': seq<Event>)
    requires Possible(s, es) && Run(s, es).notifier == Owed
    ensures Possible(s, es')
    ensures var now := Run(s, es); Run(s, es') == now.(listeners := [], notifier := Finished, calls := now.calls + now.listeners)
  {
    Then(s, es, StartNotify);
    es' := NotifyFrom(s, es + [StartNotify], 0);
    var ls := Run(s, es).listeners;
    assert ls[0..] == ls;
  }

  /** Every method is a run of steps from the old state to the new one; `es` is that run. */
  class Future {
    var completed: bool
    var kind: FutureType
    var listeners: seq<Listener>
    var calls: seq<Listener>
    ghost var notifier: Notifier
    ghost var direct: multiset<Listener>
    ghost var registered: multiset<Listener>

    ghost function View(): (s: State)
      reads this
    {
      State(completed, kind, listeners, notifier, direct, calls, registered)
    }

    constructor ()
      ensures View() == New()
    {
      completed, kind, listeners, calls := false, Init, [], [];
      notifier, direct, registered := Idle, multiset{}, multiset{};
    }

    method CompletedAndNotify() returns (first: bool)
      modifies this`completed
      ensures completed && first == !old(completed)
    {
      first := !completed;
      completed := true;
    }

    /** `failed`, `cancel` and the completing methods of the subclasses. */
    method Finish(t: FutureType) returns (ghost es: seq<Event>)
      requires t != Init
      modifies this
      ensures Possible(old(View()), es) && View() == Run(old(View()), es)
      ensures completed
      ensures old(completed) ==> View() == old(View())
      ensures !old(completed) ==> kind == t && calls == old(calls) + old(listeners) && listeners == []
    {
      ghost var s := View();
      es := [Complete(t)];
      Then(s, [], Complete(t));
      assert [] + es == es;
      var first := CompletedAndNotify();
      if !first {
        return;
      }
      kind := t;
      notifier := Owed;
      es := NotifyListeners(s, es);
    }

    /** Goes on with the run `es` from s. */
    method NotifyListeners(ghost s: State, ghost es: seq<Event>) returns (ghost es': seq<Event>)
      requires notifier == Owed && Possible(s, es) && View() == Run(s, es)
      modifies this`listeners, this`calls, this`notifier
      ensures Possible(s, es') && View() == Run(s, es')
      ensures calls == old(calls) + old(listeners) && listeners == []
    {
      es' := NotifyRun(s, es);
      var i := 0;
      while i < |listeners|
        invariant i <= |listeners| && listeners == old(listeners)
        invariant calls == old(calls) + listeners[..i]
      {
        calls := calls + [listeners[i]];
        i := i + 1;
      }
      listeners := [];
      notifier := Finished;
    }

    method AddListener(l: Listener) returns (ghost es: seq<Event>)
      modifies this`listeners, this`calls, this`registered
      ensures Possible(old(View()), es) && View() == Run(old(View()), es)
      ensures completed ==> calls == old(calls) + [l] && listeners == old(listeners)
      ensures !completed ==> listeners == old(listeners) + [l] && calls == old(calls)
    {
      ghost var s := View();
      es := [Add(l)];
      Then(s, [], Add(l));
      assert [] + es == es;
      registered := registered + multiset{l};
      var notifyNow := false;
      if completed {
        notifyNow := true;
      } else {
        listeners := listeners + [l];
      }
      if notifyNow {
        calls := calls + [l];
        Then(s, es, CallDirect(l));
        es := es + [CallDirect(l)];
        assert direct + multiset{l} - multiset{l} == direct;
      }
    }

    method RemoveListener(l: Listener) returns (ghost es: seq<Event>)
      modifies this`listeners, this`registered
      ensures Possible(old(View()), es) && View() == Run(old(View()), es)
      ensures listeners == if completed then old(listeners) else RemoveFirst(old(listeners), l)
    {
      ghost var s := View();
      es := [Remove(l)];
      Then(s, [], Remove(l));
      assert [] + es == es;
      if !completed {
        listeners := RemoveFirst(listeners, l);
        registered := registered - multiset{l};
      }
    }
  }
}
