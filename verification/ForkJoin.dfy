/** `FutureForkJoin`: waits for `needed` successes among the slots of a shared array.

    A report is one slot handing in its result: a finished future, successful or
    not, or a slot that was empty when the join looked at it. */
module ForkJoin {

  import opened Wrappers

  datatype Outcome = Undecided | Ok | Failed

  datatype Verdict = Success | Failure | Null

  datatype Report = Report(index: nat, verdict: Verdict)

  /** `forks` is the shared array: the number of the future in each slot, if any. */
  datatype Join = Join(
    forks: seq<Option<nat>>,
    needed: int,
    counter: nat,
    successCounter: nat,
    copy: seq<nat>,
    outcome: Outcome)

  function New(forks: seq<Option<nat>>, needed: int): (j: Join) {
    Join(forks, needed, 0, 0, [], Undecided)
  }

  /** One report, as `evaluate` and the empty-slot branch of `join` treat it. */
  function Take(j: Join, r: Report): (j': Join)
    requires r.index < |j.forks| && (r.verdict == Null <==> j.forks[r.index].None?)
  {
    if r.verdict == Null then
      var j1 := j.(counter := j.counter + 1);
      if j1.counter >= |j.forks| && j.outcome == Undecided then j1.(outcome := Failed) else j1
    else if j.outcome != Undecided then j
    else
      var j1 := j.(copy := j.copy + [j.forks[r.index].value], forks := j.forks[r.index := None]);
      if r.verdict == Success && j.successCounter + 1 >= j.needed then
        j1.(successCounter := j.successCounter + 1, outcome := Ok)
      else
        var j2 := j1.(counter := j.counter + 1,
                      successCounter := j.successCounter + if r.verdict == Success then 1 else 0);
        if j2.counter >= |j.forks| then j2.(outcome := Failed) else j2
  }

  /** The slots that have reported. */
  function Reported(rs: seq<Report>): (s: set<nat>) {
    if rs == [] then {} else Reported(rs[..|rs| - 1]) + {rs[|rs| - 1].index}
  }

  /** No slot reports twice, and a report is `Null` exactly for a slot that started empty. */
  predicate Proper(forks: seq<Option<nat>>, rs: seq<Report>) {
    rs == [] ||
    var n := |rs| - 1;
    Proper(forks, rs[..n]) && rs[n].index !in Reported(rs[..n]) && rs[n].index < |forks| &&
    (rs[n].verdict == Null <==> forks[rs[n].index].None?)
  }

  function Successes(rs: seq<Report>): (n: nat) {
    if rs == [] then 0 else Successes(rs[..|rs| - 1]) + if rs[|rs| - 1].verdict == Success then 1 else 0
  }

  /** The join after a sequence of reports.  A finished future that reports after the join is decided
      finds its slot as it was, so it may be told apart from an empty one. */
  function After(forks: seq<Option<nat>>, needed: int, rs: seq<Report>): (j: Join)
    requires Proper(forks, rs)
    ensures |j.forks| == |forks| && j.needed == needed
    ensures forall i :: 0 <= i < |forks| && i !in Reported(rs) ==> j.forks[i] == forks[i]
  {
    if rs == [] then New(forks, needed)
    else Take(After(forks, needed, rs[..|rs| - 1]), rs[|rs| - 1])
  }

  /** The threshold in force: even a threshold below one is only looked at when a success comes in. */
  function Threshold(needed: int): (k: int) {
    if needed < 1 then 1 else needed
  }

  /** How the counters relate to the reports while the join is undecided, and what decided it. */
  ghost predicate Counted(j: Join, n: nat, reports: nat, successes: nat) {
    (j.outcome == Undecided ==> j.counter == reports < n && j.successCounter == successes < Threshold(j.needed)) &&
    (j.outcome == Ok ==> successes >= Threshold(j.needed)) &&
    (j.outcome == Failed ==> reports == n && successes < Threshold(j.needed))
  }

  lemma TakeCounts(j: Join, r: Report, reports: nat, successes: nat)
    requires r.index < |j.forks| && (r.verdict == Null <==> j.forks[r.index].None?)
    requires Counted(j, |j.forks|, reports, successes) && reports < |j.forks|
    ensures Counted(Take(j, r), |j.forks|, reports + 1, successes + if r.verdict == Success then 1 else 0)
  {
  }

  lemma {:induction false} AfterCounts(forks: seq<Option<nat>>, needed: int, rs: seq<Report>)
    requires Proper(forks, rs) && forks != []
    ensures |rs| <= |forks| && Counted(After(forks, needed, rs), |forks|, |rs|, Successes(rs))
  {
    AtMostAll(forks, rs);
    if rs != [] {
      var n := |rs| - 1;
      AfterCounts(forks, needed, rs[..n]);
      TakeCounts(After(forks, needed, rs[..n]), rs[n], n, Successes(rs[..n]));
    }
  }

  /** Distinct slots: no more reports than slots. */
  lemma AtMostAll(forks: seq<Option<nat>>, rs: seq<Report>)
    requires Proper(forks, rs)
    ensures |rs| <= |forks|
  {
    ReportedOnce(forks, rs);
    SetBelow(Reported(rs), |forks|);
  }

  lemma {:induction false} ReportedOnce(forks: seq<Option<nat>>, rs: seq<Report>)
    requires Proper(forks, rs)
    ensures |Reported(rs)| == |rs| && forall x :: x in Reported(rs) ==> x < |forks|
  {
    if rs != [] {
      ReportedOnce(forks, rs[..|rs| - 1]);
    }
  }

  lemma {:induction false} SetBelow(s: set<nat>, n: nat)
    requires forall x :: x in s ==> x < n
    ensures |s| <= n
  {
    if n > 0 {
      var last: nat := n - 1;
      SetBelow(s - {last}, last);
    }
  }

  /** For any number of slots, empty ones included, any threshold and any order of reports: the join is
      OK exactly when `needed` successes have come in, and failed exactly when every slot has reported
      and they have not. */
  lemma JoinOutcome(forks: seq<Option<nat>>, needed: int, rs: seq<Report>)
    requires Proper(forks, rs) && forks != []
    ensures var j := After(forks, needed, rs);
            (j.outcome == Ok <==> Successes(rs) >= Threshold(needed)) &&
            (j.outcome == Failed <==> |rs| == |forks| && Successes(rs) < Threshold(needed))
  {
    AfterCounts(forks, needed, rs);
  }

  /** `who` lists the slots whose futures were evaluated: each once, now empty, in the order of the
      copy, and every other slot is untouched. */
  ghost predicate Evaluated(forks: seq<Option<nat>>, j: Join, reported: set<nat>, who: seq<nat>) {
    |who| == |j.copy| && |j.forks| == |forks| &&
    (forall k :: 0 <= k < |who| ==> who[k] in reported && who[k] < |forks| && forks[who[k]] == Some(j.copy[k])) &&
    (forall i, k :: 0 <= i < k < |who| ==> who[i] != who[k]) &&
    (forall i :: 0 <= i < |forks| ==> j.forks[i] == if i in who then None else forks[i])
  }

  lemma TakeEvaluates(forks: seq<Option<nat>>, j: Join, reported: set<nat>, r: Report, who: seq<nat>)
    requires Evaluated(forks, j, reported, who) && r.index < |forks| && r.index !in reported
    requires r.verdict == Null <==> forks[r.index].None?
    ensures r.verdict == Null <==> j.forks[r.index].None?
    ensures Evaluated(forks, Take(j, r), reported + {r.index},
                      if j.outcome == Undecided && r.verdict != Null then who + [r.index] else who)
  {
    assert r.index !in who;
    if j.outcome == Undecided && r.verdict != Null {
      AppendEvaluated(forks, j, reported, r.index, who, Take(j, r));
    }
  }

  lemma AppendEvaluated(forks: seq<Option<nat>>, j: Join, reported: set<nat>, x: nat, who: seq<nat>, j': Join)
    requires Evaluated(forks, j, reported, who) && x < |forks| && x !in reported && forks[x].Some?
    requires j'.forks == j.forks[x := None] && j'.copy == j.copy + [forks[x].value]
    ensures Evaluated(forks, j', reported + {x}, who + [x])
  {
    var who' := who + [x];
    forall i | 0 <= i < |forks| ensures j'.forks[i] == if i in who' then None else forks[i] {
      assert i in who' <==> i in who || i == x;
    }
  }

  /** The slots emptied are exactly those of the futures evaluated before the decision, in that order. */
  lemma {:induction false} EvaluatedAreEmptied(forks: seq<Option<nat>>, needed: int, rs: seq<Report>) returns (who: seq<nat>)
    requires Proper(forks, rs)
    ensures Evaluated(forks, After(forks, needed, rs), Reported(rs), who)
  {
    if rs == [] {
      who := [];
    } else {
      var n := |rs| - 1;
      var before := After(forks, needed, rs[..n]);
      who := EvaluatedAreEmptied(forks, needed, rs[..n]);
      TakeEvaluates(forks, before, Reported(rs[..n]), rs[n], who);
      if before.outcome == Undecided && rs[n].verdict != Null {
        who := who + [rs[n].index];
      }
    }
  }

  /** The object: several joins in turn share one array of slots. */
  class FutureForkJoin {
    const forks: array<Option<nat>>
    const needed: int
    var counter: nat
    var successCounter: nat
    var forksCopy: seq<nat>
    var outcome: Outcome

    ghost function View(): (j: Join)
      reads this, forks
    {
      Join(forks[..], needed, counter, successCounter, forksCopy, outcome)
    }

    constructor (forks: array<Option<nat>>, needed: int)
      ensures this.forks == forks && View() == New(forks[..], needed)
    {
      this.forks, this.needed := forks, needed;
      counter, successCounter, forksCopy, outcome := 0, 0, [], Undecided;
    }

    /** `finish`: only the first decision counts. */
    method Finish(o: Outcome) returns (notifyNow: bool)
      modifies this`outcome
      ensures notifyNow <==> old(outcome) == Undecided
      ensures outcome == if old(outcome) == Undecided then o else old(outcome)
    {
      notifyNow := outcome == Undecided;
      if notifyNow {
        outcome := o;
      }
    }

    /** An empty slot met by `join`. */
    method CountEmpty(index: nat) returns (notifyNow: bool)
      requires index < forks.Length && forks[index].None?
      modifies this
      ensures View() == Take(old(View()), Report(index, Null))
      ensures notifyNow <==> old(outcome) == Undecided && outcome != Undecided
    {
      notifyNow := false;
      counter := counter + 1;
      if counter >= forks.Length && outcome == Undecided {
        notifyNow := Finish(Failed);
      }
    }

    /** A finished future, from its listener. */
    method Evaluate(index: nat, success: bool) returns (notifyNow: bool)
      requires index < forks.Length && forks[index].Some?
      modifies this, forks
      ensures View() == Take(old(View()), Report(index, if success then Success else Failure))
      ensures notifyNow <==> old(outcome) == Undecided && outcome != Undecided
    {
      notifyNow := false;
      if outcome != Undecided {
        return;
      }
      forksCopy := forksCopy + [forks[index].value];
      forks[index] := None;
      if success {
        successCounter := successCounter + 1;
      }
      if success && successCounter >= needed {
        notifyNow := Finish(Ok);
      } else {
        counter := counter + 1;
        if counter >= forks.Length {
          notifyNow := Finish(Failed);
        }
      }
    }
  }
}
