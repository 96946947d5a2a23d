/** What every interleaving of the bulk workers keeps. */
module BulkLaws {
  import opened Wrappers
  import opened BulkJob

  // ----- sums over the workers

  function Sum(workers: seq<Worker>, weight: Worker -> int): int {
    if workers == [] then 0 else weight(workers[0]) + Sum(workers[1..], weight)
  }

  function Taken(k: Worker): int { k.pos }

  function Length(k: Worker): int { |k.devs| }

  function InHand(k: Worker): int { if k.busy then 1 else 0 }

  function Untouched(k: Worker): int { |k.devs| - k.pos - InHand(k) }

  /** The steps a worker has left: two a device, and leaving the loop. */
  function StepsLeft(k: Worker): int {
    2 * (|k.devs| - k.pos) - InHand(k) + if k.exited then 0 else 1
  }

  lemma {:induction false} SumUpdate(workers: seq<Worker>, w: nat, k: Worker, weight: Worker -> int)
    requires w < |workers|
    ensures Sum(workers[w := k], weight) == Sum(workers, weight) - weight(workers[w]) + weight(k)
  {
    if w > 0 {
      SumUpdate(workers[1..], w - 1, k, weight);
      assert workers[w := k][1..] == workers[1..][w - 1 := k];
    } else {
      assert workers[w := k][1..] == workers[1..];
    }
  }

  lemma {:induction false} SumOfThree(workers: seq<Worker>)
    ensures Sum(workers, Taken) + Sum(workers, InHand) + Sum(workers, Untouched) == Sum(workers, Length)
  {
    if workers != [] {
      SumOfThree(workers[1..]);
    }
  }

  lemma {:induction false} SumOfEqual(workers: seq<Worker>)
    requires forall w | 0 <= w < |workers| :: workers[w].pos == |workers[w].devs|
    ensures Sum(workers, Taken) == Sum(workers, Length)
  {
    if workers != [] {
      SumOfEqual(workers[1..]);
    }
  }

  lemma {:induction false} StepsLeftBounds(workers: seq<Worker>)
    requires forall w | 0 <= w < |workers| :: WellPlaced(workers[w])
    ensures 0 <= Sum(workers, StepsLeft)
    ensures Sum(workers, StepsLeft) <= 2 * (Sum(workers, Length) - Sum(workers, Taken)) + |workers|
  {
    if workers != [] {
      StepsLeftBounds(workers[1..]);
    }
  }

  // ----- the invariant

  predicate WellPlaced(k: Worker) {
    k.pos <= |k.devs| && (k.busy ==> k.pos < |k.devs| && !k.exited)
  }

  ghost predicate Inv(s: State) {
    && (forall w | 0 <= w < |s.workers| :: WellPlaced(s.workers[w]))
    && (forall w | 0 <= w < |s.workers| && s.workers[w].exited ::
          s.workers[w].pos == |s.workers[w].devs| || s.job.cancel)
    && s.job.done == s.job.ok + s.job.fail && s.job.fail == |s.job.failures|
    && s.job.done == Sum(s.workers, Taken) && s.job.total == Sum(s.workers, Length)
    && (s.job.active ==> s.job.result == None)
    && (!s.job.active ==>
          && (forall w | 0 <= w < |s.workers| :: s.workers[w].exited)
          && (s.job.result.Some? ==>
                s.job.result.value == Summary(s.job.total, s.job.ok, s.job.fail, s.job.failures, s.job.cancel,
                  s.job.manual)))
  }

  lemma StepKeepsInv(s: State, e: Event)
    requires Inv(s) && Enabled(s, e)
    ensures Inv(Apply(s, e))
  {
    hide Sum;
    match e {
      case Begin(w) =>
        var k := s.workers[w].(busy := true);
        SumUpdate(s.workers, w, k, Taken);
        SumUpdate(s.workers, w, k, Length);
      case End(w, res) =>
        var k := s.workers[w].(pos := s.workers[w].pos + 1, busy := false);
        SumUpdate(s.workers, w, k, Taken);
        SumUpdate(s.workers, w, k, Length);
      case Leave(w) =>
        var k := s.workers[w].(exited := true);
        SumUpdate(s.workers, w, k, Taken);
        SumUpdate(s.workers, w, k, Length);
      case _ =>
    }
  }

  lemma {:induction false} RunKeepsInv(s: State, events: seq<Event>)
    requires Inv(s) && Runs(s, events)
    ensures Inv(After(s, events))
    decreases |events|
  {
    hide Inv, Apply, Enabled;
    if events != [] {
      StepKeepsInv(s, events[0]);
      RunKeepsInv(Apply(s, events[0]), events[1..]);
    }
  }

  // ----- how a job starts

  function SumDevs(named: seq<Request>, proxies: seq<string>): nat {
    if proxies == [] then 0 else |DevsOf(named, proxies[0])| + SumDevs(named, proxies[1..])
  }

  lemma {:induction false} SumDevsConcat(named: seq<Request>, a: seq<string>, b: seq<string>)
    ensures SumDevs(named, a + b) == SumDevs(named, a) + SumDevs(named, b)
  {
    if a == [] {
      assert a + b == b;
    } else {
      assert (a + b)[1..] == a[1..] + b;
      SumDevsConcat(named, a[1..], b);
    }
  }

  predicate NoRepeats(ps: seq<string>) {
    forall i, j | 0 <= i < j < |ps| :: ps[i] != ps[j]
  }

  lemma {:induction false} SumDevsStep(named: seq<Request>, r: Request, ps: seq<string>)
    requires NoRepeats(ps)
    ensures SumDevs(named + [r], ps) == SumDevs(named, ps) + if r.proxy in ps then 1 else 0
  {
    GroupStep(named, r);
    if ps != [] {
      hide DevsOf;
      SumDevsStep(named, r, ps[1..]);
      assert r.proxy in ps <==> r.proxy == ps[0] || r.proxy in ps[1..];
    }
  }

  /** Grouping loses no device and invents none: the proxies are distinct and their devices add up. */
  lemma {:induction false} GroupsAddUp(named: seq<Request>)
    ensures NoRepeats(Proxies(named)) && SumDevs(named, Proxies(named)) == |named|
  {
    if named == [] {
      assert Proxies(named) == [];
    } else {
      hide Proxies, DevsOf, SumDevs;
      var before, r := named[..|named| - 1], named[|named| - 1];
      assert named == before + [r];
      GroupsAddUp(before);
      GroupStep(before, r);
      var ps := Proxies(before);
      SumDevsStep(before, r, ps);
      if r.proxy !in ps {
        SumDevsConcat(named, ps, [r.proxy]);
        NoDevsWithoutProxy(before, r.proxy);
        SumDevsOne(named, r.proxy);
      }
    }
  }

  lemma SumDevsOne(named: seq<Request>, proxy: string)
    ensures SumDevs(named, [proxy]) == |DevsOf(named, proxy)|
  {
    hide DevsOf;
    assert [proxy][1..] == [] && SumDevs(named, []) == 0;
  }

  lemma {:induction false} WorkerLengths(named: seq<Request>, workers: seq<Worker>, ps: seq<string>)
    requires |workers| == |ps|
    requires forall i | 0 <= i < |ps| :: workers[i] == Worker(DevsOf(named, ps[i]), 0, false, false)
    ensures Sum(workers, Length) == SumDevs(named, ps) && Sum(workers, Taken) == 0
  {
    if ps != [] {
      WorkerLengths(named, workers[1..], ps[1..]);
    }
  }

  lemma StartHoldsInv(requests: seq<Request>)
    requires Started(requests).Some?
    ensures Inv(Started(requests).value)
  {
    var named := Named(requests);
    hide Named;
    GroupsAddUp(named);
    WorkerLengths(named, WorkersFor(named), Proxies(named));
  }

  // ----- the job's promises

  /**
   In every state a job can reach: what is done is what went well plus what failed, each failure is listed,
   what is done, in hand and untouched adds up to the total, and a job that ended without being cancelled
   has dealt with every device and reports just that.
   */
  lemma CountsAddUp(requests: seq<Request>, events: seq<Event>)
    requires Started(requests).Some? && Runs(Started(requests).value, events)
    ensures var s := After(Started(requests).value, events);
            && s.job.done == s.job.ok + s.job.fail && s.job.fail == |s.job.failures|
            && s.job.done + Sum(s.workers, InHand) + Sum(s.workers, Untouched) == s.job.total
            && (!s.job.active && !s.job.cancel ==> s.job.ok + s.job.fail == s.job.total)
            && (s.job.result.Some? ==>
                  && !s.job.active && s.job.result.value.cancelled == s.job.cancel
                  && s.job.result.value.ok == s.job.ok && s.job.result.value.fail == s.job.fail
                  && s.job.result.value.failures == s.job.failures && s.job.result.value.manual == s.job.manual)
  {
    hide Started, Runs, After;
    StartHoldsInv(requests);
    RunKeepsInv(Started(requests).value, events);
    var s := After(Started(requests).value, events);
    SumOfThree(s.workers);
    if !s.job.active && !s.job.cancel {
      SumOfEqual(s.workers);
    }
  }

  /** Once cancelled, or over, a job starts no further device. */
  lemma {:induction false} NothingStartsAfterCancel(s: State, events: seq<Event>, i: nat)
    requires Inv(s) && Runs(s, events) && i < |events|
    requires s.job.cancel || !s.job.active
    ensures !events[i].Begin?
    decreases |events|
  {
    hide Runs, Sum;
    assert Enabled(s, events[0]) && Runs(Apply(s, events[0]), events[1..]) by { RunHead(s, events); }
    if i > 0 {
      StepKeepsInv(s, events[0]);
      NothingStartsAfterCancel(Apply(s, events[0]), events[1..], i - 1);
    }
  }

  lemma RunHead(s: State, events: seq<Event>)
    requires Runs(s, events) && events != []
    ensures Enabled(s, events[0]) && Runs(Apply(s, events[0]), events[1..])
  {}

  /** The devices a worker began in a run, in the order it began them. */
  ghost function Begun(s: State, events: seq<Event>, w: nat): seq<string>
    requires Runs(s, events)
    decreases |events|
  {
    if events == [] then []
    else
      var rest := Begun(Apply(s, events[0]), events[1..], w);
      if events[0] == Begin(w) then [s.workers[w].devs[s.workers[w].pos]] + rest else rest
  }

  lemma ApplyKeepsDevs(s: State, e: Event, w: nat)
    requires Enabled(s, e) && w < |s.workers|
    ensures |Apply(s, e).workers| == |s.workers| && Apply(s, e).workers[w].devs == s.workers[w].devs
  {}

  /**
   Whatever the interleaving, a worker takes its own devices one at a time and in order: those it has begun
   are the next ones of its list, and all but the one in hand are finished.
   */
  lemma {:induction false} EachWorkerInOrder(s: State, events: seq<Event>, w: nat)
    requires Inv(s) && Runs(s, events) && w < |s.workers|
    ensures var k, t := s.workers[w], After(s, events);
            && |t.workers| == |s.workers| && t.workers[w].devs == k.devs
            && k.pos + InHand(k) <= t.workers[w].pos + InHand(t.workers[w]) <= |k.devs|
            && Begun(s, events, w) == k.devs[k.pos + InHand(k)..t.workers[w].pos + InHand(t.workers[w])]
    decreases |events|
  {
    hide Sum, Started;
    if events != [] {
      var s1 := Apply(s, events[0]);
      StepKeepsInv(s, events[0]);
      ApplyKeepsDevs(s, events[0], w);
      EachWorkerInOrder(s1, events[1..], w);
      assert s1.workers[w].pos + InHand(s1.workers[w])
             == s.workers[w].pos + InHand(s.workers[w]) + if events[0] == Begin(w) then 1 else 0;
      if events[0] == Begin(w) {
        var devs, from := s.workers[w].devs, s.workers[w].pos;
        var to := After(s, events).workers[w].pos + InHand(After(s, events).workers[w]);
        assert devs[from..to] == [devs[from]] + devs[from + 1..to];
      }
    }
  }

  // ----- the end of a run

  function StepsIn(events: seq<Event>): nat {
    if events == [] then 0
    else
      var e := events[0];
      (if e.Begin? || e.End? || e.Leave? || e.Finish? then 1 else 0) + StepsIn(events[1..])
  }

  function Budget(s: State): int {
    Sum(s.workers, StepsLeft) + if s.job.active then 1 else 0
  }

  lemma StepSpendsBudget(s: State, e: Event)
    requires Inv(s) && Enabled(s, e)
    ensures Budget(Apply(s, e)) == Budget(s) - if e.Begin? || e.End? || e.Leave? || e.Finish? then 1 else 0
  {
    hide Sum;
    match e {
      case Begin(w) => SumUpdate(s.workers, w, s.workers[w].(busy := true), StepsLeft);
      case End(w, _) => SumUpdate(s.workers, w, s.workers[w].(pos := s.workers[w].pos + 1, busy := false), StepsLeft);
      case Leave(w) => SumUpdate(s.workers, w, s.workers[w].(exited := true), StepsLeft);
      case _ =>
    }
  }

  /** No run goes on for ever: two steps for each device not yet done, one for each worker, one to finish. */
  lemma {:induction false} RunsAreBounded(s: State, events: seq<Event>)
    requires Inv(s) && Runs(s, events)
    ensures StepsIn(events) <= Budget(s) <= 2 * (s.job.total - s.job.done) + |s.workers| + 1
    decreases |events|
  {
    StepsLeftBounds(s.workers);
    hide Sum;
    if events != [] {
      StepKeepsInv(s, events[0]);
      StepSpendsBudget(s, events[0]);
      RunsAreBounded(Apply(s, events[0]), events[1..]);
    }
  }

  /** A job that is not over can always take a step, whatever the device in hand comes to. */
  lemma ActiveJobsCanStep(s: State, res: OneResult)
    requires Inv(s) && s.job.active
    ensures Enabled(s, Finish)
            || exists w: nat | w < |s.workers| ::
              Enabled(s, Begin(w)) || Enabled(s, End(w, res)) || Enabled(s, Leave(w))
  {
    if w: nat :| w < |s.workers| && !s.workers[w].exited {
      assert WellPlaced(s.workers[w]);
      assert Enabled(s, Begin(w)) || Enabled(s, End(w, res)) || Enabled(s, Leave(w));
    }
  }

  // ----- which devices are shown as running

  /** No address occurs twice among the workers' devices. */
  ghost predicate DistinctDevices(workers: seq<Worker>) {
    forall v, i, w, j | 0 <= v < |workers| && 0 <= i < |workers[v].devs| && 0 <= w < |workers|
      && 0 <= j < |workers[w].devs|
      && workers[v].devs[i] == workers[w].devs[j] :: v == w && i == j
  }

  ghost predicate RunningIsInHand(s: State) {
    forall mac :: mac in s.job.running <==>
      exists w | 0 <= w < |s.workers| && s.workers[w].busy && s.workers[w].pos < |s.workers[w].devs| ::
        s.workers[w].devs[s.workers[w].pos] == mac
  }

  lemma RunningStep(s: State, e: Event)
    requires Inv(s) && Enabled(s, e) && DistinctDevices(s.workers) && RunningIsInHand(s)
    ensures DistinctDevices(Apply(s, e).workers) && RunningIsInHand(Apply(s, e))
  {
    hide Sum;
    var t := Apply(s, e);
    assert |t.workers| == |s.workers| && forall w | 0 <= w < |s.workers| :: t.workers[w].devs == s.workers[w].devs;
    match e {
      case Begin(w) =>
        var mac := s.workers[w].devs[s.workers[w].pos];
        assert t.workers[w].busy && t.workers[w].devs[t.workers[w].pos] == mac;
        forall v | 0 <= v < |s.workers| && v != w
          ensures t.workers[v] == s.workers[v]
        {}
      case End(w, res) =>
        forall v | 0 <= v < |s.workers| && v != w
          ensures t.workers[v] == s.workers[v]
        {}
      case Leave(w) =>
        forall v | 0 <= v < |s.workers| && v != w
          ensures t.workers[v] == s.workers[v]
        {}
      case _ =>
    }
  }

  lemma {:induction false} RunningRun(s: State, events: seq<Event>)
    requires Inv(s) && Runs(s, events) && DistinctDevices(s.workers) && RunningIsInHand(s)
    ensures RunningIsInHand(After(s, events))
    decreases |events|
  {
    hide Inv, Apply, Enabled, RunningIsInHand, DistinctDevices;
    if events != [] {
      StepKeepsInv(s, events[0]);
      RunningStep(s, events[0]);
      RunningRun(Apply(s, events[0]), events[1..]);
    }
  }
}
