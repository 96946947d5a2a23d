/**
 The bulk job: one worker per proxy, each taking its devices in turn, all sharing one job record. Between
 two awaits a worker runs undisturbed, so the job is a machine whose steps are those stretches, taken in
 any order the event loop likes.
 */
module BulkJob {
  import opened Wrappers
  import opened Bytes

  datatype Manual = Manual(mac: string, bindKey: Key, reason: string)

  datatype Failure = Failure(mac: string, error: string)

  /** What handling one device came to. */
  datatype OneResult = OneResult(ok: bool, error: string, manual: Option<Manual>)

  datatype Summary =
    Summary(total: nat, ok: nat, fail: nat, failures: seq<Failure>, cancelled: bool, manual: seq<Manual>)

  datatype Job = Job(
    active: bool, cancel: bool, total: nat, done: nat, ok: nat, fail: nat, running: set<string>,
    failures: seq<Failure>, manual: seq<Manual>, result: Option<Summary>)

  /** A worker at its loop head, or busy with device `pos`, or gone. */
  datatype Worker = Worker(devs: seq<string>, pos: nat, busy: bool, exited: bool)

  datatype State = State(job: Job, workers: seq<Worker>)

  // ----- starting a job

  datatype Request = Request(mac: string, proxy: string)

  const NO_PROXY := "\U{2014}"

  /** The requests that name a device, with their addresses in upper case and a name for "no proxy". */
  function Named(requests: seq<Request>): seq<Request> {
    if requests == [] then []
    else
      var r := requests[|requests| - 1];
      var before := Named(requests[..|requests| - 1]);
      if r.mac == "" then before else before + [Clean(r)]
  }

  function Clean(r: Request): Request {
    Request(Upper(r.mac), if r.proxy == "" then NO_PROXY else r.proxy)
  }

  /** The devices of one proxy, in the order they were asked for. */
  function DevsOf(named: seq<Request>, proxy: string): seq<string> {
    if named == [] then []
    else
      var r := named[|named| - 1];
      DevsOf(named[..|named| - 1], proxy) + if r.proxy == proxy then [r.mac] else []
  }

  /** The proxies in the order they first occur. */
  function Proxies(named: seq<Request>): seq<string> {
    if named == [] then []
    else
      var before := Proxies(named[..|named| - 1]);
      var p := named[|named| - 1].proxy;
      if p in before then before else before + [p]
  }

  function WorkersFor(named: seq<Request>): (workers: seq<Worker>)
    ensures |workers| == |Proxies(named)|
  {
    seq(|Proxies(named)|, i requires 0 <= i < |Proxies(named)| =>
      Worker(DevsOf(named, Proxies(named)[i]), 0, false, false))
  }

  /** A new job over a non-empty list of named requests. */
  function Started(requests: seq<Request>): Option<State> {
    var named := Named(requests);
    if named == [] then None
    else Some(State(Job(true, false, |named|, 0, 0, 0, {}, [], [], None), WorkersFor(named)))
  }

  // ----- running it

  datatype Event =
    | Begin(w: nat)
    | End(w: nat, res: OneResult)
    | Leave(w: nat)
    | Finish
    | Cancel
    | Dismiss

  predicate Enabled(s: State, e: Event) {
    match e
    case Begin(w) =>
      w < |s.workers| && var k := s.workers[w]; !k.exited && !k.busy && k.pos < |k.devs| && !s.job.cancel
    case End(w, _) => w < |s.workers| && s.workers[w].busy && s.workers[w].pos < |s.workers[w].devs|
    case Leave(w) =>
      w < |s.workers| && var k := s.workers[w]; !k.exited && !k.busy && (k.pos >= |k.devs| || s.job.cancel)
    case Finish => s.job.active && forall w | 0 <= w < |s.workers| :: s.workers[w].exited
    case Cancel => true
    case Dismiss => true
  }

  function Counted(j: Job, mac: string, res: OneResult): Job {
    var j1 := j.(running := j.running - {mac}, done := j.done + 1,
                 manual := j.manual + if res.manual.Some? then [res.manual.value] else []);
    if res.ok then j1.(ok := j1.ok + 1)
    else j1.(fail := j1.fail + 1, failures := j1.failures + [Failure(mac, res.error)])
  }

  function Closed(j: Job): Job {
    j.(result := Some(Summary(j.total, j.ok, j.fail, j.failures, j.cancel, j.manual)), active := false)
  }

  function Apply(s: State, e: Event): State
    requires Enabled(s, e)
  {
    match e
    case Begin(w) =>
      var k := s.workers[w];
      State(s.job.(running := s.job.running + {k.devs[k.pos]}), s.workers[w := k.(busy := true)])
    case End(w, res) =>
      var k := s.workers[w];
      State(Counted(s.job, k.devs[k.pos], res), s.workers[w := k.(pos := k.pos + 1, busy := false)])
    case Leave(w) => s.(workers := s.workers[w := s.workers[w].(exited := true)])
    case Finish => s.(job := Closed(s.job))
    case Cancel => if s.job.active then s.(job := s.job.(cancel := true)) else s
    case Dismiss => if s.job.active then s else s.(job := s.job.(result := None))
  }

  ghost predicate Runs(s: State, events: seq<Event>)
    decreases |events|
  {
    events == [] || (Enabled(s, events[0]) && Runs(Apply(s, events[0]), events[1..]))
  }

  ghost function After(s: State, events: seq<Event>): State
    requires Runs(s, events)
    decreases |events|
  {
    if events == [] then s else After(Apply(s, events[0]), events[1..])
  }

  // ----- grouping by proxy, as the dictionary is filled

  lemma NamedStep(requests: seq<Request>, i: nat)
    requires i < |requests|
    ensures Named(requests[..i + 1]) ==
            if requests[i].mac == "" then Named(requests[..i]) else Named(requests[..i]) + [Clean(requests[i])]
  {
    assert requests[..i + 1][..i] == requests[..i];
  }

  lemma GroupStep(named: seq<Request>, r: Request)
    ensures forall p :: DevsOf(named + [r], p) == DevsOf(named, p) + if r.proxy == p then [r.mac] else []
    ensures Proxies(named + [r]) == if r.proxy in Proxies(named) then Proxies(named) else Proxies(named) + [r.proxy]
  {
    assert (named + [r])[..|named|] == named;
  }

  lemma {:induction false} NoDevsWithoutProxy(named: seq<Request>, p: string)
    requires p !in Proxies(named)
    ensures DevsOf(named, p) == []
  {
    if named != [] {
      NoDevsWithoutProxy(named[..|named| - 1], p);
    }
  }

  /** The insertion-ordered dictionary that collects each proxy's devices. */
  ghost predicate Grouped(order: seq<string>, groups: map<string, seq<string>>, named: seq<Request>) {
    && order == Proxies(named)
    && (forall p :: p in order <==> p in groups)
    && forall p | p in groups :: groups[p] == DevsOf(named, p)
  }

  method AddToGroup(order: seq<string>, groups: map<string, seq<string>>, r: Request, ghost named: seq<Request>)
    returns (order': seq<string>, groups': map<string, seq<string>>)
    requires Grouped(order, groups, named)
    ensures Grouped(order', groups', named + [r])
  {
    GroupStep(named, r);
    hide DevsOf, Proxies;
    if r.proxy !in groups {
      NoDevsWithoutProxy(named, r.proxy);
      order', groups' := order + [r.proxy], groups[r.proxy := [r.mac]];
    } else {
      order', groups' := order, groups[r.proxy := groups[r.proxy] + [r.mac]];
    }
  }

  method GroupByProxy(requests: seq<Request>) returns (order: seq<string>, groups: map<string, seq<string>>, count: nat)
    ensures Grouped(order, groups, Named(requests)) && count == |Named(requests)|
  {
    hide Named, Grouped;
    order, groups, count := [], map[], 0;
    EmptyGroups(requests);
    for i := 0 to |requests|
      invariant Grouped(order, groups, Named(requests[..i])) && count == |Named(requests[..i])|
    {
      NamedStep(requests, i);
      if requests[i].mac != "" {
        order, groups := AddToGroup(order, groups, Clean(requests[i]), Named(requests[..i]));
        count := count + 1;
      }
    }
    assert requests[..|requests|] == requests;
  }

  function WorkersOver(order: seq<string>, groups: map<string, seq<string>>): seq<Worker> {
    seq(|order|, i requires 0 <= i < |order| =>
      Worker(if order[i] in groups then groups[order[i]] else [], 0, false, false))
  }

  lemma WorkersAreTheGroups(order: seq<string>, groups: map<string, seq<string>>, named: seq<Request>)
    requires Grouped(order, groups, named)
    ensures WorkersOver(order, groups) == WorkersFor(named)
  {
    hide DevsOf, Proxies;
    forall i | 0 <= i < |order|
      ensures WorkersOver(order, groups)[i] == WorkersFor(named)[i]
    {
      assert order[i] in order;
    }
  }

  lemma EmptyGroups(requests: seq<Request>)
    ensures Named(requests[..0]) == [] && Grouped([], map[], Named(requests[..0]))
  {}

  // ----- the job record, changed in place

  class Bulk {
    var active: bool
    var cancel: bool
    var total: nat
    var done: nat
    var ok: nat
    var fail: nat
    var running: set<string>
    var failures: seq<Failure>
    var manual: seq<Manual>
    var result: Option<Summary>
    var workers: seq<Worker>

    function Snapshot(): State
      reads this
    {
      State(Job(active, cancel, total, done, ok, fail, running, failures, manual, result), workers)
    }

    /** No job yet. */
    constructor ()
      ensures !active && workers == []
    {
      active, cancel, total, done, ok, fail := false, false, 0, 0, 0, 0;
      running, failures, manual, result, workers := {}, [], [], None, [];
    }

    /** Group the requests by proxy and take over the job slot, unless a job is still running. */
    method Start(requests: seq<Request>) returns (started: bool)
      modifies this
      ensures started <==> !old(active) && Started(requests).Some?
      ensures Snapshot() == if started then Started(requests).value else old(Snapshot())
    {
      hide Grouped, Named, WorkersFor, WorkersOver;
      if active {
        return false;
      }
      var order, groups, count := GroupByProxy(requests);
      if count == 0 {
        return false;
      }
      active, cancel, total, done, ok, fail := true, false, count, 0, 0, 0;
      running, failures, manual, result := {}, [], [], None;
      workers := WorkersOver(order, groups);
      WorkersAreTheGroups(order, groups, Named(requests));
      return true;
    }

    method BeginDevice(w: nat) returns (mac: string)
      requires Enabled(Snapshot(), Begin(w))
      modifies this
      ensures Snapshot() == Apply(old(Snapshot()), Begin(w))
      ensures mac in running
    {
      mac := workers[w].devs[workers[w].pos];
      running := running + {mac};
      workers := workers[w := workers[w].(busy := true)];
    }

    method EndDevice(w: nat, res: OneResult)
      requires Enabled(Snapshot(), End(w, res))
      modifies this
      ensures Snapshot() == Apply(old(Snapshot()), End(w, res))
    {
      var mac := workers[w].devs[workers[w].pos];
      if res.manual.Some? {
        manual := manual + [res.manual.value];
      }
      running := running - {mac};
      done := done + 1;
      if res.ok {
        ok := ok + 1;
      } else {
        fail := fail + 1;
        failures := failures + [Failure(mac, res.error)];
      }
      workers := workers[w := workers[w].(pos := workers[w].pos + 1, busy := false)];
    }

    method LeaveLoop(w: nat)
      requires Enabled(Snapshot(), Leave(w))
      modifies this`workers
      ensures Snapshot() == Apply(old(Snapshot()), Leave(w))
    {
      workers := workers[w := workers[w].(exited := true)];
    }

    method FinishJob()
      requires Enabled(Snapshot(), Finish)
      modifies this`result, this`active
      ensures Snapshot() == Apply(old(Snapshot()), Finish)
    {
      result := Some(Summary(total, ok, fail, failures, cancel, manual));
      active := false;
    }

    method CancelJob()
      modifies this`cancel
      ensures Snapshot() == Apply(old(Snapshot()), Cancel)
    {
      if active {
        cancel := true;
      }
    }

    method DismissResult()
      modifies this`result
      ensures Snapshot() == Apply(old(Snapshot()), Dismiss)
    {
      if !active {
        result := None;
      }
    }
  }
}
