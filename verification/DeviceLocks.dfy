/**
 The lock each device has: every path that opens a link takes it first, opens and closes its links under
 it, and gives it up before it does anything else. Any number of tasks, interleaved at their awaits.
 */
module DeviceLocks {
  import opened Bytes

  // ----- the table of locks

  class Lock {
    constructor () {}
  }

  class LockTable {
    var locks: map<string, Lock>

    constructor ()
      ensures locks == map[]
    {
      locks := map[];
    }

    /** Different addresses have different locks. */
    ghost predicate Valid()
      reads this
    {
      forall a, b | a in locks && b in locks && a != b :: locks[a] != locks[b]
    }

    /** The lock of an address, made on first use; upper and lower case are the same address. */
    method DevLock(mac: string) returns (lock: Lock)
      requires Valid()
      modifies this
      ensures Valid()
      ensures Upper(mac) in locks && lock == locks[Upper(mac)]
      ensures Upper(mac) in old(locks) ==> locks == old(locks)
      ensures Upper(mac) !in old(locks) ==> fresh(lock) && locks == old(locks)[Upper(mac) := lock]
    {
      var key := Upper(mac);
      if key !in locks {
        lock := new Lock();
        locks := locks[key := lock];
      } else {
        lock := locks[key];
      }
    }
  }

  // ----- tasks

  /** One call on one device: at most so many connection attempts, one after the other. */
  datatype Call = Call(mac: string, tries: nat)

  datatype Phase = Idle | Waiting | Holding(tries: nat, linked: bool)

  /** A bulk worker or a single command: the calls still to make; while it is not idle it makes the first. */
  datatype Task = Task(todo: seq<Call>, phase: Phase)

  /** Who holds (first) and who waits for (then, in order of asking) each lock. */
  datatype State = State(tasks: seq<Task>, queues: map<string, seq<nat>>)

  datatype Event =
    | Ask(task: nat)                   // reach `async with _dev_lock`
    | Acquire(task: nat)
    | Connect(task: nat, linked: bool) // an attempt that opens a link, or does not
    | Disconnect(task: nat)            // _safe_disconnect, taken to close the link
    | Release(task: nat)

  function Key(t: Task): string
    requires t.todo != []
  {
    Upper(t.todo[0].mac)
  }

  function Queue(s: State, mac: string): seq<nat> {
    if mac in s.queues then s.queues[mac] else []
  }

  predicate Enabled(s: State, e: Event) {
    && e.task < |s.tasks|
    && var t := s.tasks[e.task];
       match e
       case Ask(_) => t.phase.Idle? && t.todo != []
       case Acquire(_) => t.phase.Waiting? && t.todo != [] && Queue(s, Key(t)) != [] && Queue(s, Key(t))[0] == e.task
       case Connect(_, _) => t.phase.Holding? && !t.phase.linked && t.phase.tries > 0
       case Disconnect(_) => t.phase.Holding? && t.phase.linked
       case Release(_) => t.phase.Holding? && !t.phase.linked && t.todo != [] && Queue(s, Key(t)) != []
  }

  function Apply(s: State, e: Event): State
    requires Enabled(s, e)
  {
    var t := s.tasks[e.task];
    match e
    case Ask(i) => State(s.tasks[i := t.(phase := Waiting)], s.queues[Key(t) := Queue(s, Key(t)) + [i]])
    case Acquire(i) => s.(tasks := s.tasks[i := t.(phase := Holding(t.todo[0].tries, false))])
    case Connect(i, linked) => s.(tasks := s.tasks[i := t.(phase := Holding(t.phase.tries - 1, linked))])
    case Disconnect(i) => s.(tasks := s.tasks[i := t.(phase := Holding(t.phase.tries, false))])
    case Release(i) => State(s.tasks[i := Task(t.todo[1..], Idle)], s.queues[Key(t) := Queue(s, Key(t))[1..]])
  }

  predicate Runs(s: State, events: seq<Event>)
    decreases |events|
  {
    events == [] || (Enabled(s, events[0]) && Runs(Apply(s, events[0]), events[1..]))
  }

  function After(s: State, events: seq<Event>): State
    requires Runs(s, events)
    decreases |events|
  {
    if events == [] then s else After(Apply(s, events[0]), events[1..])
  }

  predicate Initial(s: State) {
    s.queues == map[] && forall i | 0 <= i < |s.tasks| :: s.tasks[i].phase.Idle?
  }

  // ----- what every step keeps

  predicate Busy(s: State, i: nat, mac: string) {
    i < |s.tasks| && !s.tasks[i].phase.Idle? && s.tasks[i].todo != [] && Key(s.tasks[i]) == mac
  }

  /** Everyone in a queue is busy with that device, once each, and only the first can hold the lock. */
  ghost predicate QueueOk(s: State, mac: string) {
    var q := Queue(s, mac);
    && (forall k | 0 <= k < |q| :: Busy(s, q[k], mac) && (k > 0 ==> s.tasks[q[k]].phase.Waiting?))
    && (forall j, k | 0 <= j < k < |q| :: q[j] != q[k])
  }

  ghost predicate TaskOk(s: State, i: nat)
    requires i < |s.tasks|
  {
    var t := s.tasks[i];
    !t.phase.Idle? ==> t.todo != [] && i in Queue(s, Key(t))
  }

  ghost predicate Inv(s: State) {
    && (forall mac: string :: QueueOk(s, mac))
    && (forall i | 0 <= i < |s.tasks| :: TaskOk(s, i))
  }

  lemma InitialInv(s: State)
    requires Initial(s)
    ensures Inv(s)
  {}

  /** Steps that touch only the phase of one busy task, and leave a waiting one in place. */
  lemma PhaseKeepsInv(s: State, i: nat, phase: Phase)
    requires Inv(s) && i < |s.tasks| && !s.tasks[i].phase.Idle? && s.tasks[i].todo != [] && !phase.Idle?
    requires Queue(s, Key(s.tasks[i])) != [] && Queue(s, Key(s.tasks[i]))[0] == i
    ensures Inv(s.(tasks := s.tasks[i := s.tasks[i].(phase := phase)]))
  {
    var s' := s.(tasks := s.tasks[i := s.tasks[i].(phase := phase)]);
    var mine := Key(s.tasks[i]);
    forall mac: string
      ensures QueueOk(s', mac)
    {
      assert QueueOk(s, mac) && QueueOk(s, mine);
      var q := Queue(s, mac);
      forall k | 0 <= k < |q|
        ensures Busy(s', q[k], mac) && (k > 0 ==> s'.tasks[q[k]].phase.Waiting?)
      {
        assert Busy(s, q[k], mac);
        if q[k] == i {
          assert mac == mine && k == 0;
        }
      }
    }
    forall j | 0 <= j < |s'.tasks|
      ensures TaskOk(s', j)
    {
      assert TaskOk(s, j);
    }
  }

  /** Whoever holds a lock is first in its queue. */
  lemma HolderIsFirst(s: State, i: nat)
    requires Inv(s) && i < |s.tasks| && s.tasks[i].phase.Holding?
    ensures s.tasks[i].todo != [] && Queue(s, Key(s.tasks[i])) != [] && Queue(s, Key(s.tasks[i]))[0] == i
  {
    assert TaskOk(s, i);
    assert QueueOk(s, Key(s.tasks[i]));
  }

  lemma AskKeepsInv(s: State, i: nat)
    requires Inv(s) && Enabled(s, Ask(i))
    ensures Inv(Apply(s, Ask(i)))
  {
    var s' := Apply(s, Ask(i));
    var mine := Key(s.tasks[i]);
    forall mac: string
      ensures QueueOk(s', mac)
    {
      assert QueueOk(s, mac);
      var q, q' := Queue(s, mac), Queue(s', mac);
      forall k | 0 <= k < |q|
        ensures q[k] != i && Busy(s', q[k], mac) && (k > 0 ==> s'.tasks[q[k]].phase.Waiting?)
      {
        assert Busy(s, q[k], mac);
      }
      assert q' == if mac == mine then q + [i] else q;
    }
    forall j | 0 <= j < |s'.tasks|
      ensures TaskOk(s', j)
    {
      assert TaskOk(s, j);
      if j == i {
        assert Queue(s', mine)[|Queue(s, mine)|] == i;
      } else if !s.tasks[j].phase.Idle? && Key(s.tasks[j]) == mine {
        var k :| 0 <= k < |Queue(s, mine)| && Queue(s, mine)[k] == j;
        assert Queue(s', mine)[k] == j;
      }
    }
  }

  lemma ReleaseKeepsInv(s: State, i: nat)
    requires Inv(s) && Enabled(s, Release(i))
    ensures Inv(Apply(s, Release(i)))
  {
    var s' := Apply(s, Release(i));
    HolderIsFirst(s, i);
    var mine := Key(s.tasks[i]);
    forall mac: string
      ensures QueueOk(s', mac)
    {
      assert QueueOk(s, mac) && QueueOk(s, mine);
      var q, q' := Queue(s, mac), Queue(s', mac);
      var from := if mac == mine then 1 else 0;
      assert q' == q[from..];
      forall k | from <= k < |q|
        ensures q[k] != i && Busy(s', q[k], mac) && (k > from ==> s'.tasks[q[k]].phase.Waiting?)
      {
        assert Busy(s, q[k], mac);
      }
    }
    forall j | 0 <= j < |s'.tasks|
      ensures TaskOk(s', j)
    {
      assert TaskOk(s, j);
      if j != i && !s.tasks[j].phase.Idle? && Key(s.tasks[j]) == mine {
        var k :| 0 <= k < |Queue(s, mine)| && Queue(s, mine)[k] == j;
        assert Queue(s', mine)[k - 1] == j;
      }
    }
  }

  lemma StepKeepsInv(s: State, e: Event)
    requires Inv(s) && Enabled(s, e)
    ensures Inv(Apply(s, e))
  {
    hide Inv, Queue;
    match e
    case Ask(i) => AskKeepsInv(s, i);
    case Release(i) => ReleaseKeepsInv(s, i);
    case Acquire(i) => PhaseKeepsInv(s, i, Holding(s.tasks[i].todo[0].tries, false));
    case Connect(i, linked) =>
      HolderIsFirst(s, i);
      PhaseKeepsInv(s, i, Holding(s.tasks[i].phase.tries - 1, linked));
    case Disconnect(i) =>
      HolderIsFirst(s, i);
      PhaseKeepsInv(s, i, Holding(s.tasks[i].phase.tries, false));
  }

  lemma {:induction false} RunKeepsInv(s: State, events: seq<Event>)
    requires Inv(s) && Runs(s, events)
    ensures Inv(After(s, events))
    decreases |events|
  {
    hide Inv, Enabled, Apply;
    if events != [] {
      StepKeepsInv(s, events[0]);
      RunKeepsInv(Apply(s, events[0]), events[1..]);
    }
  }

  /** Whether this task has a link open to this device. */
  predicate LinkedTo(s: State, i: nat, mac: string) {
    i < |s.tasks| && s.tasks[i].phase.Holding? && s.tasks[i].phase.linked && s.tasks[i].todo != []
      && Key(s.tasks[i]) == mac
  }

  /**
   In every interleaving, no device ever has two links open, however its address is written; the one it
   has belongs to the task that holds its lock; and a task that holds a lock waits for no other.
   */
  lemma OneLinkPerDevice(s: State, events: seq<Event>, mac: string, i: nat, j: nat)
    requires Initial(s) && Runs(s, events)
    ensures var now := After(s, events);
            && (LinkedTo(now, i, mac) ==> Queue(now, mac) != [] && Queue(now, mac)[0] == i)
            && (LinkedTo(now, i, mac) && LinkedTo(now, j, mac) ==> i == j)
    ensures var now := After(s, events);
            forall other: string | i < |now.tasks| && now.tasks[i].phase.Holding? && i in Queue(now, other) ::
              now.tasks[i].todo != [] && other == Key(now.tasks[i]) && Queue(now, other)[0] == i
  {
    InitialInv(s);
    RunKeepsInv(s, events);
    var now := After(s, events);
    if LinkedTo(now, i, mac) {
      HolderIsFirst(now, i);
    }
    if LinkedTo(now, j, mac) {
      HolderIsFirst(now, j);
    }
    forall other: string | i < |now.tasks| && now.tasks[i].phase.Holding? && i in Queue(now, other)
      ensures now.tasks[i].todo != [] && other == Key(now.tasks[i]) && Queue(now, other)[0] == i
    {
      HolderIsFirst(now, i);
      assert QueueOk(now, other);
    }
  }

  // ----- no deadlock, and an end

  predicate Finished(s: State) {
    forall i | 0 <= i < |s.tasks| :: s.tasks[i].phase.Idle? && s.tasks[i].todo == []
  }

  /** The next step of a task that is not waiting behind another. */
  function NextOf(t: Task, i: nat): Event {
    match t.phase
    case Idle => Ask(i)
    case Waiting => Acquire(i)
    case Holding(_, linked) => if linked then Disconnect(i) else Release(i)
  }

  /** Whatever has happened so far, if any task has work left then some task can take a step. */
  lemma NoDeadlock(s: State, events: seq<Event>) returns (e: Event)
    requires Initial(s) && Runs(s, events) && !Finished(After(s, events))
    ensures Enabled(After(s, events), e)
  {
    InitialInv(s);
    RunKeepsInv(s, events);
    var now := After(s, events);
    var i :| 0 <= i < |now.tasks| && !(now.tasks[i].phase.Idle? && now.tasks[i].todo == []);
    assert TaskOk(now, i);
    if now.tasks[i].phase.Waiting? {
      var mac := Key(now.tasks[i]);
      assert QueueOk(now, mac);
      var first := Queue(now, mac)[0];
      assert Busy(now, first, mac);
      e := NextOf(now.tasks[first], first);
    } else {
      if now.tasks[i].phase.Holding? {
        HolderIsFirst(now, i);
      }
      e := NextOf(now.tasks[i], i);
    }
  }

  function CallWork(c: Call): nat {
    2 * c.tries + 3
  }

  function TodoWork(todo: seq<Call>): nat {
    if todo == [] then 0 else CallWork(todo[0]) + TodoWork(todo[1..])
  }

  /** The most steps a task can still take. */
  function TaskWork(t: Task): nat {
    match t.phase
    case Idle => TodoWork(t.todo)
    case Waiting => if t.todo == [] then 0 else TodoWork(t.todo) - 1
    case Holding(tries, linked) =>
      2 * tries + (if linked then 1 else 0) + 1 + if t.todo == [] then 0 else TodoWork(t.todo[1..])
  }

  function Work(tasks: seq<Task>): nat {
    if tasks == [] then 0 else TaskWork(tasks[0]) + Work(tasks[1..])
  }

  lemma {:induction false} WorkOfOne(tasks: seq<Task>, i: nat, t: Task)
    requires i < |tasks|
    ensures Work(tasks[i := t]) == Work(tasks) - TaskWork(tasks[i]) + TaskWork(t)
    decreases |tasks|
  {
    hide TaskWork;
    if i == 0 {
      assert tasks[0 := t][1..] == tasks[1..];
    } else {
      assert tasks[i := t][1..] == tasks[1..][i - 1 := t];
      WorkOfOne(tasks[1..], i - 1, t);
    }
  }

  lemma StepUsesWork(s: State, e: Event)
    requires Enabled(s, e)
    ensures Work(Apply(s, e).tasks) < Work(s.tasks)
  {
    hide Work, Queue;
    WorkOfOne(s.tasks, e.task, Apply(s, e).tasks[e.task]);
    assert Apply(s, e).tasks == s.tasks[e.task := Apply(s, e).tasks[e.task]];
  }

  /** Every run ends: a bound on its length is known from the calls alone. */
  lemma {:induction false} RunsAreBounded(s: State, events: seq<Event>)
    requires Runs(s, events)
    ensures |events| + Work(After(s, events).tasks) <= Work(s.tasks)
    decreases |events|
  {
    hide Enabled, Apply, Work;
    if events != [] {
      StepUsesWork(s, events[0]);
      RunsAreBounded(Apply(s, events[0]), events[1..]);
    }
  }

  /** This task waits for this device's lock, with these before it, the holder first. */
  ghost predicate WaitsBehind(s: State, i: nat, mac: string, ahead: seq<nat>) {
    && i < |s.tasks| && s.tasks[i].phase.Waiting?
    && |ahead| < |Queue(s, mac)| && Queue(s, mac)[..|ahead|] == ahead && Queue(s, mac)[|ahead|] == i
  }

  lemma OneStepOvertakesNobody(s: State, e: Event, i: nat, mac: string, ahead: seq<nat>)
    requires Inv(s) && Enabled(s, e) && WaitsBehind(s, i, mac, ahead) && e != Acquire(i)
    ensures var release := e.Release? && ahead != [] && e.task == ahead[0];
            WaitsBehind(Apply(s, e), i, mac, if release then ahead[1..] else ahead)
  {
    assert QueueOk(s, mac);
    var q, q' := Queue(s, mac), Queue(Apply(s, e), mac);
    assert Busy(s, i, mac);
    if e.Release? {
      HolderIsFirst(s, e.task);
      if Key(s.tasks[e.task]) == mac {
        assert q[0] == e.task && q' == q[1..] && ahead != [] && ahead[0] == q[0];
        assert q'[..|ahead| - 1] == ahead[1..];
      }
    } else if e.Ask? && Key(s.tasks[e.task]) == mac {
      assert q' == q + [e.task];
    }
  }

  /**
   The lock being granted in the order of asking, nobody is overtaken in any run: until a task acquires the
   lock it waits for, those still before it are the last of those who were, in the same order, and no one else.
   */
  lemma {:induction false} NobodyOvertakes(s: State, events: seq<Event>, i: nat, mac: string, ahead: seq<nat>)
    returns (gone: nat)
    requires Inv(s) && Runs(s, events) && WaitsBehind(s, i, mac, ahead)
    requires forall n | 0 <= n < |events| :: events[n] != Acquire(i)
    ensures gone <= |ahead| && WaitsBehind(After(s, events), i, mac, ahead[gone..])
    decreases |events|
  {
    hide Inv, Enabled, Apply, WaitsBehind;
    if events == [] {
      gone := 0;
      assert ahead[0..] == ahead;
    } else {
      var e := events[0];
      var release := e.Release? && ahead != [] && e.task == ahead[0];
      OneStepOvertakesNobody(s, e, i, mac, ahead);
      StepKeepsInv(s, e);
      forall n | 0 <= n < |events[1..]|
        ensures events[1..][n] != Acquire(i)
      {
        assert events[1..][n] == events[n + 1];
      }
      var later := NobodyOvertakes(Apply(s, e), events[1..], i, mac, if release then ahead[1..] else ahead);
      gone := if release then later + 1 else later;
      assert release ==> ahead[1..][later..] == ahead[gone..];
    }
  }
}
