/**
 * The dispatch worker of app/worker/worker.py: a FIFO queue of SMS tasks, an
 * `enabled` flag that gates submissions, and a loop that sends the head task
 * through the gateway, drops it on success, puts it back at the tail on
 * failure, and sleeps 15 time units after every attempt.
 *
 * The gateway call is not made here: each iteration receives the gateway's
 * verdict as input, and returns which task it handed to the gateway. The
 * `delay` field adds up the time the loop has slept.
 */
module Worker {

  /** `SMS`: one queued request. Tasks are moved between queue and worker, never changed. */
  datatype Task = Task(phone: string, message: string)

  /**
   * What the outside world contributes to one iteration of `loop()`: the
   * gateway's verdict on the send, and whether `stop()` was called while the
   * iteration ran (seen only at the top of the next one).
   */
  datatype Turn = Turn(sendOk: bool, stopRequested: bool)

  /** The seconds `loop()` sleeps after every attempt, successful or not. */
  const RetryDelay: nat := 15

  /** The queue after one iteration that took the head `q[0]`, given the gateway's verdict. */
  function StepQueue(q: seq<Task>, sendOk: bool): seq<Task>
    requires q != []
  {
    if sendOk then q[1..] else q[1..] + [q[0]]
  }

  /**
   * A delivered head is gone, a failed head goes to the tail, all tasks
   * behind it keep their order, and no task is lost or duplicated.
   */
  lemma StepQueueMovesHead(q: seq<Task>, sendOk: bool)
    requires q != []
    ensures var r := StepQueue(q, sendOk);
      && |r| == (if sendOk then |q| - 1 else |q|)
      && (forall i :: 0 <= i < |q| - 1 ==> r[i] == q[i + 1])
      && (!sendOk ==> r[|r| - 1] == q[0])
      && multiset(r) + (if sendOk then multiset{q[0]} else multiset{}) == multiset(q)
  {
    assert q == [q[0]] + q[1..];
  }

  /**
   * What a run of `loop()` leaves behind: the queue, every task handed to the
   * gateway (in order), every task it delivered, the time slept, and whether
   * it ended because `stop()` was seen.
   */
  datatype Trace = Trace(queue: seq<Task>, sent: seq<Task>, delivered: seq<Task>, delay: nat, stopped: bool)

  /** `t` preceded by attempts that sent `sent`, delivered `delivered` and slept `slept`. */
  function After(sent: seq<Task>, delivered: seq<Task>, slept: nat, t: Trace): Trace {
    Trace(t.queue, sent + t.sent, delivered + t.delivered, slept + t.delay, t.stopped)
  }

  /**
   * `loop()` over a sequence of turns. It ends when the turns run out, when
   * the queue is empty (the real loop would block in `get()` there), or
   * after an iteration during which `stop()` was called.
   */
  function Run(q: seq<Task>, turns: seq<Turn>): Trace
    decreases |turns|
  {
    if turns == [] || q == [] then Trace(q, [], [], 0, false)
    else
      var head, turn := q[0], turns[0];
      var next := StepQueue(q, turn.sendOk);
      var delivered := if turn.sendOk then [head] else [];
      if turn.stopRequested then Trace(next, [head], delivered, RetryDelay, true)
      else
        After([head], delivered, RetryDelay, Run(next, turns[1..]))
  }

  /** One iteration of `Run`, unfolded. */
  lemma RunUnfold(q: seq<Task>, turns: seq<Turn>)
    requires q != [] && turns != []
    ensures var d := if turns[0].sendOk then [q[0]] else [];
      Run(q, turns) ==
        if turns[0].stopRequested then Trace(StepQueue(q, turns[0].sendOk), [q[0]], d, RetryDelay, true)
        else After([q[0]], d, RetryDelay, Run(StepQueue(q, turns[0].sendOk), turns[1..]))
  {
  }

  /**
   * What a run of `loop()` comes to when it has sent `sent`, delivered
   * `delivered` and slept `slept` so far, holds `q`, and has `rest` turns to
   * go: while `enabled` the rest of the run follows; once it is cleared, the
   * run is over.
   */
  function Pending(enabled: bool, sent: seq<Task>, delivered: seq<Task>, slept: nat, q: seq<Task>, rest: seq<Turn>): Trace {
    if enabled then After(sent, delivered, slept, Run(q, rest)) else Trace(q, sent, delivered, slept, true)
  }

  /** One more iteration of `Run`, seen from the trace accumulated so far. */
  lemma PendingStep(sent: seq<Task>, delivered: seq<Task>, slept: nat, q: seq<Task>, turns: seq<Turn>, i: nat)
    requires q != [] && i < |turns|
    ensures var d := if turns[i].sendOk then [q[0]] else [];
      Pending(true, sent, delivered, slept, q, turns[i..]) ==
        Pending(!turns[i].stopRequested, sent + [q[0]], delivered + d, slept + RetryDelay,
                StepQueue(q, turns[i].sendOk), turns[i + 1..])
  {
    var d := if turns[i].sendOk then [q[0]] else [];
    assert turns[i..][0] == turns[i];
    assert turns[i..][1..] == turns[i + 1..];
    RunUnfold(q, turns[i..]);
    AfterAfter(sent, delivered, slept, [q[0]], d, RetryDelay, Run(StepQueue(q, turns[i].sendOk), turns[i + 1..]));
  }

  /** A run with no turn left, or nothing queued, does nothing more. */
  lemma PendingDone(enabled: bool, sent: seq<Task>, delivered: seq<Task>, slept: nat, q: seq<Task>, rest: seq<Turn>)
    requires rest == [] || q == [] || !enabled
    ensures Pending(enabled, sent, delivered, slept, q, rest) == Trace(q, sent, delivered, slept, !enabled)
  {
    assert sent + [] == sent && delivered + [] == delivered;
  }

  lemma AfterAfter(s1: seq<Task>, d1: seq<Task>, n1: nat, s2: seq<Task>, d2: seq<Task>, n2: nat, t: Trace)
    ensures After(s1, d1, n1, After(s2, d2, n2, t)) == After(s1 + s2, d1 + d2, n1 + n2, t)
  {
    assert s1 + (s2 + t.sent) == s1 + s2 + t.sent;
    assert d1 + (d2 + t.delivered) == d1 + d2 + t.delivered;
  }

  /** No task is lost or duplicated: what is left plus what was delivered is what was queued. */
  lemma {:induction false} RunConserves(q: seq<Task>, turns: seq<Turn>)
    decreases |turns|
    ensures multiset(Run(q, turns).queue) + multiset(Run(q, turns).delivered) == multiset(q)
  {
    if turns != [] && q != [] {
      StepQueueMovesHead(q, turns[0].sendOk);
      if !turns[0].stopRequested {
        RunConserves(StepQueue(q, turns[0].sendOk), turns[1..]);
      }
    }
  }

  /** Every attempt costs exactly one delay, whatever its outcome; each delivery is one of the attempts. */
  lemma {:induction false} RunDelay(q: seq<Task>, turns: seq<Turn>)
    ensures Run(q, turns).delay == RetryDelay * |Run(q, turns).sent|
    ensures |Run(q, turns).delivered| <= |Run(q, turns).sent| <= |turns|
    decreases |turns|
  {
    if turns != [] && q != [] && !turns[0].stopRequested {
      RunDelay(StepQueue(q, turns[0].sendOk), turns[1..]);
    }
  }

  predicate AllSucceed(turns: seq<Turn>) {
    forall i :: 0 <= i < |turns| ==> turns[i].sendOk && !turns[i].stopRequested
  }

  predicate AllFail(turns: seq<Turn>) {
    forall i :: 0 <= i < |turns| ==> !turns[i].sendOk && !turns[i].stopRequested
  }

  /** With a gateway that always succeeds, every task is sent once and delivered in submission order. */
  lemma {:induction false} AllSucceedDeliversInOrder(q: seq<Task>, turns: seq<Turn>)
    requires AllSucceed(turns) && |turns| >= |q|
    ensures Run(q, turns) == Trace([], q, q, RetryDelay * |q|, false)
  {
    if q != [] {
      AllSucceedDeliversInOrder(q[1..], turns[1..]);
    }
  }

  /** Rotating `q` by one and then by `n - 1` rotates it by `n`. */
  lemma RotateStep(q: seq<Task>, n: nat)
    requires 1 <= n <= |q|
    ensures var next := q[1..] + [q[0]];
      && next[n - 1..] + next[..n - 1] == q[n..] + q[..n]
      && [q[0]] + next[..n - 1] == q[..n]
  {
    var next := q[1..] + [q[0]];
    assert next[n - 1..] == q[n..] + [q[0]];
    assert next[..n - 1] == q[1..n];
    assert q[..n] == [q[0]] + q[1..n];
  }

  lemma AllFailTail(turns: seq<Turn>)
    requires AllFail(turns) && turns != []
    ensures AllFail(turns[1..]) && !turns[0].sendOk && !turns[0].stopRequested
  {
    forall i | 0 <= i < |turns| - 1 ensures !turns[1..][i].sendOk && !turns[1..][i].stopRequested {
      assert turns[1..][i] == turns[i + 1];
    }
  }

  /**
   * With a gateway that always fails, nothing is delivered and the queue
   * rotates: after n attempts the first n tasks have moved, in order, behind
   * the others. The same tasks cycle for ever.
   */
  lemma {:induction false} AllFailRotates(q: seq<Task>, turns: seq<Turn>)
    requires AllFail(turns) && |turns| <= |q|
    ensures Run(q, turns).queue == q[|turns|..] + q[..|turns|]
    ensures Run(q, turns).sent == q[..|turns|]
    ensures Run(q, turns).delivered == []
    decreases |turns|
  {
    if turns != [] {
      var next := q[1..] + [q[0]];
      AllFailTail(turns);
      RunUnfold(q, turns);
      AllFailRotates(next, turns[1..]);
      RotateStep(q, |turns|);
    }
  }

  /**
   * Tail reinsertion: when the head fails once and the next task succeeds,
   * the next task is delivered before the failed one is retried.
   */
  lemma RetryGoesBehindLaterTasks(a: Task, b: Task)
    ensures var t := Run([a, b], [Turn(false, false), Turn(true, false), Turn(true, false)]);
      t.sent == [a, b, a] && t.delivered == [b, a] && t.queue == [] && t.delay == 3 * RetryDelay
  {
    assert StepQueue([a, b], false) == [b, a];
    assert StepQueue([b, a], true) == [a];
  }

  /** A task whose first send fails and whose second succeeds is sent twice, delivered once, after two delays. */
  lemma FailOnceThenDelivered(t: Task)
    ensures var r := Run([t], [Turn(false, false), Turn(true, false)]);
      r.sent == [t, t] && r.delivered == [t] && r.queue == [] && r.delay == 2 * RetryDelay
  {
    assert StepQueue([t], false) == [t];
    assert StepQueue([t], true) == [];
  }

  /** The stateful worker: the queue, the `enabled` gate, and the time slept so far. */
  class Worker {
    var queue: seq<Task>
    var enabled: bool
    var delay: nat

    /** `Worker(host)`: an empty queue, accepting tasks. */
    constructor ()
      ensures queue == [] && enabled && delay == 0
    {
      queue := [];
      enabled := true;
      delay := 0;
    }

    /** `add_task`: refused once the worker is stopped; otherwise appended at the tail. */
    method AddTask(task: Task) returns (accepted: bool)
      modifies this`queue
      ensures accepted == enabled
      ensures queue == if accepted then old(queue) + [task] else old(queue)
    {
      if !enabled {
        return false;
      }
      queue := queue + [task];
      return true;
    }

    /** `task_count`: the number of queued tasks. */
    method TaskCount() returns (n: nat)
      ensures n == |queue|
    {
      n := |queue|;
    }

    /**
     * One iteration of `loop()` after its `enabled` check: take the head,
     * hand it to the gateway (whose verdict is `sendOk`), drop it or put it
     * back at the tail, then sleep.
     */
    method Step(sendOk: bool) returns (sent: Task)
      requires queue != []
      modifies this`queue, this`delay
      ensures sent == old(queue)[0]
      ensures queue == StepQueue(old(queue), sendOk)
      ensures delay == old(delay) + RetryDelay
    {
      sent := queue[0];
      queue := queue[1..];
      if !sendOk {
        queue := queue + [sent];
      }
      delay := delay + RetryDelay;
    }

    /** `stop`: clears the gate; the queue is kept. */
    method Stop()
      modifies this`enabled
      ensures !enabled
    {
      enabled := false;
    }

    /**
     * `loop()`: sets `enabled`, then iterates while it stays set, one turn
     * per iteration, and returns every task handed to the gateway, in order.
     */
    method Loop(turns: seq<Turn>) returns (sent: seq<Task>)
      modifies this`queue, this`delay, this`enabled
      ensures queue == Run(old(queue), turns).queue
      ensures sent == Run(old(queue), turns).sent
      ensures delay == old(delay) + Run(old(queue), turns).delay
      ensures enabled == !Run(old(queue), turns).stopped
    {
      ghost var goal := Run(queue, turns);
      enabled := true;
      sent := [];
      ghost var delivered: seq<Task> := [];
      ghost var slept: nat := 0;
      var i := 0;
      assert turns[0..] == turns;
      assert sent + Run(queue, turns).sent == Run(queue, turns).sent;
      assert delivered + Run(queue, turns).delivered == Run(queue, turns).delivered;
      while enabled && i < |turns| && queue != []
        invariant 0 <= i <= |turns|
        invariant delay == old(delay) + slept
        invariant goal == Pending(enabled, sent, delivered, slept, queue, turns[i..])
      {
        var turn := turns[i];
        PendingStep(sent, delivered, slept, queue, turns, i);
        delivered := delivered + (if turn.sendOk then [queue[0]] else []);
        var task := Step(turn.sendOk);
        sent := sent + [task];
        slept := slept + RetryDelay;
        if turn.stopRequested {
          Stop();
        }
        i := i + 1;
      }
      PendingDone(enabled, sent, delivered, slept, queue, turns[i..]);
    }
  }

  /** A submission after `stop()` is refused and leaves zero tasks queued. */
  method SubmitAfterStop(t: Task) returns (accepted: bool, count: nat)
    ensures !accepted && count == 0
  {
    var w := new Worker();
    w.Stop();
    accepted := w.AddTask(t);
    count := w.TaskCount();
  }
}
