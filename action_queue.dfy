/** The bounded queue of one-shot robot actions in control.py
    (queue_action, update): speech and animation requests that the robot may
    refuse while it is busy, retried from the head until accepted. */
module ActionQueue {
  import opened Actuation

  /** The bound method a queued action calls. */
  datatype ActionFunc = TrySayText | TryPlayAnim

  /** A queued (function, argument) pair. */
  datatype Action = Action(func: ActionFunc, arg: string)

  /** queue_action drops the head once the queue holds more than 10, so it never exceeds 11. */
  const MaxQueue: nat := 11

  /** The robot call an action makes when update tries it. */
  function Attempt(a: Action): Command
  {
    match a.func
    case TrySayText => SayText(a.arg)
    case TryPlayAnim => PlayAnim(a.arg)
  }

  function Min(a: int, b: int): int
  {
    if a <= b then a else b
  }

  /** The last n elements of s (all of s when it is shorter). */
  function Suffix<T>(s: seq<T>, n: nat): seq<T>
  {
    s[|s| - Min(|s|, n)..]
  }

  /** queue_action: the new action goes to the tail; when the queue already
      held more than 10, exactly the head is dropped, so the queue keeps the
      11 most recent actions in their order. */
  function Enqueued(q: seq<Action>, a: Action): (r: seq<Action>)
    ensures |r| > 0 && r[|r| - 1] == a
    ensures |q| <= MaxQueue ==> r == Suffix(q + [a], MaxQueue)
    ensures |q| <= MaxQueue ==> |r| <= MaxQueue
  {
    if |q| > 10 then q[1..] + [a] else q + [a]
  }

  /** update: an empty queue is left alone; otherwise only the head is tried,
      and it is removed exactly when the robot accepted it. */
  function Tick(q: seq<Action>, accepted: bool): (r: seq<Action>)
    ensures q == [] ==> r == []
    ensures |q| - |r| == (if q != [] && accepted then 1 else 0)
    ensures r == q[|q| - |r|..]
  {
    if |q| > 0 then (if accepted then q[1..] else q) else q
  }

  /** Queueing several actions one after another. */
  function EnqueueAll(q: seq<Action>, actions: seq<Action>): seq<Action>
    decreases |actions|
  {
    if actions == [] then q else EnqueueAll(Enqueued(q, actions[0]), actions[1..])
  }

  lemma SuffixOfSuffix<T>(s: seq<T>, t: seq<T>, n: nat)
    ensures Suffix(Suffix(s, n) + t, n) == Suffix(s + t, n)
  {
    var u := Suffix(s, n);
    assert u == s[|s| - |u|..];
    var k := |s| - |u|;
    assert s + t == s[..k] + (u + t);
    var m := Min(|u + t|, n);
    assert Min(|s + t|, n) == m;
    assert (s + t)[|s + t| - m..] == (u + t)[|u + t| - m..];
  }

  /** However many actions are queued, the queue ends up holding exactly the
      11 most recent of everything queued, in their original order. */
  lemma {:induction false} EnqueueAllKeepsMostRecent(q: seq<Action>, actions: seq<Action>)
    requires |q| <= MaxQueue
    ensures EnqueueAll(q, actions) == Suffix(q + actions, MaxQueue)
    decreases |actions|
  {
    if actions == [] {
      assert q + actions == q;
    } else {
      var a := actions[0];
      var rest := actions[1..];
      EnqueueAllKeepsMostRecent(Enqueued(q, a), rest);
      SuffixOfSuffix(q + [a], rest, MaxQueue);
      assert q + [a] + rest == q + actions;
    }
  }

  /** Ticking with a sequence of robot answers (true = accepted). */
  function Ticks(q: seq<Action>, answers: seq<bool>): seq<Action>
    decreases |answers|
  {
    if answers == [] then q else Ticks(Tick(q, answers[0]), answers[1..])
  }

  function CountAccepted(answers: seq<bool>): nat
  {
    if answers == [] then 0 else (if answers[0] then 1 else 0) + CountAccepted(answers[1..])
  }

  /** Dropping a heads and then b more drops a + b heads, as far as there are any. */
  lemma DropDrop<T>(q: seq<T>, a: nat, b: nat)
    ensures q[Min(|q|, a)..][Min(|q| - Min(|q|, a), b)..] == q[Min(|q|, a + b)..]
  {
  }

  /** Actions leave only from the head and only when accepted: after any run
      of ticks the queue has lost exactly as many head entries as the robot
      accepted (a refused head is never skipped; no acceptance, no change). */
  lemma {:induction false} TicksDropAcceptedHeads(q: seq<Action>, answers: seq<bool>)
    ensures Ticks(q, answers) == q[Min(|q|, CountAccepted(answers))..]
    decreases |answers|
  {
    if answers != [] {
      var k := if answers[0] then 1 else 0;
      var r := Tick(q, answers[0]);
      assert r == q[Min(|q|, k)..];
      TicksDropAcceptedHeads(r, answers[1..]);
      DropDrop(q, k, CountAccepted(answers[1..]));
    }
  }
}
