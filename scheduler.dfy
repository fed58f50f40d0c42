/**
 * The timed action queue of painting_on_water/simple_scheduler.py: a FIFO
 * of actions, each started at most once, the front one popped as soon as
 * the game time reaches its end time. Actions are opaque ids of type A;
 * what a callback does is modelled only by the actions it enqueues.
 */
module Scheduler {

  /** What the scheduler knows of one queued action. */
  datatype Entry<A> = Entry(action: A, duration: real, started: bool, endtime: real)

  /** The entry add_action builds: not started, end time 0. */
  function Fresh<A>(action: A, duration: real): Entry<A> {
    Entry(action, duration, false, 0.0)
  }

  /** The entries for the actions a callback enqueues, in the order it enqueues them. */
  function FreshAll<A>(spawned: seq<(A, real)>): (r: seq<Entry<A>>)
    ensures |r| == |spawned|
    ensures forall i :: 0 <= i < |r| ==> r[i] == Fresh(spawned[i].0, spawned[i].1)
  {
    if spawned == [] then [] else FreshAll(spawned[..|spawned| - 1]) + [Fresh(spawned[|spawned| - 1].0, spawned[|spawned| - 1].1)]
  }

  /** process_action at game time t: start an entry that has not started yet. */
  function StartAt<A>(e: Entry<A>, t: real): Entry<A> {
    if e.started then e else e.(started := true, endtime := t + e.duration)
  }

  /**
   * update, once the game time has advanced to t: process the front entry
   * (its callback enqueues `spawned` only when it runs now), then pop it if
   * t has reached its end time.
   */
  function AfterUpdate<A>(q: seq<Entry<A>>, t: real, spawned: seq<(A, real)>): seq<Entry<A>> {
    if q == [] then []
    else
      var front := StartAt(q[0], t);
      var rest := q[1..] + (if q[0].started then [] else FreshAll(spawned));
      if t >= front.endtime then rest else [front] + rest
  }

  /** Only the front entry may have started. */
  predicate OnlyFrontStarted<A>(q: seq<Entry<A>>) {
    forall i :: 1 <= i < |q| ==> !q[i].started
  }

  // ---------------------------------------------------------------------
  // Properties of the queue discipline
  // ---------------------------------------------------------------------

  /** A second process_action changes nothing: an action starts at most once. */
  lemma StartAtOnce<A>(e: Entry<A>, t: real, t': real)
    ensures StartAt(e, t).started
    ensures StartAt(StartAt(e, t), t') == StartAt(e, t)
    ensures e.started ==> StartAt(e, t) == e
    ensures !e.started ==> StartAt(e, t).endtime == t + e.duration
  {
  }

  /** An update of an empty queue leaves it empty. */
  lemma EmptyUpdate<A>(t: real, spawned: seq<(A, real)>)
    ensures AfterUpdate([], t, spawned) == []
  {
  }

  /**
   * update touches the front entry only: the entries behind it keep their
   * places and values, and are followed only by what the callback enqueued;
   * at most one entry leaves the queue.
   */
  lemma UpdateTouchesOnlyFront<A>(q: seq<Entry<A>>, t: real, spawned: seq<(A, real)>)
    requires q != []
    ensures var r := AfterUpdate(q, t, spawned);
            |r| >= |q| - 1 &&
            (r[..|q| - 1] == q[1..] || (r[0].action == q[0].action && r[1..|q|] == q[1..]))
  {
    var added := if q[0].started then [] else FreshAll(spawned);
    var rest := q[1..] + added;
    PrefixOfAppend(q[1..], added);
    var front := StartAt(q[0], t);
    if t >= front.endtime {
      assert AfterUpdate(q, t, spawned) == rest;
    } else {
      assert AfterUpdate(q, t, spawned) == [front] + rest;
      assert ([front] + rest)[1..|q|] == rest[..|q| - 1];
    }
  }

  /** The entries and ids of one more spawned action. */
  lemma SpawnedStep<A>(spawned: seq<(A, real)>, k: nat)
    requires k < |spawned|
    ensures FreshAll(spawned[..k + 1]) == FreshAll(spawned[..k]) + [Fresh(spawned[k].0, spawned[k].1)]
    ensures SpawnedIds(spawned[..k + 1]) == SpawnedIds(spawned[..k]) + [spawned[k].0]
  {
    assert spawned[..k + 1][..k] == spawned[..k];
  }

  lemma PrefixOfAppend<T>(a: seq<T>, b: seq<T>)
    ensures (a + b)[..|a|] == a
  {
  }

  /** The front entry leaves exactly when the game time has reached its end time after processing. */
  lemma PopExactlyAtEndtime<A>(q: seq<Entry<A>>, t: real, spawned: seq<(A, real)>)
    requires q != []
    ensures var r := AfterUpdate(q, t, spawned);
            var n := if q[0].started then |q| - 1 else |q| - 1 + |spawned|;
            (t >= StartAt(q[0], t).endtime <==> |r| == n) &&
            (t < StartAt(q[0], t).endtime <==> |r| == n + 1 && r[0] == StartAt(q[0], t))
  {
  }

  /** A zero-duration action starts and leaves the queue in the same update. */
  lemma ZeroDurationPopsAtOnce<A>(q: seq<Entry<A>>, t: real, spawned: seq<(A, real)>)
    requires q != [] && !q[0].started && q[0].duration == 0.0
    ensures AfterUpdate(q, t, spawned) == q[1..] + FreshAll(spawned)
  {
  }

  /** An action that has already started does not run again: nothing is enqueued. */
  lemma StartedFrontRunsNoCallback<A>(q: seq<Entry<A>>, t: real, spawned: seq<(A, real)>)
    requires q != [] && q[0].started
    ensures AfterUpdate(q, t, spawned) == if t >= q[0].endtime then q[1..] else q
  {
  }

  /** The queue discipline is kept by update: only the front entry is ever started. */
  lemma UpdateKeepsOnlyFrontStarted<A>(q: seq<Entry<A>>, t: real, spawned: seq<(A, real)>)
    requires OnlyFrontStarted(q)
    ensures OnlyFrontStarted(AfterUpdate(q, t, spawned))
  {
    if q != [] {
      var added := if q[0].started then [] else FreshAll(spawned);
      var rest := q[1..] + added;
      forall i | 0 <= i < |rest|
        ensures !rest[i].started
      {
        if i < |q| - 1 {
          assert rest[i] == q[i + 1];
        } else {
          assert rest[i] == added[i - (|q| - 1)];
        }
      }
    }
  }

  /** add_action keeps the queue discipline. */
  lemma AddKeepsOnlyFrontStarted<A>(q: seq<Entry<A>>, action: A, duration: real)
    requires OnlyFrontStarted(q)
    ensures OnlyFrontStarted(q + [Fresh(action, duration)])
  {
  }

  // ---------------------------------------------------------------------
  // The objects
  // ---------------------------------------------------------------------

  /** SAction: a callback id with a duration, started at most once. */
  class SAction<A> {
    const action: A
    const duration: real
    const startTime: real
    var started: bool
    var endtime: real

    function View(): Entry<A>
      reads this
    {
      Entry(action, duration, started, endtime)
    }

    constructor (action: A, duration: real, startTime: real)
      ensures View() == Fresh(action, duration) && this.startTime == startTime
    {
      this.action := action;
      this.duration := duration;
      this.startTime := startTime;
      started := false;
      endtime := 0.0;
    }

    /** process_action: `ran` tells whether the callback was invoked by this call. */
    method ProcessAction(gameTime: real) returns (ran: bool)
      modifies this
      ensures View() == StartAt(old(View()), gameTime)
      ensures ran <==> !old(started)
    {
      ran := !started;
      if !started {
        started := true;
        endtime := gameTime + duration;
      }
    }
  }

  /** The ids of a sequence of actions (ids never change, so no state is read). */
  function Ids<A>(s: seq<SAction<A>>): seq<A> {
    seq(|s|, i requires 0 <= i < |s| => s[i].action)
  }

  /**
   * ScheduleSeq: the game clock and the FIFO of actions. The ghost fields
   * record every id ever enqueued, the ids popped and the ids started, each
   * in order; Valid() says the queue is what was enqueued minus what was
   * popped, in order, so actions start and leave in the order they were added.
   */
  class ScheduleSeq<A> {
    var gameTime: real
    var sequence: seq<SAction<A>>
    ghost var added: seq<A>
    ghost var done: seq<A>
    ghost var starts: seq<A>

    ghost predicate Valid()
      reads this, sequence
    {
      && (forall i, j :: 0 <= i < j < |sequence| ==> sequence[i] != sequence[j])
      && (forall i :: 1 <= i < |sequence| ==> !sequence[i].started)
      && added == done + Ids(sequence)
      && starts == done + (if sequence != [] && sequence[0].started then [sequence[0].action] else [])
    }

    /** The queue as values. */
    function Queue(): (q: seq<Entry<A>>)
      reads this, sequence
      ensures |q| == |sequence|
      ensures forall i :: 0 <= i < |q| ==> q[i] == sequence[i].View()
    {
      seq(|sequence|, i reads this, sequence requires 0 <= i < |sequence| => sequence[i].View())
    }

    /** The objects update may change: the front action only. */
    function Front(): set<SAction<A>>
      reads this
    {
      if sequence == [] then {} else {sequence[0]}
    }

    constructor ()
      ensures Valid()
      ensures gameTime == 0.0 && Queue() == []
      ensures added == [] && starts == []
    {
      gameTime := 0.0;
      sequence := [];
      added := [];
      done := [];
      starts := [];
    }

    /** add_action: one new, unstarted action at the end; everything before it unchanged. */
    method AddAction(action: A, duration: real)
      requires Valid()
      modifies this
      ensures Valid()
      ensures gameTime == old(gameTime)
      ensures Queue() == old(Queue()) + [Fresh(action, duration)]
      ensures added == old(added) + [action] && starts == old(starts)
      ensures sequence[..|sequence| - 1] == old(sequence) && fresh(sequence[|sequence| - 1])
    {
      var a := new SAction(action, duration, 0.0);
      sequence := sequence + [a];
      added := added + [action];
      assert Ids(sequence) == Ids(old(sequence)) + [action];
    }

    /** The add_action calls of a callback, one after the other. */
    method AddAll(spawned: seq<(A, real)>)
      requires Valid()
      modifies this
      ensures Valid()
      ensures gameTime == old(gameTime)
      ensures Queue() == old(Queue()) + FreshAll(spawned)
      ensures sequence[..|old(sequence)|] == old(sequence)
      ensures added == old(added) + SpawnedIds(spawned) && starts == old(starts)
    {
      var k := 0;
      while k < |spawned|
        invariant 0 <= k <= |spawned|
        invariant Valid()
        invariant gameTime == old(gameTime)
        invariant Queue() == old(Queue()) + FreshAll(spawned[..k])
        invariant |sequence| >= |old(sequence)| && sequence[..|old(sequence)|] == old(sequence)
        invariant added == old(added) + SpawnedIds(spawned[..k]) && starts == old(starts)
      {
        ghost var before := sequence;
        SpawnedStep(spawned, k);
        AddAction(spawned[k].0, spawned[k].1);
        assert sequence[..|before|] == before;
        assert sequence[..|old(sequence)|] == before[..|old(sequence)|];
        k := k + 1;
      }
      assert spawned[..|spawned|] == spawned;
    }

    /**
     * update with frame time dt: the clock always advances; a non-empty
     * queue processes its front action, whose callback (when it runs now)
     * enqueues `spawned`, and pops it once the clock has reached its end time.
     */
    method Update(dt: real, spawned: seq<(A, real)>) returns (ran: bool)
      requires Valid()
      modifies this, Front()
      ensures Valid()
      ensures gameTime == old(gameTime) + dt
      ensures Queue() == AfterUpdate(old(Queue()), gameTime, spawned)
      ensures ran <==> old(sequence) != [] && !old(sequence[0].started)
      ensures starts == old(starts) + (if ran then [old(sequence[0].action)] else [])
      ensures added == old(added) + (if ran then SpawnedIds(spawned) else [])
    {
      ghost var q0 := Queue();
      gameTime := gameTime + dt;
      if sequence == [] {
        return false;
      }
      assert Queue() == q0;
      ran := StartFront(spawned);
      ghost var front := StartAt(q0[0], gameTime);
      ghost var rest := q0[1..] + (if q0[0].started then [] else FreshAll(spawned));
      assert Queue() == [front] + rest;
      if gameTime >= sequence[0].endtime {
        PopFront();
        assert Queue() == rest;
      }
    }

    /** process_action on the front action; a callback that runs now enqueues `spawned`. */
    method StartFront(spawned: seq<(A, real)>) returns (ran: bool)
      requires Valid() && sequence != []
      modifies this, sequence[0]
      ensures Valid() && sequence != [] && sequence[0] == old(sequence[0]) && sequence[0].started
      ensures gameTime == old(gameTime)
      ensures ran <==> !old(sequence[0].started)
      ensures Queue() == [StartAt(old(Queue())[0], gameTime)] + old(Queue())[1..] + (if ran then FreshAll(spawned) else [])
      ensures starts == old(starts) + (if ran then [old(sequence[0].action)] else [])
      ensures added == old(added) + (if ran then SpawnedIds(spawned) else [])
    {
      ghost var q0 := Queue();
      var current := sequence[0];
      ran := current.ProcessAction(gameTime);
      assert forall i :: 1 <= i < |sequence| ==> sequence[i] != current;
      assert Queue() == [StartAt(q0[0], gameTime)] + q0[1..];
      if ran {
        starts := starts + [current.action];
        assert Valid();
        AddAll(spawned);
        assert sequence[0] == current;
      }
    }

    /** `sequence.pop(0)` of a started front action. */
    method PopFront()
      requires Valid() && sequence != [] && sequence[0].started
      modifies this
      ensures Valid()
      ensures gameTime == old(gameTime)
      ensures sequence == old(sequence[1..]) && Queue() == old(Queue())[1..]
      ensures added == old(added) && starts == old(starts)
    {
      ghost var s := sequence;
      var front := sequence[0];
      sequence := sequence[1..];
      assert Ids(s) == [front.action] + Ids(sequence);
      assert old(done) + Ids(s) == (old(done) + [front.action]) + Ids(sequence);
      done := done + [front.action];
    }
  }

  /** The ids of (id, duration) pairs. */
  function SpawnedIds<A>(spawned: seq<(A, real)>): (r: seq<A>)
    ensures |r| == |spawned| && forall i :: 0 <= i < |r| ==> r[i] == spawned[i].0
  {
    if spawned == [] then [] else SpawnedIds(spawned[..|spawned| - 1]) + [spawned[|spawned| - 1].0]
  }

  /**
   * FIFO: the actions started so far are a prefix of the actions enqueued,
   * in the same order: no action starts before one enqueued earlier.
   */
  lemma StartsFollowAdds<A>(s: ScheduleSeq<A>)
    requires s.Valid()
    ensures |s.starts| <= |s.added| && s.starts == s.added[..|s.starts|]
  {
    if s.sequence != [] && s.sequence[0].started {
      assert Ids(s.sequence)[0] == s.sequence[0].action;
    }
  }
}
