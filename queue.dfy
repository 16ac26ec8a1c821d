/** The drain loop shared by src/Publisher.js and src/publisher.mjs, as a function of
    the queue and of what each awaited `consume` call does: it resolves or throws (the
    loop catches the exception and goes on either way), and while it is pending the
    event loop may run `publish` calls, which append to the queue. */
module Queue {

  datatype Outcome = Resolved | Threw

  /** The n-th `consume` call of a drain: how it ends and what is published meanwhile. */
  datatype Step<T> = Step(outcome: Outcome, arrivals: seq<T>)

  /** Calls beyond the given steps resolve with nothing published. */
  function Head<T>(steps: seq<Step<T>>): Step<T> {
    if steps == [] then Step(Resolved, []) else steps[0]
  }

  function Tail<T>(steps: seq<Step<T>>): seq<Step<T>> {
    if steps == [] then [] else steps[1..]
  }

  /** The number of tasks published during the given steps. */
  function TotalArrivals<T>(steps: seq<Step<T>>): nat {
    if steps == [] then 0 else |steps[0].arrivals| + TotalArrivals(steps[1..])
  }

  /** The tasks handed to `consume`, in order, by a drain that starts with `pending`
      queued: the head is shifted off and consumed, the arrivals of that call are
      appended, until the queue is empty. */
  function Drained<T>(pending: seq<T>, steps: seq<Step<T>>): seq<T>
    decreases |pending| + TotalArrivals(steps)
  {
    if pending == [] then []
    else [pending[0]] + Drained(pending[1..] + Head(steps).arrivals, Tail(steps))
  }

  /** What is published during the first n calls, in publish order. */
  function ArrivalsBefore<T>(steps: seq<Step<T>>, n: nat): seq<T> {
    if n == 0 then [] else Head(steps).arrivals + ArrivalsBefore(Tail(steps), n - 1)
  }

  /** FIFO, each task exactly once: a drain consumes the queued tasks and then every
      task published while it runs, in the order they were queued, and it stops only
      when nothing published before its end is left. */
  lemma {:induction false} DrainedInQueueOrder<T>(pending: seq<T>, steps: seq<Step<T>>)
    ensures var d := Drained(pending, steps);
            d == pending + ArrivalsBefore(steps, |d|)
    decreases |pending| + TotalArrivals(steps)
  {
    if pending != [] {
      var rest := pending[1..] + Head(steps).arrivals;
      DrainedInQueueOrder(rest, Tail(steps));
      var d' := Drained(rest, Tail(steps));
      assert Drained(pending, steps) == [pending[0]] + d';
      assert ArrivalsBefore(steps, |d'| + 1) == Head(steps).arrivals + ArrivalsBefore(Tail(steps), |d'|);
      assert pending == [pending[0]] + pending[1..];
    }
  }

  /** With nothing published meanwhile, a drain consumes exactly the queued tasks. */
  lemma {:induction false} DrainedWithoutArrivals<T>(pending: seq<T>, steps: seq<Step<T>>)
    requires forall k :: 0 <= k < |steps| ==> steps[k].arrivals == []
    ensures Drained(pending, steps) == pending
    decreases |pending|
  {
    if pending != [] {
      assert Head(steps).arrivals == [];
      assert pending[1..] + Head(steps).arrivals == pending[1..];
      assert forall k :: 0 <= k < |Tail(steps)| ==> Tail(steps)[k].arrivals == [] by {
        forall k | 0 <= k < |Tail(steps)| ensures Tail(steps)[k].arrivals == [] {
          assert Tail(steps)[k] == steps[k + 1];
        }
      }
      DrainedWithoutArrivals(pending[1..], Tail(steps));
      assert pending == [pending[0]] + pending[1..];
    }
  }

  /** A throwing `consume` does not stop the drain: only what is published matters. */
  lemma {:induction false} DrainedIgnoresOutcomes<T>(pending: seq<T>, s1: seq<Step<T>>, s2: seq<Step<T>>)
    requires |s1| == |s2|
    requires forall k :: 0 <= k < |s1| ==> s1[k].arrivals == s2[k].arrivals
    ensures Drained(pending, s1) == Drained(pending, s2)
    decreases |pending| + TotalArrivals(s1)
  {
    if pending != [] {
      assert Head(s1).arrivals == Head(s2).arrivals;
      forall k | 0 <= k < |Tail(s1)| ensures Tail(s1)[k].arrivals == Tail(s2)[k].arrivals {
        assert Tail(s1)[k] == s1[k + 1] && Tail(s2)[k] == s2[k + 1];
      }
      DrainedIgnoresOutcomes(pending[1..] + Head(s1).arrivals, Tail(s1), Tail(s2));
    }
  }
}
