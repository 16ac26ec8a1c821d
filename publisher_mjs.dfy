/** The publisher module of src/publisher.mjs. Its module-level `tasks` and
    `isProcessing` are the fields of one `PublisherState` object; an entry keeps the
    logger it was published with and is handed to `consume` as
    `{ message: { raw, parsed }, log }`. */
module PublisherMjs {
  import opened Js
  import opened Payload
  import opened Queue
  import opened ConsumerMjs

  /** One entry of `tasks`: `{ raw, parsed, log }`. */
  datatype Task = Task(raw: string, parsed: JsInput<Payload>, log: Logger)

  /** The argument `processTasks` passes to `consume` for an entry. */
  function ConsumeArgsOf(t: Task): (args: ConsumeArgs)
    ensures args.message.raw == t.raw && args.message.parsed == t.parsed && args.log == t.log
  {
    ConsumeArgs(Message(t.raw, t.parsed), t.log)
  }

  /** The `consume` arguments for a sequence of entries, in order. */
  function Forwarded(ts: seq<Task>): (r: seq<ConsumeArgs>)
    ensures |r| == |ts|
    ensures forall i :: 0 <= i < |ts| ==> r[i] == ConsumeArgsOf(ts[i])
  {
    if ts == [] then [] else [ConsumeArgsOf(ts[0])] + Forwarded(ts[1..])
  }

  lemma {:induction false} ForwardedConcat(a: seq<Task>, b: seq<Task>)
    ensures Forwarded(a + b) == Forwarded(a) + Forwarded(b)
  {
    if a != [] {
      assert (a + b)[1..] == a[1..] + b;
      ForwardedConcat(a[1..], b);
    }
  }

  class PublisherState {
    var tasks: seq<Task>
    var isProcessing: bool

    /** The state when the module is loaded. */
    constructor ()
      ensures tasks == [] && !isProcessing
    {
      tasks := [];
      isProcessing := false;
    }

    /** `publish({ raw, parsed, log })`: one entry joins the back of the queue. */
    method Publish(raw: string, parsed: JsInput<Payload>, log: Logger)
      modifies this
      ensures tasks == old(tasks) + [Task(raw, parsed, log)]
      ensures isProcessing == old(isProcessing)
    {
      tasks := tasks + [Task(raw, parsed, log)];
    }

    /** `processTasks()`: returns at once while a drain runs or nothing is queued;
        otherwise drains the queue in order, swallowing a rejected `consume`.
        `consumed` lists the arguments of the `consume` calls. */
    method ProcessTasks(steps: seq<Step<Task>>) returns (consumed: seq<ConsumeArgs>)
      modifies this
      ensures old(isProcessing) || old(tasks) == [] ==>
                consumed == [] && tasks == old(tasks) && isProcessing == old(isProcessing)
      ensures !old(isProcessing) && old(tasks) != [] ==>
                consumed == Forwarded(Drained(old(tasks), steps)) && tasks == [] && !isProcessing
    {
      consumed := [];
      if isProcessing || |tasks| == 0 {
        return;
      }
      isProcessing := true;
      var rest := steps;
      while |tasks| > 0
        invariant isProcessing
        invariant consumed + Forwarded(Drained(tasks, rest)) == Forwarded(Drained(old(tasks), steps))
        decreases |tasks| + TotalArrivals(rest)
      {
        var entry := tasks[0];
        ForwardedConcat([entry], Drained(tasks[1..] + Head(rest).arrivals, Tail(rest)));
        tasks := tasks[1..];
        var step := Head(rest);
        match step.outcome {
          case Resolved =>
          case Threw =>  // logged through the entry's logger and swallowed
        }
        tasks := tasks + step.arrivals;
        rest := Tail(rest);
        consumed := consumed + [ConsumeArgsOf(entry)];
      }
      isProcessing := false;
    }
  }

  /** Each entry reaches `consume` once, in queue order, with its own raw body, parsed
      body and logger. */
  lemma EntriesForwardedInOrder(pending: seq<Task>, steps: seq<Step<Task>>)
    ensures var d := Drained(pending, steps);
            var out := Forwarded(d);
            && d == pending + ArrivalsBefore(steps, |d|)
            && forall i :: 0 <= i < |pending| ==>
                 out[i] == ConsumeArgs(Message(pending[i].raw, pending[i].parsed), pending[i].log)
  {
    DrainedInQueueOrder(pending, steps);
  }
}
