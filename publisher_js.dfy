/** The `Publisher` class of src/Publisher.js: a queue of webhook messages and a flag
    that keeps a single drain running. `publish` queues and schedules `#process`; the
    scheduling (`setImmediate`) is left to the caller, who calls `Process` with what
    each awaited `consume` does. */
module PublisherJs {
  import opened Payload
  import opened Queue

  class Publisher {
    var tasks: seq<Message>
    var isProcessing: bool

    constructor ()
      ensures tasks == [] && !isProcessing
    {
      tasks := [];
      isProcessing := false;
    }

    /** `publish(payload)`: the payload joins the back of the queue. */
    method Publish(payload: Message)
      modifies this
      ensures tasks == old(tasks) + [payload]
      ensures isProcessing == old(isProcessing)
    {
      tasks := tasks + [payload];
    }

    /** `#process()`: returns at once while a drain is running or nothing is queued;
        otherwise hands the queued messages to `Consumer.consume` one at a time until
        the queue is empty, going on past a `consume` that throws. `consumed` lists the
        arguments of the `consume` calls; `steps[n]` says how the n-th call ends and
        what is published while it is awaited. */
    method Process(steps: seq<Step<Message>>) returns (consumed: seq<Message>)
      modifies this
      ensures old(isProcessing) || old(tasks) == [] ==>
                consumed == [] && tasks == old(tasks) && isProcessing == old(isProcessing)
      ensures !old(isProcessing) && old(tasks) != [] ==>
                consumed == Drained(old(tasks), steps) && tasks == [] && !isProcessing
    {
      consumed := [];
      if isProcessing || |tasks| == 0 {
        return;
      }
      isProcessing := true;
      var rest := steps;
      while |tasks| > 0
        invariant isProcessing
        invariant consumed + Drained(tasks, rest) == Drained(old(tasks), steps)
        decreases |tasks| + TotalArrivals(rest)
      {
        var payload := tasks[0];
        tasks := tasks[1..];
        var step := Head(rest);
        match step.outcome {
          case Resolved =>
          case Threw =>  // caught and logged; the loop goes on
        }
        // Messages published while `consume` is awaited; their `#process` calls
        // return at once because `isProcessing` is set.
        tasks := tasks + step.arrivals;
        rest := Tail(rest);
        consumed := consumed + [payload];
      }
      isProcessing := false;
    }
  }
}
