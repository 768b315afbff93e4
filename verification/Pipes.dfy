/** A bounded queue, the writer task that drains it and the socket behind it. */
module Pipes {

  /** `queue` holds frames the writer task has not taken yet, `wire` those already on
      the socket, oldest first. */
  datatype Pipe<T> = Pipe(wire: seq<T>, queue: seq<T>) {

    function All(): seq<T> {
      wire + queue
    }

    function Push(x: T): Pipe<T> {
      this.(queue := queue + [x])
    }

    /** The writer task moves one frame to the socket. */
    function Move(): Pipe<T>
      requires queue != []
    {
      Pipe(wire + [queue[0]], queue[1..])
    }

    /** The writer task takes one frame and fails to send it. */
    function Lose(): Pipe<T>
      requires queue != []
    {
      this.(queue := queue[1..])
    }

    function Pop(): Pipe<T>
      requires wire != []
    {
      this.(wire := wire[1..])
    }
  }

  function Empty<T>(): Pipe<T> {
    Pipe([], [])
  }

  /** What each pipe carries, socket and queue together. */
  function Flows<T>(pipes: seq<Pipe<T>>): (flows: seq<seq<T>>)
    ensures |flows| == |pipes|
    ensures forall k :: 0 <= k < |pipes| ==> flows[k] == pipes[k].All()
  {
    seq(|pipes|, k requires 0 <= k < |pipes| => pipes[k].All())
  }

  /** A queue and a socket in a row behave as one FIFO. */
  lemma PushFlows<T>(pipes: seq<Pipe<T>>, k: nat, x: T)
    requires k < |pipes|
    ensures Flows(pipes[k := pipes[k].Push(x)]) == Flows(pipes)[k := Flows(pipes)[k] + [x]]
  {
    assert pipes[k].Push(x).All() == pipes[k].All() + [x];
  }

  lemma MoveFlows<T>(pipes: seq<Pipe<T>>, k: nat)
    requires k < |pipes| && pipes[k].queue != []
    ensures Flows(pipes[k := pipes[k].Move()]) == Flows(pipes)
  {
    assert pipes[k].Move().All() == pipes[k].All();
  }

  lemma PopFlows<T>(pipes: seq<Pipe<T>>, k: nat)
    requires k < |pipes| && pipes[k].wire != []
    ensures Flows(pipes)[k] != [] && Flows(pipes)[k][0] == pipes[k].wire[0]
    ensures Flows(pipes[k := pipes[k].Pop()]) == Flows(pipes)[k := Flows(pipes)[k][1..]]
  {
    assert pipes[k].Pop().All() == pipes[k].All()[1..];
  }

  lemma LoseFlows<T>(pipes: seq<Pipe<T>>, k: nat)
    requires k < |pipes| && pipes[k].queue != []
    ensures var m := |pipes[k].wire|; var flow := Flows(pipes)[k];
            m < |flow| && flow[m] == pipes[k].queue[0] &&
            Flows(pipes[k := pipes[k].Lose()]) == Flows(pipes)[k := flow[..m] + flow[m + 1..]]
  {
    var m := |pipes[k].wire|;
    var flow := Flows(pipes)[k];
    assert pipes[k].Lose().All() == flow[..m] + flow[m + 1..];
  }

  lemma GrowFlows<T>(pipes: seq<Pipe<T>>)
    ensures Flows(pipes + [Empty()]) == Flows(pipes) + [[]]
  {
  }
}
