/** The specification of one direction of a relay: a lossless first-in first-out pipe. */
module FifoPipe {
  import opened BufferEvents

  datatype Action = Put(data: seq<Byte>) | Get(n: nat) | Skip

  datatype Pipe = Pipe(entered: seq<Byte>, queue: seq<Byte>, left: seq<Byte>) {
    predicate Can(a: Action) {
      a.Get? ==> a.n <= |queue|
    }

    function Do(a: Action): Pipe
      requires Can(a)
    {
      match a
      case Put(data) => Pipe(entered + data, queue + data, left)
      case Get(n) => Pipe(entered, queue[n..], left + queue[..n])
      case Skip => this
    }
  }

  predicate Accepts(p: Pipe, actions: seq<Action>)
    decreases |actions|
  {
    actions != [] ==> p.Can(actions[0]) && Accepts(p.Do(actions[0]), actions[1..])
  }

  function DoAll(p: Pipe, actions: seq<Action>): Pipe
    requires Accepts(p, actions)
    decreases |actions|
  {
    if actions == [] then p else DoAll(p.Do(actions[0]), actions[1..])
  }

  /** Nothing is lost, duplicated or reordered by a pipe, whatever is done to it. */
  lemma {:induction false} PipeIsLossless(p: Pipe, actions: seq<Action>)
    requires Accepts(p, actions) && p.entered == p.left + p.queue
    ensures var q := DoAll(p, actions); q.entered == q.left + q.queue
    decreases |actions|
  {
    if actions == [] {
    } else {
      var q := p.Do(actions[0]);
      assert q.entered == q.left + q.queue by {
        if actions[0].Get? {
          assert p.queue == p.queue[..actions[0].n] + p.queue[actions[0].n..];
        }
      }
      PipeIsLossless(q, actions[1..]);
    }
  }
}
