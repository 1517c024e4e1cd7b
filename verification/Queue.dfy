/** knight/src/common/queue.h: a bounded first-in first-out queue that can be closed. */
module Queue {

  const EVENT_CAPACITY: nat := 10000

  datatype View<T> = View(items: seq<T>, closed: bool)

  predicate Accepts<T>(capacity: nat, q: View<T>)
  {
    !q.closed && |q.items| < capacity
  }

  function Push<T>(capacity: nat, q: View<T>, item: T): View<T>
  {
    if Accepts(capacity, q) then q.(items := q.items + [item]) else q
  }

  /** The predicate of the condition variable. */
  predicate Ready<T>(q: View<T>)
  {
    q.items != [] || q.closed
  }

  datatype Received<T> = Waiting | Drained | Item(item: T)

  datatype Taken<T> = Taken(view: View<T>, received: Received<T>)

  /** wait_pop each time its waiter looks. */
  function Take<T>(q: View<T>): Taken<T>
  {
    if !Ready(q) then Taken(q, Waiting)
    else if q.items == [] then Taken(q, Drained)
    else Taken(q.(items := q.items[1..]), Item(q.items[0]))
  }

  datatype Op<T> = OpPush(item: T) | OpTake | OpClose

  datatype History<T> = History(view: View<T>, accepted: seq<T>, popped: seq<T>)

  function Apply<T>(capacity: nat, h: History<T>, op: Op<T>): History<T>
  {
    match op
    case OpPush(item) =>
      h.(view := Push(capacity, h.view, item),
         accepted := if Accepts(capacity, h.view) then h.accepted + [item] else h.accepted)
    case OpTake =>
      var t := Take(h.view);
      h.(view := t.view, popped := if t.received.Item? then h.popped + [t.received.item] else h.popped)
    case OpClose => h.(view := h.view.(closed := true))
  }

  function Run<T>(capacity: nat, ops: seq<Op<T>>): History<T>
  {
    if ops == [] then History(View([], false), [], [])
    else Apply(capacity, Run(capacity, ops[..|ops| - 1]), ops[|ops| - 1])
  }

  /** In every run the popped items followed by the contents are the accepted pushes, in order,
      and the size never exceeds the capacity. */
  lemma {:induction false} FirstInFirstOut<T>(capacity: nat, ops: seq<Op<T>>)
    ensures var h := Run(capacity, ops);
            h.popped + h.view.items == h.accepted && |h.view.items| <= capacity
  {
    if ops != [] {
      FirstInFirstOut(capacity, ops[..|ops| - 1]);
      var h := Run(capacity, ops[..|ops| - 1]);
      if ops[|ops| - 1].OpTake? && h.view.items != [] {
        assert h.popped + [h.view.items[0]] + h.view.items[1..] == h.popped + h.view.items;
      }
    }
  }

  class Queue<T> {
    const capacity: nat
    var items: seq<T>
    var closed: bool
    ghost var accepted: seq<T>
    ghost var popped: seq<T>

    ghost predicate Valid()
      reads this
    {
      |items| <= capacity && popped + items == accepted
    }

    constructor (size: nat)
      ensures Valid() && capacity == size && items == [] && !closed && accepted == []
    {
      capacity, items, closed, accepted, popped := size, [], false, [], [];
    }

    method TryPush(item: T) returns (pushed: bool)
      requires Valid()
      modifies this
      ensures Valid() && closed == old(closed) && popped == old(popped)
      ensures pushed <==> !old(closed) && |old(items)| < capacity
      ensures View(items, closed) == Push(capacity, old(View(items, closed)), item)
      ensures accepted == old(accepted) + if pushed then [item] else []
    {
      if closed || |items| >= capacity {
        return false;
      }
      items := items + [item];
      accepted := accepted + [item];
      return true;
    }

    /** wait_pop from the point where its predicate is evaluated. */
    method WaitPop() returns (received: Received<T>)
      requires Valid()
      modifies this
      ensures Valid() && closed == old(closed) && accepted == old(accepted)
      ensures Taken(View(items, closed), received) == Take(old(View(items, closed)))
      ensures popped == old(popped) + if received.Item? then [received.item] else []
      ensures received.Drained? ==> closed && popped == accepted
    {
      if items == [] && !closed {
        return Waiting;
      }
      if items == [] {
        return Drained;
      }
      received := Item(items[0]);
      assert popped + [items[0]] + items[1..] == popped + items;
      popped := popped + [items[0]];
      items := items[1..];
    }

    method Close()
      requires Valid()
      modifies this
      ensures Valid() && closed && items == old(items) && accepted == old(accepted) && popped == old(popped)
    {
      closed := true;
    }
  }
}
