/**
 * The publish/subscribe table that hands incoming data to the interfaces:
 * a label maps to the list of its callbacks in subscription order.
 * Callbacks are known by identity; `push` reports the calls it makes, in
 * order, instead of running foreign code.
 */
module DataEventManager {

  type Label = string

  /** A subscribed callback, identified by a number. */
  type ListenerId = nat

  /** One invocation `callback(...args)`. */
  datatype Call = Call(listener: ListenerId, args: seq<string>)

  type Table = map<Label, seq<ListenerId>>

  /** The callbacks of `eventLabel`, or none when the label was never subscribed to. */
  function ListenersOf(table: Table, eventLabel: Label): seq<ListenerId> {
    if eventLabel in table then table[eventLabel] else []
  }

  /** The table after `subscribe(label, callback)`. */
  function Subscribed(table: Table, eventLabel: Label, callback: ListenerId): (t: Table)
    ensures t.Keys == table.Keys + {eventLabel}
    ensures t[eventLabel] == ListenersOf(table, eventLabel) + [callback]
    ensures forall l :: l in table && l != eventLabel ==> t[l] == table[l]
  {
    table[eventLabel := ListenersOf(table, eventLabel) + [callback]]
  }

  /** The calls `forEach` makes, one per callback, in list order. */
  function Invocations(ls: seq<ListenerId>, args: seq<string>): (calls: seq<Call>)
    ensures |calls| == |ls|
  {
    if ls == [] then [] else Invocations(ls[..|ls| - 1], args) + [Call(ls[|ls| - 1], args)]
  }

  lemma {:induction false} InvocationsAt(ls: seq<ListenerId>, args: seq<string>, i: nat)
    requires i < |ls|
    ensures Invocations(ls, args)[i] == Call(ls[i], args)
  {
    if i < |ls| - 1 {
      InvocationsAt(ls[..|ls| - 1], args, i);
    }
  }

  /** A callback subscribed last is called last, after the earlier ones in their order. */
  lemma SubscribeThenDeliver(table: Table, eventLabel: Label, callback: ListenerId, args: seq<string>)
    ensures Invocations(ListenersOf(Subscribed(table, eventLabel, callback), eventLabel), args)
            == Invocations(ListenersOf(table, eventLabel), args) + [Call(callback, args)]
  {
    var ls := ListenersOf(table, eventLabel) + [callback];
    assert ls[..|ls| - 1] == ListenersOf(table, eventLabel);
  }

  /** Subscribing to one label leaves the calls another label makes as they were. */
  lemma SubscribeKeepsOtherLabels(table: Table, eventLabel: Label, other: Label, callback: ListenerId)
    requires other != eventLabel
    ensures ListenersOf(Subscribed(table, eventLabel, callback), other) == ListenersOf(table, other)
  {
  }

  class EventManager {
    var listeners: Table

    constructor ()
      ensures listeners == map[]
    {
      listeners := map[];
    }

    /** `subscribe`: append the callback to the label's list, creating it if needed. */
    method Subscribe(eventLabel: Label, callback: ListenerId)
      modifies this
      ensures listeners == Subscribed(old(listeners), eventLabel, callback)
    {
      if eventLabel !in listeners {
        listeners := listeners[eventLabel := []];
      }
      listeners := listeners[eventLabel := listeners[eventLabel] + [callback]];
    }

    /**
     * `push`: call every callback of the eventLabel once, in subscription order,
     * with the same arguments; false, and no call, when the label has none.
     */
    method Push(eventLabel: Label, args: seq<string>) returns (delivered: bool, calls: seq<Call>)
      ensures delivered <==> eventLabel in listeners && listeners[eventLabel] != []
      ensures !delivered ==> calls == []
      ensures delivered ==> |calls| == |listeners[eventLabel]|
      ensures delivered ==> forall i :: 0 <= i < |calls| ==> calls[i] == Call(listeners[eventLabel][i], args)
    {
      calls := [];
      if eventLabel in listeners && |listeners[eventLabel]| > 0 {
        var ls := listeners[eventLabel];
        var i := 0;
        while i < |ls|
          invariant 0 <= i <= |ls|
          invariant |calls| == i
          invariant forall k :: 0 <= k < i ==> calls[k] == Call(ls[k], args)
        {
          calls := calls + [Call(ls[i], args)];
          i := i + 1;
        }
        return true, calls;
      }
      return false, calls;
    }
  }

  /** What `Push` returns, stated through the pure definition of the calls. */
  lemma PushIsInvocations(table: Table, eventLabel: Label, args: seq<string>, calls: seq<Call>)
    requires eventLabel in table && table[eventLabel] != []
    requires |calls| == |table[eventLabel]|
    requires forall i :: 0 <= i < |calls| ==> calls[i] == Call(table[eventLabel][i], args)
    ensures calls == Invocations(ListenersOf(table, eventLabel), args)
  {
    forall i | 0 <= i < |calls|
      ensures calls[i] == Invocations(ListenersOf(table, eventLabel), args)[i]
    {
      InvocationsAt(table[eventLabel], args, i);
    }
  }
}
