/**
 * hooks/use-toast.ts: the module-level registry of toast listeners and the
 * toast counter. A listener is known by its identity; calling one is recorded
 * as a delivery of that toast to that listener, in call order.
 */
module UseToast {
  import opened Js

  datatype Variant = Default | Destructive

  datatype ToastProps = ToastProps(title: Option<string>, description: Option<string>, variant: Option<Variant>)

  datatype Toast = Toast(props: ToastProps, id: string)

  /** A listener's identity: the function object `indexOf` compares. */
  type Listener = nat

  datatype Delivery = Delivery(listener: Listener, toast: Toast)

  /** `indexOf`: the first position holding `x`, or -1. */
  function IndexOf<T(==)>(s: seq<T>, x: T): (r: int)
    ensures -1 <= r < |s|
    ensures r == -1 <==> x !in s
    ensures r >= 0 ==> s[r] == x && x !in s[..r]
  {
    if s == [] then -1
    else if s[0] == x then 0
    else
      var rest := IndexOf(s[1..], x);
      assert s[1..][..rest + 1] == s[1..rest + 2] by {
        if rest >= 0 {
          assert s[1..][..rest] == s[1..rest + 1];
        }
      }
      if rest == -1 then -1 else rest + 1
  }

  /** What the unsubscribe closure leaves: the first occurrence of `x` removed, the rest in order. */
  function RemoveFirst<T(==)>(s: seq<T>, x: T): (r: seq<T>)
    ensures x !in s ==> r == s
    ensures x in s ==> |r| == |s| - 1
    ensures multiset(r) == multiset(s) - multiset{x}
  {
    var i := IndexOf(s, x);
    if i > -1 then
      assert s == s[..i] + [s[i]] + s[i + 1..];
      s[..i] + s[i + 1..]
    else s
  }

  /** Removing the one occurrence of a listener just added gives the registry back. */
  lemma AddThenRemove<T>(s: seq<T>, x: T)
    requires x !in s
    ensures RemoveFirst(s + [x], x) == s
  {
    assert IndexOf(s + [x], x) == |s| by {
      assert (s + [x])[|s|] == x;
      assert (s + [x])[..|s|] == s;
    }
    assert (s + [x])[..|s|] == s;
  }

  /** Removal keeps the order of what stays: everything before the occurrence, then everything after it. */
  lemma RemoveFirstKeepsOrder<T>(s: seq<T>, x: T, i: nat)
    requires i < |s| && s[i] == x && x !in s[..i]
    ensures RemoveFirst(s, x) == s[..i] + s[i + 1..]
  {
  }

  /** The ids `emitToast` hands out for the first `n` toasts: "1", "2", ... */
  function IdsUpTo(n: nat): (ids: seq<string>)
    ensures |ids| == n
    ensures forall i :: 0 <= i < n ==> ids[i] == NatToString(i + 1)
  {
    seq(n, i requires 0 <= i < n => NatToString(i + 1))
  }

  /** No two toasts get the same id. */
  lemma IdsUnique(n: nat)
    ensures forall i, j :: 0 <= i < j < n ==> IdsUpTo(n)[i] != IdsUpTo(n)[j]
  {
    forall i, j | 0 <= i < j < n ensures IdsUpTo(n)[i] != IdsUpTo(n)[j] {
      if NatToString(i + 1) == NatToString(j + 1) {
        NatToStringInjective(i + 1, j + 1);
      }
    }
  }

  /** One toast handed to every listener, in registry order. */
  function Broadcast(listeners: seq<Listener>, toast: Toast): (r: seq<Delivery>)
    ensures |r| == |listeners|
    ensures forall i :: 0 <= i < |listeners| ==> r[i] == Delivery(listeners[i], toast)
  {
    seq(|listeners|, i requires 0 <= i < |listeners| => Delivery(listeners[i], toast))
  }

  /** The registry and the counter. */
  class ToastHub {
    var listeners: seq<Listener>
    var toastCount: nat
    /** Every call of a listener so far, in order. */
    var deliveries: seq<Delivery>
    /** The ids handed out so far. */
    ghost var issued: seq<string>

    ghost predicate Valid()
      reads this
    {
      issued == IdsUpTo(toastCount)
    }

    constructor()
      ensures Valid() && listeners == [] && toastCount == 0 && deliveries == []
    {
      listeners := [];
      toastCount := 0;
      deliveries := [];
      issued := [];
    }

    /** `addListener`: the listener goes to the end of the registry. */
    method AddListener(listener: Listener)
      modifies this
      ensures listeners == old(listeners) + [listener]
      ensures unchanged(this`toastCount) && unchanged(this`deliveries) && unchanged(this`issued)
    {
      listeners := listeners + [listener];
    }

    /** The closure `addListener` returns: the first registration of that listener goes, if there is one. */
    method Unsubscribe(listener: Listener)
      modifies this
      ensures listeners == RemoveFirst(old(listeners), listener)
      ensures unchanged(this`toastCount) && unchanged(this`deliveries) && unchanged(this`issued)
    {
      var index := IndexOf(listeners, listener);
      if index > -1 {
        listeners := listeners[..index] + listeners[index + 1..];
      }
    }

    /**
     * `emitToast`: the counter goes up first, so the id is the new count; each
     * listener, in registry order, is called once with the toast, and the id is
     * returned.
     */
    method EmitToast(props: ToastProps) returns (id: string)
      requires Valid()
      modifies this
      ensures Valid()
      ensures toastCount == old(toastCount) + 1 && id == NatToString(toastCount)
      ensures issued == old(issued) + [id]
      ensures id !in old(issued)
      ensures deliveries == old(deliveries) + Broadcast(listeners, Toast(props, id))
      ensures unchanged(this`listeners)
    {
      toastCount := toastCount + 1;
      id := NatToString(toastCount);
      var toast := Toast(props, id);
      forall k | 0 <= k < |issued| ensures issued[k] != id {
        if issued[k] == id {
          NatToStringInjective(k + 1, toastCount);
        }
      }
      issued := issued + [id];
      assert Valid();
      var i := 0;
      while i < |listeners|
        invariant 0 <= i <= |listeners|
        invariant listeners == old(listeners) && toastCount == old(toastCount) + 1 && issued == old(issued) + [id]
        invariant deliveries == old(deliveries) + Broadcast(listeners[..i], toast)
      {
        deliveries := deliveries + [Delivery(listeners[i], toast)];
        assert Broadcast(listeners[..i + 1], toast) == Broadcast(listeners[..i], toast) + [Delivery(listeners[i], toast)];
        i := i + 1;
      }
      assert listeners[..i] == listeners;
    }
  }

  /** Two toasts in a row get different ids, and both reach a listener registered before them, in that order. */
  method TwoToastsInOrder(hub: ToastHub, listener: Listener, a: ToastProps, b: ToastProps) returns (first: string, second: string)
    requires hub.Valid()
    modifies hub
    ensures first != second
    ensures hub.deliveries == old(hub.deliveries) + Broadcast(old(hub.listeners) + [listener], Toast(a, first))
                                                 + Broadcast(old(hub.listeners) + [listener], Toast(b, second))
  {
    hub.AddListener(listener);
    first := hub.EmitToast(a);
    second := hub.EmitToast(b);
  }
}
