/**
 * The XR display listener proxy (XRDisplayProxy): a duplicate-free list of
 * display listeners, created on first use, that registers the proxy with
 * the Android side when the first listener arrives and unregisters it when
 * the last one leaves, and that forwards display-added and display-removed
 * notifications to every listener in insertion order.
 *
 * The JNI calls are recorded as a log of NativeCall values; the listeners'
 * callbacks are recorded as a log of deliveries.
 */
module DisplayListeners {
  import opened Text

  /** setXRDisplayListener(this) and setXRDisplayListener(null). */
  datatype NativeCall = Register | Unregister

  datatype Notice = Added(dpID: Int32, width: Int32, height: Int32) | Removed(dpID: Int32)

  predicate NoDuplicates<L(==)>(s: seq<L>)
  {
    forall i, j | 0 <= i < j < |s| :: s[i] != s[j]
  }

  /** The list after Add unless the listener is already there. */
  function Inserted<L(==)>(s: seq<L>, x: L): seq<L>
  {
    if x in s then s else s + [x]
  }

  /** List.Remove: the first occurrence goes, if there is one. */
  function RemoveFirst<L(==)>(s: seq<L>, x: L): seq<L>
  {
    if s == [] then []
    else if s[0] == x then s[1..]
    else [s[0]] + RemoveFirst(s[1..], x)
  }

  /** Adding keeps the list duplicate-free, puts the listener in, and
      changes nothing when it was already there. */
  lemma InsertedSpec<L>(s: seq<L>, x: L)
    requires NoDuplicates(s)
    ensures var r := Inserted(s, x);
            NoDuplicates(r) && x in r && s <= r
            && (forall y :: y in r <==> y in s || y == x)
            && (x in s ==> r == s)
  { }

  /** List.Remove cuts the list at the first occurrence `i` of the
      listener: the listeners before and after it stay, in order. */
  lemma {:induction false} RemoveFirstCuts<L>(s: seq<L>, x: L) returns (i: nat)
    requires x in s
    ensures i < |s| && s[i] == x && RemoveFirst(s, x) == s[..i] + s[i + 1..]
  {
    if s[0] == x {
      i := 0;
    } else {
      var j := RemoveFirstCuts(s[1..], x);
      i := j + 1;
      calc {
        RemoveFirst(s, x);
        [s[0]] + RemoveFirst(s[1..], x);
        [s[0]] + (s[1..][..j] + s[1..][j + 1..]);
        { assert [s[0]] + s[1..][..j] == s[..i]; assert s[1..][j + 1..] == s[i + 1..]; }
        s[..i] + s[i + 1..];
      }
    }
  }

  /** Removing from a duplicate-free list takes exactly the listener out,
      keeps the others in order, and changes nothing when it is absent. */
  lemma {:induction false} RemoveFirstSpec<L>(s: seq<L>, x: L)
    requires NoDuplicates(s)
    ensures var r := RemoveFirst(s, x);
            && NoDuplicates(r)
            && (forall y :: y in r <==> y in s && y != x)
            && |r| == (if x in s then |s| - 1 else |s|)
            && (x !in s ==> r == s)
            && (x in s ==> exists i | 0 <= i < |s| :: s[i] == x && r == s[..i] + s[i + 1..])
  {
    if x in s {
      var i := RemoveFirstCuts(s, x);
      assert s[i] == x && RemoveFirst(s, x) == s[..i] + s[i + 1..];
    }
    if s != [] {
      RemoveFirstSpec(s[1..], x);
      var t := RemoveFirst(s[1..], x);
      if s[0] != x {
        assert RemoveFirst(s, x) == [s[0]] + t;
        assert s[0] !in s[1..];
      } else {
        assert x !in s[1..];
      }
    }
  }

  /** The listener calls one notification makes, in list order. */
  function Deliveries<L>(ls: seq<L>, n: Notice): (d: seq<(L, Notice)>)
    ensures |d| == |ls|
  {
    if ls == [] then [] else Deliveries(ls[..|ls| - 1], n) + [(ls[|ls| - 1], n)]
  }

  /** Every listener hears the notification exactly once, with the same
      arguments, in insertion order. */
  lemma {:induction false} DeliveriesInOrder<L>(ls: seq<L>, n: Notice)
    ensures forall i | 0 <= i < |ls| :: Deliveries(ls, n)[i] == (ls[i], n)
    decreases |ls|
  {
    if ls != [] {
      DeliveriesInOrder(ls[..|ls| - 1], n);
    }
  }

  /** The native log alternates registrations and unregistrations,
      starting with a registration. */
  predicate Alternating(calls: seq<NativeCall>)
  {
    forall i | 0 <= i < |calls| :: calls[i] == (if i % 2 == 0 then Register else Unregister)
  }

  /** The Android side holds the proxy after this log. */
  predicate Holds(calls: seq<NativeCall>)
  {
    calls != [] && calls[|calls| - 1] == Register
  }

  class XRDisplayProxy<L(==)> {
    /** m_XRDisplayListenerList != null */
    var created: bool
    /** m_XRDisplayListenerList */
    var listeners: seq<L>
    var nativeCalls: seq<NativeCall>
    var delivered: seq<(L, Notice)>

    /** The list has no duplicates, is empty until created, and the
        Android side holds the proxy exactly while there is a listener. */
    ghost predicate Valid()
      reads this
    {
      && NoDuplicates(listeners)
      && (!created ==> listeners == [])
      && Alternating(nativeCalls)
      && (Holds(nativeCalls) <==> listeners != [])
    }

    constructor ()
      ensures Valid()
      ensures !created && listeners == [] && nativeCalls == [] && delivered == []
    {
      created := false;
      listeners := [];
      nativeCalls := [];
      delivered := [];
    }

    /** Registers with the Android side exactly when the list is empty,
        and never inserts a listener twice. */
    method AddListener(callback: L)
      requires Valid()
      modifies this
      ensures Valid()
      ensures created
      ensures listeners == Inserted(old(listeners), callback)
      ensures nativeCalls == old(nativeCalls) + (if old(listeners) == [] then [Register] else [])
      ensures delivered == old(delivered)
    {
      if !created {
        created := true;
        listeners := [];
      }
      if |listeners| == 0 {
        nativeCalls := nativeCalls + [Register];
      }
      if callback !in listeners {
        listeners := listeners + [callback];
      }
    }

    /** A no-op on a missing or empty list; otherwise removes the listener
        and unregisters exactly when the list becomes empty. */
    method RemoveListener(callback: L)
      requires Valid()
      modifies this
      ensures Valid()
      ensures created == old(created) && delivered == old(delivered)
      ensures old(listeners) == [] ==> listeners == [] && nativeCalls == old(nativeCalls)
      ensures old(listeners) != [] ==>
                && listeners == RemoveFirst(old(listeners), callback)
                && nativeCalls == old(nativeCalls) + (if listeners == [] then [Unregister] else [])
      ensures callback !in old(listeners) ==> listeners == old(listeners) && nativeCalls == old(nativeCalls)
    {
      if created && |listeners| > 0 {
        RemoveFirstSpec(listeners, callback);
        listeners := RemoveFirst(listeners, callback);
        if |listeners| == 0 {
          nativeCalls := nativeCalls + [Unregister];
        }
      }
    }

    method Notify(n: Notice)
      requires Valid()
      modifies this`delivered
      ensures delivered == old(delivered) + (if created then Deliveries(listeners, n) else [])
    {
      if created {
        var i := 0;
        while i < |listeners|
          invariant 0 <= i <= |listeners|
          invariant delivered == old(delivered) + Deliveries(listeners[..i], n)
        {
          assert listeners[..i + 1][..i] == listeners[..i];
          delivered := delivered + [(listeners[i], n)];
          i := i + 1;
        }
        assert listeners[..i] == listeners;
      }
    }

    method OnXRDisplayAdded(dpID: Int32, width: Int32, height: Int32)
      requires Valid()
      modifies this`delivered
      ensures delivered == old(delivered) + Deliveries(listeners, Added(dpID, width, height))
    {
      Notify(Added(dpID, width, height));
    }

    method OnXRDisplayRemoved(dpID: Int32)
      requires Valid()
      modifies this`delivered
      ensures delivered == old(delivered) + Deliveries(listeners, Removed(dpID))
    {
      Notify(Removed(dpID));
    }
  }
}
