/**
  * The toast provider: a stack of at most five messages, newest first, each with an id drawn
  * from the clock plus a per-provider counter, and the stacking style of each position.
  */
module ToastQueue {

  const MaxToasts: nat := 5

  datatype ToastItem = ToastItem(id: int, message: string, createdAt: int)

  /** The new toast goes in front; beyond five, the oldest ones fall off the end. */
  function Pushed(toasts: seq<ToastItem>, t: ToastItem): (r: seq<ToastItem>)
    ensures |r| == if |toasts| + 1 > MaxToasts then MaxToasts else |toasts| + 1
    ensures r[0] == t
    ensures r[1..] == toasts[..|r| - 1]
  {
    var grown := [t] + toasts;
    if |grown| > MaxToasts then grown[..MaxToasts] else grown
  }

  /** `prev.filter(toast => toast.id !== id)`. */
  function Removed(toasts: seq<ToastItem>, id: int): (r: seq<ToastItem>)
    ensures |r| <= |toasts|
    ensures forall t :: t in r <==> t in toasts && t.id != id
    decreases |toasts|
  {
    if toasts == [] then []
    else
      var rest := Removed(toasts[1..], id);
      assert forall t :: t in toasts <==> t == toasts[0] || t in toasts[1..];
      if toasts[0].id == id then rest else [toasts[0]] + rest
  }

  /** Ids strictly decrease from the front: the front is the newest toast. */
  predicate Descending(toasts: seq<ToastItem>) {
    forall i, j :: 0 <= i < j < |toasts| ==> toasts[i].id > toasts[j].id
  }

  lemma {:induction false} RemovedAbsent(toasts: seq<ToastItem>, id: int)
    requires forall t :: t in toasts ==> t.id != id
    ensures Removed(toasts, id) == toasts
    decreases |toasts|
  {
    if toasts != [] {
      assert toasts[0] in toasts;
      RemovedAbsent(toasts[1..], id);
    }
  }

  /** Below the front of a descending stack lies a descending stack of older toasts. */
  lemma DescendingTail(toasts: seq<ToastItem>)
    requires Descending(toasts) && toasts != []
    ensures Descending(toasts[1..])
    ensures forall t :: t in toasts[1..] ==> t.id < toasts[0].id
  {
    var tail := toasts[1..];
    forall i, j | 0 <= i < j < |tail| ensures tail[i].id > tail[j].id {
      assert tail[i] == toasts[i + 1] && tail[j] == toasts[j + 1];
    }
    forall t | t in tail ensures t.id < toasts[0].id {
      var j :| 0 <= j < |tail| && tail[j] == t;
      assert toasts[j + 1] == t;
    }
  }

  /** A toast newer than every toast of a descending stack can go in front of it. */
  lemma DescendingCons(x: ToastItem, rest: seq<ToastItem>)
    requires Descending(rest)
    requires forall t :: t in rest ==> t.id < x.id
    ensures Descending([x] + rest)
  {
    var r := [x] + rest;
    forall i, j | 0 <= i < j < |r| ensures r[i].id > r[j].id {
      assert r[j] == rest[j - 1];
      if i > 0 {
        assert r[i] == rest[i - 1];
      } else {
        assert r[j] in rest;
      }
    }
  }

  /** The filter keeps the surviving toasts in their order. */
  lemma {:induction false} RemovedKeepsDescending(toasts: seq<ToastItem>, id: int)
    requires Descending(toasts)
    ensures Descending(Removed(toasts, id))
    decreases |toasts|
  {
    if toasts != [] {
      DescendingTail(toasts);
      RemovedKeepsDescending(toasts[1..], id);
      if toasts[0].id != id {
        DescendingCons(toasts[0], Removed(toasts[1..], id));
      }
    }
  }

  /** The filter distributes over concatenation. */
  lemma {:induction false} RemovedConcat(a: seq<ToastItem>, b: seq<ToastItem>, id: int)
    ensures Removed(a + b, id) == Removed(a, id) + Removed(b, id)
    decreases |a|
  {
    if a == [] {
      assert a + b == b;
    } else {
      assert (a + b)[1..] == a[1..] + b;
      RemovedConcat(a[1..], b, id);
    }
  }

  /** In a descending stack, the toasts in front of one are newer and those behind it older. */
  lemma DescendingAround(toasts: seq<ToastItem>, k: nat)
    requires Descending(toasts) && k < |toasts|
    ensures forall t :: t in toasts[..k] ==> t.id > toasts[k].id
    ensures forall t :: t in toasts[k + 1..] ==> t.id < toasts[k].id
  {
    forall t | t in toasts[..k] ensures t.id > toasts[k].id {
      var j :| 0 <= j < k && toasts[..k][j] == t;
      assert toasts[j] == t;
    }
    forall t | t in toasts[k + 1..] ensures t.id < toasts[k].id {
      var j :| 0 <= j < |toasts| - k - 1 && toasts[k + 1..][j] == t;
      assert toasts[k + 1 + j] == t;
    }
  }

  /** Removing the id of a toast that no other toast shares leaves the others around it. */
  lemma RemovedSingle(pre: seq<ToastItem>, x: ToastItem, post: seq<ToastItem>)
    requires forall t :: t in pre ==> t.id != x.id
    requires forall t :: t in post ==> t.id != x.id
    ensures Removed(pre + [x] + post, x.id) == pre + post
  {
    assert Removed([x], x.id) == [] by {
      assert [x][1..] == [];
    }
    calc {
      Removed(pre + [x] + post, x.id);
      { RemovedConcat(pre + [x], post, x.id); }
      Removed(pre + [x], x.id) + Removed(post, x.id);
      { RemovedConcat(pre, [x], x.id); }
      Removed(pre, x.id) + Removed([x], x.id) + Removed(post, x.id);
      { RemovedAbsent(pre, x.id); RemovedAbsent(post, x.id); }
      pre + [] + post;
      pre + post;
    }
  }

  /** With distinct ids, closing a shown toast removes that toast and no other. */
  lemma RemovedOne(toasts: seq<ToastItem>, k: nat)
    requires Descending(toasts) && k < |toasts|
    ensures Removed(toasts, toasts[k].id) == toasts[..k] + toasts[k + 1..]
  {
    DescendingAround(toasts, k);
    assert toasts == toasts[..k] + [toasts[k]] + toasts[k + 1..];
    RemovedSingle(toasts[..k], toasts[k], toasts[k + 1..]);
  }

  /** Pushing an id above every present id keeps the stack ordered newest first. */
  lemma PushedKeepsDescending(toasts: seq<ToastItem>, t: ToastItem)
    requires Descending(toasts)
    requires forall u :: u in toasts ==> u.id < t.id
    ensures Descending(Pushed(toasts, t))
  {
    var r := Pushed(toasts, t);
    forall i, j | 0 <= i < j < |r| ensures r[i].id > r[j].id {
      assert r[j] == toasts[j - 1];
      if i == 0 {
        assert toasts[j - 1] in toasts;
      } else {
        assert r[i] == toasts[i - 1];
      }
    }
  }

  /** Six pushes onto an empty stack leave the five newest, newest first. */
  lemma SixthToastDropsOldest(a: ToastItem, b: ToastItem, c: ToastItem, d: ToastItem, e: ToastItem, f: ToastItem)
    ensures Pushed(Pushed(Pushed(Pushed(Pushed(Pushed([], a), b), c), d), e), f) == [f, e, d, c, b]
  {
    var s1 := Pushed([], a);
    assert s1 == [a];
    var s2 := Pushed(s1, b);
    assert s2 == [b, a];
    var s3 := Pushed(s2, c);
    assert s3 == [c, b, a];
    var s4 := Pushed(s3, d);
    assert s4 == [d, c, b, a];
    var s5 := Pushed(s4, e);
    assert s5 == [e, d, c, b, a];
    var s6 := Pushed(s5, f);
    assert s6 == [f, e, d, c, b];
  }

  /** The stacking style of the toast at a position: 0 is the front (newest). */
  datatype Layer = Layer(zIndex: int, offsetY: int, brightness: int, dimmed: bool)

  function LayerAt(index: nat): (l: Layer)
    ensures index == 0 ==> l == Layer(50, 0, 100, false)
    ensures index > 0 ==> l.dimmed && l.brightness == 100 - 5 * index
    ensures l.zIndex + index == 50 && l.offsetY == -4 * index
  {
    Layer(50 - index, index * -4, if index > 0 then 100 - index * 5 else 100, index > 0)
  }

  /** In a full stack the newer toast is always drawn above, higher up and brighter. */
  lemma LayersOrdered(i: nat, j: nat)
    requires i < j < MaxToasts
    ensures LayerAt(i).zIndex > LayerAt(j).zIndex
    ensures LayerAt(i).offsetY > LayerAt(j).offsetY
    ensures LayerAt(i).brightness > LayerAt(j).brightness
    ensures 46 <= LayerAt(j).zIndex && 80 <= LayerAt(j).brightness
  {
  }

  /** `showToast`'s id: the clock reading plus the incremented counter. */
  function NextId(now: int, counter: nat): int {
    now + counter + 1
  }

  /** Two calls within the same millisecond still get distinct ids... */
  lemma SameMillisecondDistinct(now: int, counter: nat)
    ensures NextId(now, counter) != NextId(now, counter + 1)
  {
  }

  /** ...but a clock that steps back by one millisecond reissues the previous id. */
  lemma ClockStepBackRepeatsId(now: int, counter: nat)
    ensures NextId(now, counter) == NextId(now - 1, counter + 1)
  {
  }

  /** One mounted provider: the `toasts` state and the `toastIdCounter` ref. */
  class ToastProvider {
    var toasts: seq<ToastItem>
    var counter: nat
    /** The latest clock reading seen by `showToast` (the largest one). */
    ghost var lastNow: int

    ghost predicate Valid()
      reads this
    {
      |toasts| <= MaxToasts && Descending(toasts)
      && forall t :: t in toasts ==> t.id <= lastNow + counter
    }

    constructor ()
      ensures toasts == [] && counter == 0 && Valid()
    {
      toasts := [];
      counter := 0;
      lastNow := 0;
    }

    /**
      * `showToast(message)`: `now` and `createdAt` are the two clock readings it takes. The
      * stack stays ordered and its ids distinct as long as the clock never goes back.
      */
    method ShowToast(message: string, now: int, createdAt: int) returns (id: int)
      modifies this
      ensures counter == old(counter) + 1 && id == NextId(now, old(counter))
      ensures toasts == Pushed(old(toasts), ToastItem(id, message, createdAt))
      ensures lastNow == if now > old(lastNow) then now else old(lastNow)
      ensures old(Valid()) && now >= old(lastNow) ==> Valid()
    {
      counter := counter + 1;
      id := now + counter;
      var t := ToastItem(id, message, createdAt);
      if old(Valid()) && now >= lastNow {
        PushedKeepsDescending(toasts, t);
      }
      toasts := Pushed(toasts, t);
      lastNow := if now > lastNow then now else lastNow;
    }

    /** `removeToast(id)`, which each shown toast's close callback calls with its own id. */
    method RemoveToast(id: int)
      modifies this
      ensures toasts == Removed(old(toasts), id)
      ensures counter == old(counter) && lastNow == old(lastNow)
      ensures old(Valid()) ==> Valid()
    {
      if Valid() {
        RemovedKeepsDescending(toasts, id);
      }
      toasts := Removed(toasts, id);
    }
  }
}
