// A deque that is only evicted from the front, against the filter it stands for.
// Shared by src/services/fraud/split_tx_detector.py and velocity_detector.py.
module SlidingWindow {

  // The eviction loop: pop from the front while the front is too old.
  function Evict<T>(w: seq<T>, time: T -> int, cutoff: int): seq<T> {
    if w != [] && time(w[0]) < cutoff then Evict(w[1..], time, cutoff) else w
  }

  // The same loop, in place on a deque.
  method EvictExpired<T>(window: seq<T>, time: T -> int, cutoff: int) returns (w: seq<T>)
    ensures w == Evict(window, time, cutoff)
  {
    w := window;
    while w != [] && time(w[0]) < cutoff
      invariant Evict(w, time, cutoff) == Evict(window, time, cutoff)
      decreases |w|
    {
      w := w[1..];
    }
  }

  // Every entry that is not older than the cutoff, wherever it stands.
  function Since<T>(h: seq<T>, time: T -> int, cutoff: int): seq<T> {
    if h == [] then []
    else Since(h[..|h| - 1], time, cutoff) + (if time(h[|h| - 1]) >= cutoff then [h[|h| - 1]] else [])
  }

  predicate NoneAfter<T>(h: seq<T>, time: T -> int, now: int) {
    h == [] || (time(h[|h| - 1]) <= now && NoneAfter(h[..|h| - 1], time, now))
  }

  predicate InTimeOrder<T>(h: seq<T>, time: T -> int) {
    h == [] || (NoneAfter(h[..|h| - 1], time, time(h[|h| - 1])) && InTimeOrder(h[..|h| - 1], time))
  }

  lemma {:induction false} SinceAppend<T>(h: seq<T>, e: T, time: T -> int, cutoff: int)
    ensures Since(h + [e], time, cutoff) == Since(h, time, cutoff) + (if time(e) >= cutoff then [e] else [])
  {
    assert (h + [e])[..|h|] == h;
  }

  // A deque in time order whose first entry is recent enough is recent throughout.
  lemma {:induction false} SinceKeepsAll<T>(h: seq<T>, time: T -> int, cutoff: int)
    requires InTimeOrder(h, time) && (h != [] ==> time(h[0]) >= cutoff)
    ensures Since(h, time, cutoff) == h
  {
    if |h| > 1 {
      SinceKeepsAll(h[..|h| - 1], time, cutoff);
      FirstNotAfter(h[..|h| - 1], time, time(h[|h| - 1]));
    }
  }

  lemma {:induction false} FirstNotAfter<T>(h: seq<T>, time: T -> int, now: int)
    requires h != [] && NoneAfter(h, time, now)
    ensures time(h[0]) <= now
    ensures NoneAfter(h[1..], time, now)
  {
    if |h| > 1 {
      FirstNotAfter(h[..|h| - 1], time, now);
      assert h[1..][..|h| - 2] == h[..|h| - 1][1..];
    }
  }

  lemma {:induction false} TailInOrder<T>(h: seq<T>, time: T -> int)
    requires h != [] && InTimeOrder(h, time)
    ensures InTimeOrder(h[1..], time)
  {
    if |h| > 1 {
      TailInOrder(h[..|h| - 1], time);
      FirstNotAfter(h[..|h| - 1], time, time(h[|h| - 1]));
      assert h[1..][..|h| - 2] == h[..|h| - 1][1..];
    }
  }

  lemma {:induction false} SinceKeepsNone<T>(h: seq<T>, time: T -> int, now: int, cutoff: int)
    requires NoneAfter(h, time, now) && now < cutoff
    ensures Since(h, time, cutoff) == []
  {
    if h == [] {
    } else {
      SinceKeepsNone(h[..|h| - 1], time, now, cutoff);
    }
  }

  lemma {:induction false} SinceKeepsNoneOf<T>(h: seq<T>, time: T -> int, cutoff: int)
    requires forall e :: e in h ==> time(e) < cutoff
    ensures |Since(h, time, cutoff)| == 0
  {
    if h == [] {
    } else {
      SinceKeepsNoneOf(h[..|h| - 1], time, cutoff);
      assert h[|h| - 1] in h;
    }
  }

  lemma {:induction false} SinceDropsFirst<T>(h: seq<T>, time: T -> int, cutoff: int)
    requires h != [] && time(h[0]) < cutoff
    ensures Since(h, time, cutoff) == Since(h[1..], time, cutoff)
  {
    if |h| > 1 {
      SinceDropsFirst(h[..|h| - 1], time, cutoff);
      assert h[..|h| - 1][1..] == h[1..][..|h[1..]| - 1];
    }
  }

  lemma {:induction false} SinceTwice<T>(h: seq<T>, time: T -> int, early: int, late: int)
    requires early <= late
    ensures Since(Since(h, time, early), time, late) == Since(h, time, late)
  {
    if h == [] {
    } else {
      var front, last := h[..|h| - 1], h[|h| - 1];
      SinceTwice(front, time, early, late);
      SinceAppend(Since(front, time, early), last, time, late);
      if time(last) < early {
        assert Since(h, time, early) == Since(front, time, early);
        assert Since(h, time, late) == Since(front, time, late);
      }
    }
  }

  lemma {:induction false} SinceMembers<T>(h: seq<T>, time: T -> int, cutoff: int)
    ensures forall e :: e in Since(h, time, cutoff) <==> e in h && time(e) >= cutoff
  {
    if h == [] {
    } else {
      SinceMembers(h[..|h| - 1], time, cutoff);
      assert h == h[..|h| - 1] + [h[|h| - 1]];
    }
  }

  lemma AppendNoneAfter<T>(h: seq<T>, e: T, time: T -> int, now: int)
    requires NoneAfter(h, time, now) && time(e) <= now
    ensures NoneAfter(h + [e], time, now)
  {
    assert (h + [e])[..|h|] == h;
  }

  lemma AppendInOrder<T>(h: seq<T>, e: T, time: T -> int)
    requires InTimeOrder(h, time) && NoneAfter(h, time, time(e))
    ensures InTimeOrder(h + [e], time) && NoneAfter(h + [e], time, time(e))
  {
    assert (h + [e])[..|h|] == h;
  }

  lemma {:induction false} SinceNoneAfter<T>(h: seq<T>, time: T -> int, cutoff: int, now: int)
    requires NoneAfter(h, time, now)
    ensures NoneAfter(Since(h, time, cutoff), time, now)
  {
    if h == [] {
    } else {
      var front, last := h[..|h| - 1], h[|h| - 1];
      SinceNoneAfter(front, time, cutoff, now);
      if time(last) >= cutoff {
        AppendNoneAfter(Since(front, time, cutoff), last, time, now);
      } else {
        assert Since(h, time, cutoff) == Since(front, time, cutoff);
      }
    }
  }

  lemma {:induction false} SinceInOrder<T>(h: seq<T>, time: T -> int, cutoff: int)
    requires InTimeOrder(h, time)
    ensures InTimeOrder(Since(h, time, cutoff), time)
  {
    if h == [] {
    } else {
      var front, last := h[..|h| - 1], h[|h| - 1];
      SinceInOrder(front, time, cutoff);
      if time(last) >= cutoff {
        SinceNoneAfter(front, time, cutoff, time(last));
        AppendInOrder(Since(front, time, cutoff), last, time);
      } else {
        assert Since(h, time, cutoff) == Since(front, time, cutoff);
      }
    }
  }

  // On a deque in time order, popping from the front is filtering.
  lemma {:induction false} EvictIsSince<T>(w: seq<T>, time: T -> int, cutoff: int)
    requires InTimeOrder(w, time)
    ensures Evict(w, time, cutoff) == Since(w, time, cutoff)
  {
    if w != [] && time(w[0]) < cutoff {
      TailInOrder(w, time);
      EvictIsSince(w[1..], time, cutoff);
      SinceDropsFirst(w, time, cutoff);
    } else {
      SinceKeepsAll(w, time, cutoff);
    }
  }

  // The deque w holds what is left of the history h at a moment not before now:
  // everything since some cutoff that is no later than the current one.
  ghost predicate Tracks<T>(w: seq<T>, h: seq<T>, time: T -> int, now: int, width: int) {
    && InTimeOrder(h, time)
    && NoneAfter(h, time, now)
    && exists c :: IsSince(w, h, time, c) && c <= now - width
  }

  ghost predicate IsSince<T>(w: seq<T>, h: seq<T>, time: T -> int, c: int) {
    w == Since(h, time, c)
  }

  lemma {:induction false} NoneAfterLater<T>(h: seq<T>, time: T -> int, now: int, later: int)
    requires NoneAfter(h, time, now) && now <= later
    ensures NoneAfter(h, time, later)
  {
    if h == [] {
    } else {
      NoneAfterLater(h[..|h| - 1], time, now, later);
    }
  }

  lemma TracksLater<T>(w: seq<T>, h: seq<T>, time: T -> int, now: int, later: int, width: int)
    requires Tracks(w, h, time, now, width) && now <= later
    ensures Tracks(w, h, time, later, width)
  {
    NoneAfterLater(h, time, now, later);
  }

  // Evicting twice from a history is evicting once, at the later cutoff.
  lemma EvictOfSince<T>(h: seq<T>, time: T -> int, early: int, late: int)
    requires InTimeOrder(h, time) && early <= late
    ensures Evict(Since(h, time, early), time, late) == Since(h, time, late)
  {
    SinceInOrder(h, time, early);
    EvictIsSince(Since(h, time, early), time, late);
    SinceTwice(h, time, early, late);
  }

  lemma EvictTracks<T>(w: seq<T>, h: seq<T>, time: T -> int, now: int, width: int)
    requires Tracks(w, h, time, now, width)
    ensures Evict(w, time, now - width) == Since(h, time, now - width)
    ensures Tracks(Evict(w, time, now - width), h, time, now, width)
  {
    var c :| IsSince(w, h, time, c) && c <= now - width;
    EvictOfSince(h, time, c, now - width);
    assert IsSince(Evict(w, time, now - width), h, time, now - width);
  }

  lemma PushTracks<T>(w: seq<T>, h: seq<T>, e: T, time: T -> int, width: int)
    requires Tracks(w, h, time, time(e), width) && width >= 0
    ensures Evict(w, time, time(e) - width) + [e] == Since(h + [e], time, time(e) - width)
    ensures Tracks(Evict(w, time, time(e) - width) + [e], h + [e], time, time(e), width)
  {
    EvictTracks(w, h, time, time(e), width);
    SinceAppend(h, e, time, time(e) - width);
    AppendInOrder(h, e, time);
    assert IsSince(Evict(w, time, time(e) - width) + [e], h + [e], time, time(e) - width);
  }

  // ----- deques in the past of a cutoff -----

  predicate AllUpTo<T(==)>(w: seq<T>, time: T -> int, now: int) {
    forall e :: e in w ==> time(e) <= now
  }

  lemma {:induction false} EvictKeepsMembers<T>(w: seq<T>, time: T -> int, cutoff: int)
    ensures forall e :: e in Evict(w, time, cutoff) ==> e in w
  {
    if w != [] && time(w[0]) < cutoff {
      EvictKeepsMembers(w[1..], time, cutoff);
    }
  }

  // A cutoff in the future clears the deque.
  lemma {:induction false} EvictClears<T>(w: seq<T>, time: T -> int, now: int, cutoff: int)
    requires AllUpTo(w, time, now) && now < cutoff
    ensures Evict(w, time, cutoff) == []
  {
    if w == [] {
    } else {
      assert w[0] in w;
      EvictClears(w[1..], time, now, cutoff);
    }
  }
}
