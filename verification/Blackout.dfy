/** Blackout windows of a link: the next instant at which a delivery may be made.  Instants are
    nanoseconds since the Unix epoch, the relay's timestamps whole milliseconds. */
module Blackout {
  import opened Types

  datatype Window = Window(start: int, end: int)

  /** The last millisecond that the time library can represent. */
  const LAST_MILLISECOND: nat := 8_210_266_876_799_999

  predicate Covers(w: Window, t: int) { w.start <= t < w.end }

  /** No window covers the instant. */
  predicate Free(windows: seq<Window>, t: int) { forall i :: 0 <= i < |windows| ==> !Covers(windows[i], t) }

  /** `r` is the first free instant from `t` on. */
  ghost predicate FirstFree(windows: seq<Window>, t: int, r: int) {
    t <= r && Free(windows, r) && forall x :: t <= x < r ==> !Free(windows, x)
  }

  lemma FirstFreeUnique(windows: seq<Window>, t: int, a: int, b: int)
    requires FirstFree(windows, t, a) && FirstFree(windows, t, b)
    ensures a == b
  {
    assert Free(windows, a) && Free(windows, b);
  }

  /** How many windows end after `t`; each one left behind makes progress. */
  function Ahead(windows: seq<Window>, t: int): nat {
    if windows == [] then 0
    else
      var n := |windows| - 1;
      Ahead(windows[..n], t) + if windows[n].end > t then 1 else 0
  }

  lemma {:induction false} AheadShrinks(windows: seq<Window>, t: int, t': int)
    requires t <= t'
    ensures Ahead(windows, t') <= Ahead(windows, t)
  {
    if windows != [] {
      AheadShrinks(windows[..|windows| - 1], t, t');
    }
  }

  lemma {:induction false} Progress(windows: seq<Window>, i: nat, t: int)
    requires i < |windows| && Covers(windows[i], t)
    ensures Ahead(windows, windows[i].end) < Ahead(windows, t)
  {
    var n := |windows| - 1;
    if i < n {
      Progress(windows[..n], i, t);
    } else {
      AheadShrinks(windows[..n], t, windows[n].end);
    }
  }

  /** The first window that covers `t`, or the number of windows. */
  function Blocking(windows: seq<Window>, t: int): (i: nat)
    ensures i <= |windows| && (i < |windows| ==> Covers(windows[i], t)) && (i == |windows| <==> Free(windows, t))
  {
    if windows == [] then 0
    else
      var n := |windows| - 1;
      var before := Blocking(windows[..n], t);
      if before < n then before
      else if Covers(windows[n], t) then n
      else |windows|
  }

  /** The first free instant. */
  function NextFree(windows: seq<Window>, t: int): (r: int)
    ensures FirstFree(windows, t, r)
    decreases Ahead(windows, t)
  {
    var i := Blocking(windows, t);
    if i == |windows| then t
    else
      Progress(windows, i, t);
      var r := NextFree(windows, windows[i].end);
      assert forall x :: t <= x < windows[i].end ==> Covers(windows[i], x);
      r
  }

  /** Whole milliseconds, rounded down. */
  function Millis(t: int): int { t / 1_000_000 }
  function Nanos(ms: int): int { ms * 1_000_000 }

  /** The relay's `next_delivery_after`; a timestamp out of range is an error. */
  function NextDelivery(windows: seq<Window>, ms: nat): (r: Option<nat>)
    ensures r.Some? <==> ms <= LAST_MILLISECOND
    ensures r.Some? ==> ms <= r.value
  {
    if ms > LAST_MILLISECOND then None else Some(Millis(NextFree(windows, Nanos(ms))))
  }

  /** Pass over the windows until a pass moves nothing. */
  method NextDeliveryAfter(windows: seq<Window>, ms: nat) returns (r: Option<nat>)
    ensures r == NextDelivery(windows, ms)
  {
    if ms > LAST_MILLISECOND {
      return None;
    }
    var candidate := Nanos(ms);
    while true
      invariant Nanos(ms) <= candidate && forall x :: Nanos(ms) <= x < candidate ==> !Free(windows, x)
      decreases Ahead(windows, candidate)
    {
      var advanced := false;
      ghost var before := candidate;
      var i := 0;
      while i < |windows|
        invariant 0 <= i <= |windows| && before <= candidate
        invariant forall x :: Nanos(ms) <= x < candidate ==> !Free(windows, x)
        invariant !advanced ==> candidate == before && forall k :: 0 <= k < i ==> !Covers(windows[k], candidate)
        invariant advanced ==> Ahead(windows, candidate) < Ahead(windows, before)
      {
        if Covers(windows[i], candidate) {
          Progress(windows, i, candidate);
          assert forall x :: candidate <= x < windows[i].end ==> Covers(windows[i], x);
          candidate := windows[i].end;
          advanced := true;
        }
        i := i + 1;
      }
      if !advanced {
        FirstFreeUnique(windows, Nanos(ms), candidate, NextFree(windows, Nanos(ms)));
        return Some(Millis(candidate));
      }
    }
  }

  /** The first free instant is the given one or the end of a window. */
  lemma {:induction false} NextFreeIsAnEnd(windows: seq<Window>, t: int)
    ensures NextFree(windows, t) == t || exists i :: 0 <= i < |windows| && NextFree(windows, t) == windows[i].end
    decreases Ahead(windows, t)
  {
    var i := Blocking(windows, t);
    if i < |windows| {
      Progress(windows, i, t);
      NextFreeIsAnEnd(windows, windows[i].end);
    }
  }

  /** Window `i` ends inside a millisecond, at the first instant from `ms` on left uncovered. */
  ghost predicate EndsInside(windows: seq<Window>, ms: nat, i: nat) {
    i < |windows| && windows[i].end % 1_000_000 != 0 && FirstFree(windows, Nanos(ms), windows[i].end)
  }

  /** Rounding down keeps the first free instant, or lands before it inside a window. */
  lemma Rounded(windows: seq<Window>, ms: nat)
    requires ms <= LAST_MILLISECOND
    ensures var n := NextFree(windows, Nanos(ms));
            var r := Nanos(NextDelivery(windows, ms).value);
            Nanos(ms) <= r <= n && (r == n <==> n % 1_000_000 == 0) && (Free(windows, r) <==> r == n)
  {
    var n := NextFree(windows, Nanos(ms));
    var r := NextDelivery(windows, ms).value;
    assert Nanos(ms) <= Nanos(r) <= n && (n % 1_000_000 == 0 <==> Nanos(r) == n);
  }

  /** The returned millisecond is the first free instant, and free at all, unless some window ends
      inside a millisecond just where the windows first leave time uncovered. */
  lemma DeliveryIsFree(windows: seq<Window>, ms: nat)
    requires ms <= LAST_MILLISECOND
    ensures var r := Nanos(NextDelivery(windows, ms).value);
            && (Free(windows, r) <==> !exists i: nat :: EndsInside(windows, ms, i))
            && (FirstFree(windows, Nanos(ms), r) <==> !exists i: nat :: EndsInside(windows, ms, i))
  {
    var n := NextFree(windows, Nanos(ms));
    Rounded(windows, ms);
    NextFreeIsAnEnd(windows, Nanos(ms));
    if n % 1_000_000 != 0 {
      var i: nat :| i < |windows| && n == windows[i].end;
      assert EndsInside(windows, ms, i);
    }
    forall i: nat | EndsInside(windows, ms, i) ensures n % 1_000_000 != 0 {
      FirstFreeUnique(windows, Nanos(ms), n, windows[i].end);
    }
  }

  /** Every window ends on a whole millisecond. */
  predicate WholeEnds(windows: seq<Window>) { forall i :: 0 <= i < |windows| ==> windows[i].end % 1_000_000 == 0 }

  /** With such windows the search returns the least instant, at or after the given one, that lies
      in no window. */
  lemma WholeEndsSuffice(windows: seq<Window>, ms: nat)
    requires ms <= LAST_MILLISECOND && WholeEnds(windows)
    ensures FirstFree(windows, Nanos(ms), Nanos(NextDelivery(windows, ms).value))
    ensures NextFree(windows, Nanos(ms)) == Nanos(NextDelivery(windows, ms).value)
  {
    NextFreeIsAnEnd(windows, Nanos(ms));
    Rounded(windows, ms);
  }

  /** A window that ends half a millisecond late. */
  lemma DeliveryInsideWindow()
    ensures var windows := [Window(0, 1_500_000)];
            NextDelivery(windows, 0) == Some(1) && !Free(windows, Nanos(1)) && EndsInside(windows, 0, 0)
  {
    var windows := [Window(0, 1_500_000)];
    var n := NextFree(windows, Nanos(0));
    assert !Free(windows, 1_499_999) by { assert Covers(windows[0], 1_499_999); }
    assert FirstFree(windows, Nanos(0), 1_500_000) by {
      assert forall x :: 0 <= x < 1_500_000 ==> Covers(windows[0], x);
    }
    FirstFreeUnique(windows, Nanos(0), n, 1_500_000);
    assert Covers(windows[0], Nanos(1));
  }

  /** Later requests are never served earlier. */
  lemma NextDeliveryMonotone(windows: seq<Window>, a: nat, b: nat)
    requires a <= b <= LAST_MILLISECOND
    ensures NextDelivery(windows, a).value <= NextDelivery(windows, b).value
  {
    var x, y := NextFree(windows, Nanos(a)), NextFree(windows, Nanos(b));
    assert Free(windows, y);
    assert x <= y;
  }
}
