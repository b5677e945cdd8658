/**
 * The failsafe poll shared by the views' `useEffect` closures
 * (src/pages/TvSitePage.tsx, src/pages/MyTicketPage.tsx, src/pages/StaffRoomPage.tsx):
 * a periodic tick that refreshes only when no realtime update has arrived for
 * more than 30 seconds, and the notification filters.
 */
module Failsafe {
  import opened Wrappers
  import opened QueueHub

  const StaleAfterMs: int := 30000

  /** `Date.now() - lastSignalRUpdate > 30000`: the comparison is strict. */
  predicate Stale(lastSignalRUpdate: int, now: int) {
    now - lastSignalRUpdate > StaleAfterMs
  }

  /** The TV listener's filter: `payload.siteSlug === siteSlug`, any room. */
  predicate MatchesSite(payload: QueueUpdatedPayload, siteSlug: string) {
    payload.siteSlug == siteSlug
  }

  /** The room listeners' filter: both slugs equal; a payload without `roomSlug` never matches. */
  predicate MatchesRoom(payload: QueueUpdatedPayload, siteSlug: string, roomSlug: string) {
    payload.siteSlug == siteSlug && payload.roomSlug == Some(roomSlug)
  }

  /** A room notification is also a notification for its site, not the converse. */
  lemma MatchesRoomIsNarrower(payload: QueueUpdatedPayload, siteSlug: string, roomSlug: string)
    ensures MatchesRoom(payload, siteSlug, roomSlug) ==> MatchesSite(payload, siteSlug)
    ensures MatchesSite(QueueUpdatedPayload(siteSlug, None), siteSlug)
    ensures !MatchesRoom(QueueUpdatedPayload(siteSlug, None), siteSlug, roomSlug)
  {
  }

  /** The times at which a run of ticks fires the failsafe, starting from clock `last`. */
  function TimerRefreshes(last: int, ticks: seq<int>): seq<int>
    decreases |ticks|
  {
    if ticks == [] then []
    else if Stale(last, ticks[0]) then [ticks[0]] + TimerRefreshes(ticks[0], ticks[1..])
    else TimerRefreshes(last, ticks[1..])
  }

  /** The staleness clock after a run of ticks: the time of the last firing, else unchanged. */
  function ClockAfter(last: int, ticks: seq<int>): (r: int)
    ensures r == last || r in ticks
    decreases |ticks|
  {
    if ticks == [] then last
    else if Stale(last, ticks[0]) then ClockAfter(ticks[0], ticks[1..])
    else ClockAfter(last, ticks[1..])
  }

  /** A run of ticks split in two fires as the first part followed by the second from the first's clock. */
  lemma {:induction false} TimerRefreshesAppend(last: int, a: seq<int>, b: seq<int>)
    ensures TimerRefreshes(last, a + b) == TimerRefreshes(last, a) + TimerRefreshes(ClockAfter(last, a), b)
    ensures ClockAfter(last, a + b) == ClockAfter(ClockAfter(last, a), b)
    decreases |a|
  {
    if a == [] {
      assert a + b == b;
    } else {
      assert (a + b)[0] == a[0] && (a + b)[1..] == a[1..] + b;
      if Stale(last, a[0]) {
        TimerRefreshesAppend(a[0], a[1..], b);
      } else {
        TimerRefreshesAppend(last, a[1..], b);
      }
    }
  }

  predicate Increasing(ticks: seq<int>) {
    forall i, j :: 0 <= i < j < |ticks| ==> ticks[i] < ticks[j]
  }

  /**
   * Timer-driven refreshes are more than 30 s after the clock they start from
   * and more than 30 s apart, happen at tick times, and leave the clock at the last one.
   */
  lemma {:induction false} TimerRefreshesSpaced(last: int, ticks: seq<int>)
    requires Increasing(ticks)
    ensures var r := TimerRefreshes(last, ticks);
      && (forall t :: t in r ==> t in ticks)
      && (r != [] ==> Stale(last, r[0]) && ClockAfter(last, ticks) == r[|r| - 1])
      && (r == [] ==> ClockAfter(last, ticks) == last)
      && (forall i :: 0 <= i < |r| - 1 ==> Stale(r[i], r[i + 1]))
    decreases |ticks|
  {
    if ticks != [] {
      var rest := ticks[1..];
      assert Increasing(rest);
      if Stale(last, ticks[0]) {
        TimerRefreshesSpaced(ticks[0], rest);
        var tail := TimerRefreshes(ticks[0], rest);
        assert forall i :: 1 <= i < |[ticks[0]] + tail| ==> ([ticks[0]] + tail)[i] == tail[i - 1];
      } else {
        TimerRefreshesSpaced(last, rest);
      }
    }
  }

  /** Between two firings no tick is stale: a tick that does not fire is within 30 s of the clock. */
  lemma {:induction false} NoFiringWithinThirtySeconds(last: int, ticks: seq<int>)
    requires forall t :: t in ticks ==> !Stale(last, t)
    ensures TimerRefreshes(last, ticks) == [] && ClockAfter(last, ticks) == last
    decreases |ticks|
  {
    if ticks != [] {
      assert ticks[0] in ticks;
      assert forall t :: t in ticks[1..] ==> t in ticks;
      NoFiringWithinThirtySeconds(last, ticks[1..]);
    }
  }

  /** The tick times of an interval of `period` ms started at `start`: `start + period`, `start + 2*period`, ... */
  function ExactTicks(start: int, period: int, n: nat): (r: seq<int>)
    ensures |r| == n
  {
    if n == 0 then [] else ExactTicks(start, period, n - 1) + [start + n * period]
  }

  /** The `k`-th tick (from 0) is at `start + (k + 1) * period`, so the ticks are evenly spaced. */
  lemma {:induction false} ExactTicksAt(start: int, period: int, n: nat)
    ensures forall k :: 0 <= k < n ==> ExactTicks(start, period, n)[k] == start + (k + 1) * period
  {
    if n > 0 {
      ExactTicksAt(start, period, n - 1);
    }
  }

  lemma {:induction false} ExactTicksSplit(start: int, period: int, n: nat, m: nat)
    ensures ExactTicks(start, period, n + m) == ExactTicks(start, period, n) + ExactTicks(start + n * period, period, m)
  {
    var lhs := ExactTicks(start, period, n + m);
    var rhs := ExactTicks(start, period, n) + ExactTicks(start + n * period, period, m);
    ExactTicksAt(start, period, n + m);
    ExactTicksAt(start, period, n);
    ExactTicksAt(start + n * period, period, m);
    forall k | 0 <= k < n + m
      ensures lhs[k] == rhs[k]
    {
      if k >= n {
        assert rhs[k] == start + n * period + (k - n + 1) * period;
      }
    }
  }

  /** `k` blocks of `n` ticks are `k - 1` blocks followed by one more block. */
  lemma ExactTicksBlocks(start: int, period: int, n: nat, k: nat)
    requires k > 0
    ensures ExactTicks(start, period, n * k) ==
      ExactTicks(start, period, n * (k - 1)) + ExactTicks(start + (n * period) * (k - 1), period, n)
  {
    var m := n * (k - 1);
    assert n * k == m + n;
    assert start + m * period == start + (n * period) * (k - 1);
    ExactTicksSplit(start, period, m, n);
  }

  /** With a 5 s interval and no notifications the 30 s tick does not fire (30000 is not > 30000); the 35 s tick does. */
  lemma FirstStaffRefreshAt35s(start: int)
    ensures TimerRefreshes(start, ExactTicks(start, 5000, 6)) == []
    ensures TimerRefreshes(start, ExactTicks(start, 5000, 7)) == [start + 35000]
    ensures ClockAfter(start, ExactTicks(start, 5000, 7)) == start + 35000
  {
    var ticks := ExactTicks(start, 5000, 7);
    ExactTicksAt(start, 5000, 7);
    ExactTicksAt(start, 5000, 6);
    assert ExactTicks(start, 5000, 6) == [start + 5000, start + 10000, start + 15000, start + 20000, start + 25000, start + 30000];
    assert ticks == [start + 5000, start + 10000, start + 15000, start + 20000, start + 25000, start + 30000, start + 35000];
    NoFiringWithinThirtySeconds(start, ExactTicks(start, 5000, 6));
    TimerRefreshesAppend(start, ExactTicks(start, 5000, 6), [start + 35000]);
    assert ticks == ExactTicks(start, 5000, 6) + [start + 35000];
  }

  /** With a 10 s interval the 30 s tick does not fire and the 40 s tick does. */
  lemma FirstTicketRefreshAt40s(start: int)
    ensures TimerRefreshes(start, ExactTicks(start, 10000, 3)) == []
    ensures TimerRefreshes(start, ExactTicks(start, 10000, 4)) == [start + 40000]
    ensures ClockAfter(start, ExactTicks(start, 10000, 4)) == start + 40000
  {
    var ticks := ExactTicks(start, 10000, 4);
    ExactTicksAt(start, 10000, 4);
    ExactTicksAt(start, 10000, 3);
    assert ExactTicks(start, 10000, 3) == [start + 10000, start + 20000, start + 30000];
    assert ticks == [start + 10000, start + 20000, start + 30000, start + 40000];
    NoFiringWithinThirtySeconds(start, ExactTicks(start, 10000, 3));
    TimerRefreshesAppend(start, ExactTicks(start, 10000, 3), [start + 40000]);
    assert ticks == ExactTicks(start, 10000, 3) + [start + 40000];
  }

  /** With a 5 s interval and no notifications the failsafe fires every 35 s. */
  lemma {:induction false} StaffRefreshesEvery35s(start: int, k: nat)
    ensures TimerRefreshes(start, ExactTicks(start, 5000, 7 * k)) == ExactTicks(start, 35000, k)
    ensures ClockAfter(start, ExactTicks(start, 5000, 7 * k)) == start + 35000 * k
  {
    if k > 0 {
      StaffRefreshesEvery35s(start, k - 1);
      var mid := start + 35000 * (k - 1);
      var front := ExactTicks(start, 5000, 7 * (k - 1));
      var back := ExactTicks(mid, 5000, 7);
      ExactTicksBlocks(start, 5000, 7, k);
      TimerRefreshesAppend(start, front, back);
      FirstStaffRefreshAt35s(mid);
      assert mid + 35000 == start + 35000 * k;
      assert ExactTicks(start, 35000, k) == ExactTicks(start, 35000, k - 1) + [mid + 35000];
      assert TimerRefreshes(start, front + back) == ExactTicks(start, 35000, k - 1) + [mid + 35000];
      assert ClockAfter(start, front + back) == mid + 35000;
    } else {
      assert 7 * k == 0 && ExactTicks(start, 5000, 0) == [];
    }
  }

  /** With a 10 s interval and no notifications the failsafe fires every 40 s. */
  lemma {:induction false} TicketRefreshesEvery40s(start: int, k: nat)
    ensures TimerRefreshes(start, ExactTicks(start, 10000, 4 * k)) == ExactTicks(start, 40000, k)
    ensures ClockAfter(start, ExactTicks(start, 10000, 4 * k)) == start + 40000 * k
  {
    if k > 0 {
      TicketRefreshesEvery40s(start, k - 1);
      var mid := start + 40000 * (k - 1);
      var front := ExactTicks(start, 10000, 4 * (k - 1));
      var back := ExactTicks(mid, 10000, 4);
      ExactTicksBlocks(start, 10000, 4, k);
      TimerRefreshesAppend(start, front, back);
      FirstTicketRefreshAt40s(mid);
      assert mid + 40000 == start + 40000 * k;
      assert ExactTicks(start, 40000, k) == ExactTicks(start, 40000, k - 1) + [mid + 40000];
      assert TimerRefreshes(start, front + back) == ExactTicks(start, 40000, k - 1) + [mid + 40000];
      assert ClockAfter(start, front + back) == mid + 40000;
    } else {
      assert 4 * k == 0 && ExactTicks(start, 10000, 0) == [];
    }
  }
}
