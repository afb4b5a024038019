/** Reference semantics of an event log, independent of any reducer: the
    state in force at each minute, and the number of minutes in a range
    during which the appliance is on. */
module Timeline {
  import opened Events

  /** The state in force at minute `t`: start in `s` and apply, in log
      order, every event stamped at or before `t`, so that among events
      sharing a timestamp the last one wins. */
  function StateAt(s: State, es: seq<Event>, t: int): State
    decreases |es|
  {
    if |es| == 0 then s
    else if es[0].ts <= t then StateAt(es[0].state, es[1..], t)
    else StateAt(s, es[1..], t)
  }

  /** The number of minutes `t` with `lo <= t < hi` at which the state in
      force is `On`. */
  function OnMinutes(s: State, es: seq<Event>, lo: int, hi: int): (r: int)
    ensures 0 <= r
    ensures lo <= hi ==> r <= hi - lo
    ensures hi <= lo ==> r == 0
    decreases hi - lo
  {
    if hi <= lo then 0
    else OnMinutes(s, es, lo, hi - 1) + (if StateAt(s, es, hi - 1) == On then 1 else 0)
  }

  /** Before the first event nothing has happened yet. */
  lemma {:induction false} StateAtBeforeAll(s: State, es: seq<Event>, t: int)
    requires forall i :: 0 <= i < |es| ==> t < es[i].ts
    ensures StateAt(s, es, t) == s
  {
    if |es| > 0 {
      StateAtBeforeAll(s, es[1..], t);
    }
  }

  /** Once every event has happened, the last one's state is in force. */
  lemma {:induction false} StateAtAfterAll(s: State, es: seq<Event>, t: int)
    requires forall i :: 0 <= i < |es| ==> es[i].ts <= t
    ensures StateAt(s, es, t) == StateAfter(s, es)
    decreases |es|
  {
    if |es| > 0 {
      StateAtAfterAll(es[0].state, es[1..], t);
    }
  }

  /** Applying a log in two pieces. */
  lemma {:induction false} StateAtAppend(s: State, a: seq<Event>, b: seq<Event>, t: int)
    ensures StateAt(s, a + b, t) == StateAt(StateAt(s, a, t), b, t)
    decreases |a|
  {
    if |a| == 0 {
      assert a + b == b;
    } else {
      assert (a + b)[0] == a[0];
      assert (a + b)[1..] == a[1..] + b;
      if a[0].ts <= t {
        StateAtAppend(a[0].state, a[1..], b, t);
      } else {
        StateAtAppend(s, a[1..], b, t);
      }
    }
  }

  lemma {:induction false} OnMinutesSplit(s: State, es: seq<Event>, lo: int, mid: int, hi: int)
    requires lo <= mid <= hi
    ensures OnMinutes(s, es, lo, hi) == OnMinutes(s, es, lo, mid) + OnMinutes(s, es, mid, hi)
    decreases hi - mid
  {
    if mid < hi {
      OnMinutesSplit(s, es, lo, mid, hi - 1);
    }
  }

  /** A stretch before every event counts wholly or not at all. */
  lemma {:induction false} OnMinutesBeforeAll(s: State, es: seq<Event>, lo: int, hi: int)
    requires lo <= hi
    requires forall i :: 0 <= i < |es| ==> hi <= es[i].ts
    ensures OnMinutes(s, es, lo, hi) == if s == On then hi - lo else 0
    decreases hi - lo
  {
    if lo < hi {
      OnMinutesBeforeAll(s, es, lo, hi - 1);
      StateAtBeforeAll(s, es, hi - 1);
    }
  }

  /** From the first event's timestamp on, that event has taken effect. */
  lemma {:induction false} OnMinutesAfterHead(s: State, es: seq<Event>, lo: int, hi: int)
    requires |es| > 0 && es[0].ts <= lo
    ensures OnMinutes(s, es, lo, hi) == OnMinutes(es[0].state, es[1..], lo, hi)
    decreases hi - lo
  {
    if lo < hi {
      OnMinutesAfterHead(s, es, lo, hi - 1);
    }
  }
}
