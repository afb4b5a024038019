/** Stable insertion sort of events keyed on their timestamp, with the
    facts the sanitizers rely on: sorted output, permutation, stability
    (equal-timestamp events keep their order), and uniqueness of a sorted
    arrangement with given per-timestamp subsequences. */
module Sorting {
  import opened Events

  /** Non-decreasing by timestamp. */
  predicate Sorted(s: seq<Event>)
  {
    forall i, j :: 0 <= i < j < |s| ==> s[i].ts <= s[j].ts
  }

  /** The events of `s` stamped `k`, in their order in `s`. */
  function WithTs(s: seq<Event>, k: int): seq<Event>
  {
    if |s| == 0 then []
    else (if s[0].ts == k then [s[0]] else []) + WithTs(s[1..], k)
  }

  /** Insert `e` before the first element whose timestamp is not smaller,
      so that it lands ahead of every event stamped like it. */
  function Insert(e: Event, s: seq<Event>): (r: seq<Event>)
    ensures multiset(r) == multiset(s) + multiset{e}
  {
    if |s| == 0 || e.ts <= s[0].ts then [e] + s
    else
      assert s == [s[0]] + s[1..];
      [s[0]] + Insert(e, s[1..])
  }

  lemma {:induction false} InsertSorted(e: Event, s: seq<Event>)
    requires Sorted(s)
    ensures Sorted(Insert(e, s))
  {
    if |s| == 0 || e.ts <= s[0].ts {
    } else {
      InsertSorted(e, s[1..]);
      var rest := Insert(e, s[1..]);
      forall j | 0 <= j < |rest|
        ensures s[0].ts <= rest[j].ts
      {
        assert rest[j] in multiset(rest);
        assert rest[j] == e || rest[j] in multiset(s[1..]);
      }
      assert Insert(e, s) == [s[0]] + rest;
    }
  }

  /** Sort by building the sorted tail first and inserting the head into it. */
  function InsertionSort(s: seq<Event>): (r: seq<Event>)
    ensures Sorted(r)
    ensures multiset(r) == multiset(s)
  {
    if |s| == 0 then []
    else
      assert s == [s[0]] + s[1..];
      InsertSorted(s[0], InsertionSort(s[1..]));
      Insert(s[0], InsertionSort(s[1..]))
  }

  lemma WithTsCons(x: Event, s: seq<Event>, k: int)
    ensures WithTs([x] + s, k) == (if x.ts == k then [x] else []) + WithTs(s, k)
  {
    assert ([x] + s)[1..] == s;
  }

  /** `WithTs(s, k)` holds exactly the events of `s` stamped `k`. */
  lemma {:induction false} WithTsMembers(s: seq<Event>, k: int)
    ensures forall e :: e in WithTs(s, k) <==> e in s && e.ts == k
  {
    if |s| > 0 {
      WithTsMembers(s[1..], k);
      assert s == [s[0]] + s[1..];
    }
  }

  lemma WithTsHead(s: seq<Event>)
    requires |s| > 0
    ensures WithTs(s, s[0].ts) != [] && WithTs(s, s[0].ts)[0] == s[0]
  {
  }

  /** Inserting `e` puts it first among the events stamped like it and
      leaves every other timestamp's subsequence alone. */
  lemma {:induction false} InsertWithTs(e: Event, s: seq<Event>, k: int)
    requires Sorted(s)
    ensures WithTs(Insert(e, s), k) == (if e.ts == k then [e] else []) + WithTs(s, k)
  {
    if |s| == 0 || e.ts <= s[0].ts {
      WithTsCons(e, s, k);
    } else {
      InsertWithTs(e, s[1..], k);
      WithTsCons(s[0], Insert(e, s[1..]), k);
      assert s == [s[0]] + s[1..];
      WithTsCons(s[0], s[1..], k);
    }
  }

  /** Stability: for every timestamp, the sorted output holds the events
      stamped with it in exactly their input order. */
  lemma {:induction false} SortWithTs(s: seq<Event>, k: int)
    ensures WithTs(InsertionSort(s), k) == WithTs(s, k)
  {
    if |s| > 0 {
      SortWithTs(s[1..], k);
      InsertWithTs(s[0], InsertionSort(s[1..]), k);
      assert s == [s[0]] + s[1..];
      WithTsCons(s[0], s[1..], k);
    }
  }

  /** A sorted sequence is determined by its per-timestamp subsequences. */
  lemma {:induction false} SortedUnique(r1: seq<Event>, r2: seq<Event>)
    requires Sorted(r1) && Sorted(r2)
    requires forall k :: WithTs(r1, k) == WithTs(r2, k)
    ensures r1 == r2
    decreases |r1| + |r2|
  {
    if |r1| == 0 && |r2| == 0 {
    } else if |r1| == 0 {
      WithTsHead(r2);
      assert false;
    } else if |r2| == 0 {
      WithTsHead(r1);
      assert false;
    } else {
      var m := r1[0].ts;
      assert m == r2[0].ts by {
        WithTsMembers(r1, r1[0].ts);
        WithTsMembers(r2, r1[0].ts);
        WithTsMembers(r1, r2[0].ts);
        WithTsMembers(r2, r2[0].ts);
        assert r1[0] in WithTs(r2, m);
        assert r2[0] in WithTs(r1, r2[0].ts);
        assert forall x :: x in r1 ==> m <= x.ts;
        assert forall x :: x in r2 ==> r2[0].ts <= x.ts;
      }
      assert r1 == [r1[0]] + r1[1..];
      assert r2 == [r2[0]] + r2[1..];
      WithTsCons(r1[0], r1[1..], m);
      WithTsCons(r2[0], r2[1..], m);
      assert r1[0] == r2[0] by {
        assert WithTs(r1, m)[0] == r1[0];
        assert WithTs(r2, m)[0] == r2[0];
      }
      forall k
        ensures WithTs(r1[1..], k) == WithTs(r2[1..], k)
      {
        WithTsCons(r1[0], r1[1..], k);
        WithTsCons(r2[0], r2[1..], k);
        assert WithTs(r1, k) == WithTs(r2, k);
        if k == m {
          assert WithTs(r1[1..], k) == WithTs(r1, k)[1..];
          assert WithTs(r2[1..], k) == WithTs(r2, k)[1..];
        } else {
          assert WithTs(r1[1..], k) == WithTs(r1, k);
          assert WithTs(r2[1..], k) == WithTs(r2, k);
        }
      }
      SortedUnique(r1[1..], r2[1..]);
    }
  }

  /** Sorting an already sorted sequence returns it unchanged. */
  lemma {:induction false} SortSorted(s: seq<Event>)
    requires Sorted(s)
    ensures InsertionSort(s) == s
  {
    forall k
      ensures WithTs(InsertionSort(s), k) == WithTs(s, k)
    {
      SortWithTs(s, k);
    }
    SortedUnique(InsertionSort(s), s);
  }

  /** Two inputs whose per-timestamp subsequences agree sort to the same
      output: order among distinct timestamps does not matter. */
  lemma {:induction false} SortIgnoresOrderAcrossTimestamps(a: seq<Event>, b: seq<Event>)
    requires forall k :: WithTs(a, k) == WithTs(b, k)
    ensures InsertionSort(a) == InsertionSort(b)
  {
    forall k
      ensures WithTs(InsertionSort(a), k) == WithTs(InsertionSort(b), k)
    {
      SortWithTs(a, k);
      SortWithTs(b, k);
    }
    SortedUnique(InsertionSort(a), InsertionSort(b));
  }
}
