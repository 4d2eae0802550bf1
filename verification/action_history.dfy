/**
 `ActionHistory`: the agent's bounded record of recent actions and the two
 behaviour detectors that read it, circling (balanced turns over the last
 20 actions) and repetition or inactivity (the last five actions all the
 same, or no action for five seconds).
 */
module ActionHistory {
  import opened Wrappers

  /** The three commands the agent issues. */
  datatype Action = MoveForward | TurnLeft | TurnRight

  /** `{ action, timestamp }`, the timestamp in milliseconds. */
  datatype Entry = Entry(action: Action, timestamp: int)

  /** The history keeps at most this many entries. */
  const Capacity: nat := 20

  /** `timeThreshold`: milliseconds without an action after which the agent counts as inactive. */
  const InactivityLimit: int := 5000

  /** The number of newest actions the repetition test inspects. */
  const RecentWindow: nat := 5

  /** The last `n` elements of `s` (all of `s` when shorter): `s.slice(-n)`. */
  function Last<T>(s: seq<T>, n: nat): (r: seq<T>)
    ensures |r| == if |s| < n then |s| else n
    ensures r == s[|s| - |r|..]
  {
    if |s| <= n then s else s[|s| - n..]
  }

  /** The actions of a history, oldest first. */
  function Actions(h: seq<Entry>): (r: seq<Action>)
    ensures |r| == |h|
    ensures forall i :: 0 <= i < |h| ==> r[i] == h[i].action
  {
    seq(|h|, i requires 0 <= i < |h| => h[i].action)
  }

  /** How many times `a` occurs in `s`: `s.filter(x => x === a).length`. */
  function Count(s: seq<Action>, a: Action): (r: nat)
    ensures r <= |s|
    ensures r == multiset(s)[a]
  {
    if |s| == 0 then 0
    else
      assert s == s[..|s| - 1] + [s[|s| - 1]];
      Count(s[..|s| - 1], a) + (if s[|s| - 1] == a then 1 else 0)
  }

  // ---------------------------------------------------------------------------
  // The bounded history
  // ---------------------------------------------------------------------------

  /**
   `updateActionHistory(currentAction)`: a missing action is ignored;
   otherwise the stamped entry is pushed and, past the capacity, the oldest
   entry dropped.
   */
  function UpdateActionHistory(h: seq<Entry>, current: Option<Action>, now: int): (r: seq<Entry>)
    ensures current.None? ==> r == h
    ensures current.Some? ==> |r| > 0 && r[|r| - 1] == Entry(current.value, now)
    ensures current.Some? ==> |r| == if |h| < Capacity then |h| + 1 else |h|
    ensures current.Some? ==> r[..|r| - 1] == h[|h| + 1 - |r|..]
    ensures |h| <= Capacity ==> |r| <= Capacity
  {
    if current.None? then h
    else
      var pushed := h + [Entry(current.value, now)];
      if |pushed| > Capacity then pushed[1..] else pushed
  }

  /** Recording `entries` one by one, oldest first. */
  function Record(h: seq<Entry>, entries: seq<Entry>): seq<Entry>
    decreases |entries|
  {
    if |entries| == 0 then h
    else Record(UpdateActionHistory(h, Some(entries[0].action), entries[0].timestamp), entries[1..])
  }

  /** Taking the tail of a tail: the last `n` of (the last `n` of `s`) followed by `t`. */
  lemma LastOfLast<T>(s: seq<T>, t: seq<T>, n: nat)
    ensures Last(Last(s, n) + t, n) == Last(s + t, n)
  {
    var a, b := Last(Last(s, n) + t, n), Last(s + t, n);
    assert |a| == |b|;
    forall i | 0 <= i < |a| ensures a[i] == b[i] {
      var u := Last(s, n) + t;
      var j := |u| - |a| + i;
      if j >= |Last(s, n)| {
        assert a[i] == t[j - |Last(s, n)|];
        assert b[i] == (s + t)[|s + t| - |b| + i];
      } else {
        assert a[i] == Last(s, n)[j] == s[|s| - |Last(s, n)| + j];
        assert b[i] == (s + t)[|s + t| - |b| + i];
      }
    }
  }

  /** A history is a sliding window: after any run of actions it holds exactly the newest `Capacity` entries. */
  lemma {:induction false} RecordKeepsNewest(h: seq<Entry>, entries: seq<Entry>)
    requires |h| <= Capacity
    ensures Record(h, entries) == Last(h + entries, Capacity)
    decreases |entries|
  {
    if |entries| == 0 {
      assert h + entries == h;
    } else {
      var e := entries[0];
      var next := UpdateActionHistory(h, Some(e.action), e.timestamp);
      assert next == Last(h + [e], Capacity);
      RecordKeepsNewest(next, entries[1..]);
      LastOfLast(h + [e], entries[1..], Capacity);
      assert (h + [e]) + entries[1..] == h + entries;
    }
  }

  // ---------------------------------------------------------------------------
  // Circling
  // ---------------------------------------------------------------------------

  /** `isMovingInCircles()`: with a full history, left and right turns among the last 20 differ by fewer than five. */
  function IsMovingInCircles(h: seq<Entry>): (r: bool)
    ensures |h| < Capacity ==> !r
    ensures |h| >= Capacity ==>
              var m := multiset(Actions(Last(h, Capacity)));
              (r <==> -5 < m[TurnLeft] - m[TurnRight] < 5)
  {
    if |h| < Capacity then false
    else
      var recent := Actions(h[|h| - Capacity..]);
      var d := Count(recent, TurnLeft) - Count(recent, TurnRight);
      -5 < d < 5
  }

  /** Circling is decided by the multiset of the last 20 actions: their order does not matter. */
  lemma CirclingIgnoresOrder(h1: seq<Entry>, h2: seq<Entry>)
    requires |h1| >= Capacity && |h2| >= Capacity
    requires multiset(Actions(Last(h1, Capacity))) == multiset(Actions(Last(h2, Capacity)))
    ensures IsMovingInCircles(h1) == IsMovingInCircles(h2)
  {
  }

  /** Twenty moves with no turn at all count as circling, since both turn counts are zero. */
  lemma StraightRunCountsAsCircling(h: seq<Entry>)
    requires |h| >= Capacity
    requires forall i :: |h| - Capacity <= i < |h| ==> h[i].action == MoveForward
    ensures IsMovingInCircles(h)
  {
    var recent := Actions(h[|h| - Capacity..]);
    assert multiset(recent)[TurnLeft] == 0 by {
      assert TurnLeft !in recent;
    }
    assert multiset(recent)[TurnRight] == 0 by {
      assert TurnRight !in recent;
    }
  }

  // ---------------------------------------------------------------------------
  // The most common action
  // ---------------------------------------------------------------------------

  /** `Object.keys` of the count object: the distinct actions of `s` in order of first occurrence. */
  function Keys(s: seq<Action>): (ks: seq<Action>)
    ensures forall a :: a in ks <==> a in s
    ensures forall i, j :: 0 <= i < j < |ks| ==> ks[i] != ks[j]
  {
    if |s| == 0 then []
    else
      var front := Keys(s[..|s| - 1]);
      assert forall a :: a in s <==> a in s[..|s| - 1] || a == s[|s| - 1] by {
        assert s == s[..|s| - 1] + [s[|s| - 1]];
      }
      if s[|s| - 1] in front then front else front + [s[|s| - 1]]
  }

  /**
   `keys.reduce((a, b) => count[a] > count[b] ? a : b)`: a key of maximal
   count, and of the keys with that count the one furthest along `ks`.
   */
  function ReduceMax(s: seq<Action>, ks: seq<Action>): (r: Action)
    requires |ks| > 0
    ensures r in ks
    ensures forall k :: k in ks ==> Count(s, k) <= Count(s, r)
    ensures forall j :: 0 <= j < |ks| && Count(s, ks[j]) == Count(s, r) ==> j <= LastIndex(ks, r)
  {
    if |ks| == 1 then ks[0]
    else
      var a := ReduceMax(s, ks[..|ks| - 1]);
      var b := ks[|ks| - 1];
      assert forall k :: k in ks ==> k in ks[..|ks| - 1] || k == b by {
        assert ks == ks[..|ks| - 1] + [b];
      }
      if Count(s, a) > Count(s, b) then a else b
  }

  /** The position of the last occurrence of `x` in `ks`. */
  function LastIndex(ks: seq<Action>, x: Action): (i: nat)
    requires x in ks
    ensures i < |ks| && ks[i] == x
    ensures forall j :: i < j < |ks| ==> ks[j] != x
  {
    if ks[|ks| - 1] == x then |ks| - 1
    else
      assert x in ks[..|ks| - 1] by {
        assert ks == ks[..|ks| - 1] + [ks[|ks| - 1]];
      }
      LastIndex(ks[..|ks| - 1], x)
  }

  /** `findMostCommonAction(actions)`: an action of `s` that occurs at least as often as any other. */
  function FindMostCommonAction(s: seq<Action>): (r: Action)
    requires |s| > 0
    ensures r in s
    ensures forall a :: Count(s, a) <= Count(s, r)
  {
    var ks := Keys(s);
    assert s[0] in ks;
    var r := ReduceMax(s, ks);
    assert forall a :: a !in s ==> Count(s, a) == 0;
    r
  }

  // ---------------------------------------------------------------------------
  // Repetition and inactivity
  // ---------------------------------------------------------------------------

  /** Every element of `s` is the same. */
  predicate AllSame(s: seq<Action>) {
    forall i :: 0 <= i < |s| ==> s[i] == s[0]
  }

  /** `isRepetitiveOrInactive()`: no history, a stale last action, or more than 80% of the newest five actions alike. */
  function IsRepetitiveOrInactive(h: seq<Entry>, lastActionTime: int, now: int): (r: bool)
    ensures |h| == 0 || now - lastActionTime > InactivityLimit ==> r
    ensures r <==> |h| == 0 || now - lastActionTime > InactivityLimit || AllSame(Actions(Last(h, RecentWindow)))
  {
    if |h| == 0 || now - lastActionTime > InactivityLimit then true
    else
      var recent := Actions(Last(h, RecentWindow));
      var common := FindMostCommonAction(recent);
      var share := Count(recent, common) as real / |recent| as real;
      RepetitionMeansAllSame(recent, common);
      share > 0.8
  }

  /** A count `c` of at most `k <= 5` items exceeds 80% of them exactly when it is all of them. */
  lemma EightyPercentOfFew(c: nat, k: nat)
    requires 0 < k <= RecentWindow && c <= k
    ensures c as real / k as real > 0.8 <==> c == k
  {
    var q := c as real / k as real;
    assert q * k as real == c as real;
    if c < k {
      assert c as real <= k as real - 1.0 <= 0.8 * k as real;
      assert (q - 0.8) * k as real <= 0.0;
    }
  }

  /** The most common of at most five actions takes more than 80% of them exactly when all are the same. */
  lemma RepetitionMeansAllSame(s: seq<Action>, common: Action)
    requires 0 < |s| <= RecentWindow
    requires forall a :: Count(s, a) <= Count(s, common)
    ensures Count(s, common) as real / |s| as real > 0.8 <==> AllSame(s)
  {
    EightyPercentOfFew(Count(s, common), |s|);
    if AllSame(s) {
      CountAll(s, s[0]);
      assert Count(s, s[0]) == |s|;
    }
    if Count(s, common) == |s| {
      CountAll(s, common);
    }
  }

  /** `a` fills `s` exactly when its count is the length of `s`. */
  lemma {:induction false} CountAll(s: seq<Action>, a: Action)
    ensures Count(s, a) == |s| <==> forall i :: 0 <= i < |s| ==> s[i] == a
  {
    if |s| > 0 {
      var front := s[..|s| - 1];
      CountAll(front, a);
      assert Count(s, a) == Count(front, a) + (if s[|s| - 1] == a then 1 else 0);
      assert forall i :: 0 <= i < |front| ==> front[i] == s[i];
    }
  }
}
