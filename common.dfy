/** Pieces shared by both variants of the altitude-profile optimizer:
    optional values, Python floats that may be `inf`, the priority queue
    that `heapq` keeps, and the measure that shows the searches terminate. */
module Common {

  datatype Option<T> = None | Some(value: T)

  /** A fuel quantity as a Python float that is either finite or `float('inf')`. */
  datatype Cost = Finite(value: real) | Infinite {

    /** `self + b` for a finite `b`: infinity absorbs. */
    function Plus(b: real): Cost {
      if Finite? then Finite(value + b) else Infinite
    }

    /** `self - b` for a finite `b`: infinity absorbs. */
    function Minus(b: real): Cost {
      if Finite? then Finite(value - b) else Infinite
    }

    /** Python's `<` on floats that may be `inf`. */
    predicate Less(other: Cost) {
      match (this, other)
      case (Finite(a), Finite(b)) => a < b
      case (Finite(_), Infinite) => true
      case (Infinite, _) => false
    }

    /** Python's `<=` on floats that may be `inf`. */
    predicate AtMost(other: Cost) {
      other.Infinite? || (Finite? && value <= other.value)
    }
  }

  /** The value recorded for a key, infinite when there is none. */
  function GetOrInfinite<K>(d: map<K, real>, k: K): Cost {
    if k in d then Finite(d[k]) else Infinite
  }

  /** Waypoint coordinates in degrees. */
  datatype Coord = Coord(lat: real, lon: real)

  /** One `heapq` entry: a priority and the item pushed with it. */
  datatype Entry<T> = Entry(priority: real, item: T)

  predicate Distinct<T(==)>(s: seq<T>) {
    forall i, j :: 0 <= i < j < |s| ==> s[i] != s[j]
  }

  /** Python's `list.index`: the first position of `x`. */
  function IndexOf<T(==)>(s: seq<T>, x: T): (i: nat)
    requires x in s
    ensures i < |s| && s[i] == x
    ensures x !in s[..i]
  {
    if s[0] == x then 0 else 1 + IndexOf(s[1..], x)
  }

  /** In a list without repeats, `list.index` of the i-th element is i. */
  lemma IndexOfDistinct<T>(s: seq<T>, i: nat)
    requires Distinct(s) && i < |s|
    ensures IndexOf(s, s[i]) == i
  {
  }

  /** The items currently on a queue. */
  function Items<T>(q: seq<Entry<T>>): set<T> {
    if q == [] then {} else Items(q[..|q| - 1]) + {q[|q| - 1].item}
  }

  lemma {:induction false} ItemsMember<T>(q: seq<Entry<T>>, i: nat)
    requires i < |q|
    ensures q[i].item in Items(q)
  {
    if i < |q| - 1 {
      ItemsMember(q[..|q| - 1], i);
    }
  }

  lemma {:induction false} ItemsWitness<T>(q: seq<Entry<T>>, x: T)
    requires x in Items(q)
    ensures exists i :: 0 <= i < |q| && q[i].item == x
  {
    if x != q[|q| - 1].item {
      ItemsWitness(q[..|q| - 1], x);
      var i :| 0 <= i < |q| - 1 && q[..|q| - 1][i].item == x;
      assert q[i].item == x;
    }
  }

  lemma {:induction false} ItemsRemoveAt<T>(q: seq<Entry<T>>, m: nat)
    requires m < |q|
    ensures Items(q) <= Items(RemoveAt(q, m)) + {q[m].item}
  {
    var r := RemoveAt(q, m);
    forall x | x in Items(q)
      ensures x in Items(r) + {q[m].item}
    {
      ItemsWitness(q, x);
      var i :| 0 <= i < |q| && q[i].item == x;
      if i < m {
        assert r[i] == q[i];
        ItemsMember(r, i);
      } else if i > m {
        assert r[i - 1] == q[i];
        ItemsMember(r, i - 1);
      }
    }
  }

  lemma {:induction false} ItemsGrow<T>(q: seq<Entry<T>>, q': seq<Entry<T>>)
    requires |q| <= |q'| && q'[..|q|] == q
    ensures Items(q) <= Items(q')
  {
    forall x | x in Items(q)
      ensures x in Items(q')
    {
      ItemsWitness(q, x);
      var i :| 0 <= i < |q| && q[i].item == x;
      assert q'[i] == q[i];
      ItemsMember(q', i);
    }
  }

  /** The entry `heapq.heappop` hands back: one of least priority.
      Which of several equal-priority entries comes out is not pinned down
      here beyond "the first in queue order". */
  function MinIndex<T>(heap: seq<Entry<T>>): (m: nat)
    requires heap != []
    ensures m < |heap|
    ensures forall j :: 0 <= j < |heap| ==> heap[m].priority <= heap[j].priority
  {
    if |heap| == 1 then 0
    else
      var m' := MinIndex(heap[1..]);
      if heap[0].priority <= heap[1 + m'].priority then 0 else 1 + m'
  }

  /** The queue left behind once the entry at `m` is popped. */
  function RemoveAt<T>(s: seq<T>, m: nat): (r: seq<T>)
    requires m < |s|
    ensures |r| == |s| - 1
    ensures forall j :: 0 <= j < |r| ==> r[j] == if j < m then s[j] else s[j + 1]
  {
    s[..m] + s[m + 1..]
  }

  /** Python's `list(reversed(s))`. */
  function Reverse<T>(s: seq<T>): (r: seq<T>)
    ensures |r| == |s| && forall i :: 0 <= i < |s| ==> r[i] == s[|s| - 1 - i]
  {
    if s == [] then [] else Reverse(s[1..]) + [s[0]]
  }

  function Pow(b: nat, e: nat): nat {
    if e == 0 then 1 else b * Pow(b, e - 1)
  }

  lemma {:induction false} PowPositive(b: nat, e: nat)
    requires b > 0
    ensures Pow(b, e) > 0
  {
    if e > 0 {
      PowPositive(b, e - 1);
    }
  }

  lemma MulMonotone(a: nat, b: nat, c: nat)
    requires a <= b
    ensures a * c <= b * c
  {
  }

  /** Termination measure of a search queue: the sum of the entries' weights. */
  function Weight<T>(q: seq<Entry<T>>, w: T -> nat): nat {
    if q == [] then 0 else w(q[0].item) + Weight(q[1..], w)
  }

  lemma {:induction false} WeightAppend<T>(q: seq<Entry<T>>, pushed: seq<Entry<T>>, w: T -> nat)
    ensures Weight(q + pushed, w) == Weight(q, w) + Weight(pushed, w)
  {
    if q != [] {
      assert (q + pushed)[1..] == q[1..] + pushed;
      WeightAppend(q[1..], pushed, w);
    } else {
      assert q + pushed == pushed;
    }
  }

  lemma {:induction false} WeightRemoveAt<T>(q: seq<Entry<T>>, m: nat, w: T -> nat)
    requires m < |q|
    ensures Weight(q, w) == Weight(RemoveAt(q, m), w) + w(q[m].item)
  {
    if m > 0 {
      assert RemoveAt(q, m)[1..] == RemoveAt(q[1..], m - 1);
      WeightRemoveAt(q[1..], m - 1, w);
    } else {
      assert RemoveAt(q, m) == q[1..];
    }
  }

  /** A batch of pushed entries that all weigh `each` weighs `|pushed| * each`. */
  lemma {:induction false} WeightBounded<T>(pushed: seq<Entry<T>>, w: T -> nat, each: nat)
    requires forall i :: 0 <= i < |pushed| ==> w(pushed[i].item) == each
    ensures Weight(pushed, w) == |pushed| * each
  {
    if pushed != [] {
      WeightBounded(pushed[1..], w, each);
    }
  }

  /** Popping an entry of weight `base * each` and pushing fewer than `base`
      entries of weight `each` makes the queue strictly lighter. */
  lemma {:induction false} PopAndPushLighter<T>(queued: seq<Entry<T>>, m: nat, openSet: seq<Entry<T>>, w: T -> nat, base: nat, each: nat)
    requires m < |queued|
    requires 0 < each && w(queued[m].item) == base * each
    requires |queued| - 1 <= |openSet| < |queued| - 1 + base
    requires openSet[..|queued| - 1] == RemoveAt(queued, m)
    requires forall i :: |queued| - 1 <= i < |openSet| ==> w(openSet[i].item) == each
    ensures Weight(openSet, w) < Weight(queued, w)
  {
    var remaining := RemoveAt(queued, m);
    var pushed := openSet[|remaining|..];
    assert openSet == remaining + pushed;
    WeightRemoveAt(queued, m, w);
    WeightAppend(remaining, pushed, w);
    WeightBounded(pushed, w, each);
    MulMonotone(|pushed|, base - 1, each);
    assert (base - 1) * each + each == base * each;
    calc {
      Weight(openSet, w);
    ==
      Weight(remaining, w) + |pushed| * each;
    <=
      Weight(remaining, w) + (base - 1) * each;
    <
      Weight(remaining, w) + base * each;
    ==
      Weight(queued, w);
    }
  }
}
