/** Shared vocabulary of the model: optional values and results, instants,
    look-ups with a default, and the stable sort used by the client. */
module Common {

  datatype Option<T> = None | Some(value: T) {
    function GetOr(default: T): T {
      match this
      case Some(v) => v
      case None => default
    }
  }

  /** A call into the provider that either returns a value or raises. */
  datatype Result<T> = Ok(value: T) | Err(message: string)

  /** Instants are local wall-clock seconds counted from a midnight. */
  const SecondsPerDay: int := 86400

  function DayOf(t: int): int {
    t / SecondsPerDay
  }

  function SecOfDay(t: int): (s: int)
    ensures 0 <= s < SecondsPerDay
    ensures t == DayOf(t) * SecondsPerDay + s
  {
    t % SecondsPerDay
  }

  /** Midnight at the start of the day holding `t`. */
  function Midnight(t: int): (m: int)
    ensures m <= t < m + SecondsPerDay
    ensures SecOfDay(m) == 0
  {
    t - SecOfDay(t)
  }

  /** Splitting an instant into a day and a second of that day is unique. */
  lemma SplitUnique(t: int, day: int, s: int)
    requires 0 <= s < SecondsPerDay
    requires t == day * SecondsPerDay + s
    ensures DayOf(t) == day && SecOfDay(t) == s
  {
    var d', s' := DayOf(t), SecOfDay(t);
    assert (d' - day) * SecondsPerDay == s - s';
  }

  /** Python's `d.get(k, 0)` on a dictionary of numbers. */
  function Get(m: map<int, real>, k: int): real {
    if k in m then m[k] else 0.0
  }

  /** Python's `x or default` on an optional number: None and 0 both fall back. */
  function OrDefault(x: Option<real>, default: real): (r: real)
    ensures x.Some? && x.value != 0.0 ==> r == x.value
    ensures x.None? || x.value == 0.0 ==> r == default
  {
    if x.Some? && x.value != 0.0 then x.value else default
  }

  /** Python's `s[-n:]` for n > 0: the last n elements, or all of them. */
  function LastN<T>(s: seq<T>, n: nat): (r: seq<T>)
    requires n > 0
    ensures |r| == if |s| > n then n else |s|
    ensures forall k :: 0 <= k < |r| ==> r[k] == s[|s| - |r| + k]
  {
    if |s| > n then s[|s| - n..] else s
  }

  /** Appending to a list already cut to its last n elements and cutting again keeps the same
      elements as cutting the whole history once. */
  lemma LastNSnoc<T>(s: seq<T>, x: T, n: nat)
    requires n > 0
    ensures LastN(LastN(s, n) + [x], n) == LastN(s + [x], n)
  {
    var a, b := LastN(LastN(s, n) + [x], n), LastN(s + [x], n);
    assert |a| == |b|;
    forall k | 0 <= k < |a| ensures a[k] == b[k] {
      if k < |a| - 1 {
        assert a[k] == (LastN(s, n) + [x])[|LastN(s, n)| + 1 - |a| + k];
      }
    }
  }

  /** Cutting a list that ends with `n` elements `b` to its last `n` gives `b`. */
  lemma LastNOfSuffix<T>(a: seq<T>, b: seq<T>, n: nat)
    requires n > 0 && |b| == n
    ensures LastN(a + b, n) == b
  {
    assert (a + b)[|a|..] == b;
  }

  ghost predicate SortedBy<T>(s: seq<T>, key: T -> int) {
    forall i, j :: 0 <= i < j < |s| ==> key(s[i]) <= key(s[j])
  }

  /** Inserts `x` in front of the first element whose key is not smaller. */
  function InsertBy<T>(x: T, s: seq<T>, key: T -> int): (r: seq<T>)
    requires SortedBy(s, key)
    ensures SortedBy(r, key)
    ensures multiset(r) == multiset(s) + multiset{x}
  {
    if s == [] then [x]
    else if key(x) <= key(s[0]) then [x] + s
    else
      var tail := s[1..];
      var rest := InsertBy(x, tail, key);
      assert s == [s[0]] + tail;
      forall k | 0 <= k < |rest| ensures key(s[0]) <= key(rest[k]) {
        assert rest[k] in multiset(rest);
        if rest[k] != x {
          assert rest[k] in tail;
          var m :| 0 <= m < |tail| && tail[m] == rest[k];
          assert s[m + 1] == rest[k];
        }
      }
      [s[0]] + rest
  }

  /** Python's `sorted(s, key=key)`: an insertion sort on the key. */
  function SortBy<T>(s: seq<T>, key: T -> int): (r: seq<T>)
    ensures SortedBy(r, key)
    ensures multiset(r) == multiset(s)
    ensures |r| == |s|
  {
    if s == [] then []
    else
      assert s == [s[0]] + s[1..];
      InsertBy(s[0], SortBy(s[1..], key), key)
  }
}
