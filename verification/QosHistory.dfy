/** Event history: the newest part of a log, the asynchronous store of internal/qos/history.go and its reload. */
module QosHistory {
  import opened Basics

  /** The last n entries, or all of them. */
  function Newest<E>(s: seq<E>, n: nat): seq<E> {
    if |s| <= n then s else s[|s| - n..]
  }

  function Reversed<E>(s: seq<E>): (r: seq<E>)
    ensures |r| == |s|
  {
    if s == [] then [] else [s[|s| - 1]] + Reversed(s[..|s| - 1])
  }

  /** Taking the newest of the newest is taking the newest by the smaller number. */
  lemma NewestOfNewest<E>(s: seq<E>, m: nat, n: nat)
    ensures Newest(Newest(s, m), n) == Newest(s, Min(m, n))
  {
  }

  lemma NewestThrice<E>(s: seq<E>, a: nat, b: nat, c: nat)
    ensures Newest(Newest(Newest(s, a), b), c) == Newest(s, Min(Min(a, b), c))
  {
  }

  lemma NewestAll<E>(s: seq<E>, n: nat)
    requires |s| <= n
    ensures Newest(s, n) == s
  {
  }

  /** Appending to the ring and cutting it back keeps it the newest part of the log. */
  lemma NewestAppend<E>(log: seq<E>, n: nat, e: E)
    ensures Newest(Newest(log, n) + [e], n) == Newest(log + [e], n)
  {
  }

  lemma {:induction false} ReversedAt<E>(s: seq<E>, i: nat)
    requires i < |s|
    ensures Reversed(s)[i] == s[|s| - 1 - i]
  {
    if i > 0 {
      ReversedAt(s[..|s| - 1], i - 1);
    }
  }

  /** The newest n of a log, newest first: the k-th is the k-th from the end. */
  lemma NewestFirst<E>(s: seq<E>, n: nat, k: nat)
    requires k < |s| && k < n
    ensures |Newest(s, n)| == Min(|s|, n) && Reversed(Newest(s, n))[k] == s[|s| - 1 - k]
  {
    ReversedAt(Newest(s, n), k);
  }

  lemma IsReversed<E>(out: seq<E>, s: seq<E>)
    requires |out| == |s| && forall k :: 0 <= k < |out| ==> out[k] == s[|s| - 1 - k]
    ensures out == Reversed(s)
  {
    forall k | 0 <= k < |s| ensures out[k] == Reversed(s)[k] {
      ReversedAt(s, k);
    }
  }

  lemma ReversedTwice<E>(s: seq<E>)
    ensures Reversed(Reversed(s)) == s
  {
    forall i | 0 <= i < |s| ensures Reversed(Reversed(s))[i] == s[i] {
      ReversedAt(Reversed(s), i);
      ReversedAt(s, |s| - 1 - i);
    }
  }

  /** Walk back from the end, newest first, up to a positive limit. */
  method TakeNewest<E>(hist: seq<E>, limit: int) returns (out: seq<E>)
    ensures out == Reversed(Newest(hist, if limit > 0 then limit else |hist|))
  {
    var n := |hist|;
    if limit > 0 && limit < n {
      n := limit;
    }
    out := [];
    for i := 0 to n
      invariant |out| == i && forall k :: 0 <= k < i ==> out[k] == hist[|hist| - 1 - k]
    {
      out := out + [hist[|hist| - 1 - i]];
    }
    IsReversed(out, Newest(hist, if limit > 0 then limit else |hist|));
  }

  /** Put events that come newest first back in order. */
  method Reorder<E>(evs: seq<E>) returns (hist: seq<E>)
    ensures hist == Reversed(evs)
  {
    hist := [];
    var i := |evs|;
    while i > 0
      invariant 0 <= i <= |evs| && |hist| == |evs| - i
      invariant forall k :: 0 <= k < |hist| ==> hist[k] == evs[|evs| - 1 - k]
    {
      i := i - 1;
      hist := hist + [evs[i]];
    }
    IsReversed(hist, evs);
  }

  /** The newest rows up to a positive limit, oldest first. */
  method Recall<E>(rows: seq<E>, limit: int) returns (hist: seq<E>)
    ensures hist == Newest(rows, if limit > 0 then limit else |rows|)
  {
    var evs := LoadRows(rows, limit);
    hist := Reorder(evs);
    ReversedTwice(Newest(rows, if limit > 0 then limit else |rows|));
  }

  // ---- the asynchronous file store ----

  const BUFFER: nat := 1024
  const MAX_ROWS: nat := 5000

  /** The events of a are among those of b, in the same order. */
  predicate Subsequence<E(==)>(a: seq<E>, b: seq<E>) {
    a == [] ||
    (b != [] &&
     (Subsequence(a, b[..|b| - 1]) || (a[|a| - 1] == b[|b| - 1] && Subsequence(a[..|a| - 1], b[..|b| - 1]))))
  }

  lemma SubsequenceSkip<E>(a: seq<E>, b: seq<E>, e: E)
    requires Subsequence(a, b)
    ensures Subsequence(a, b + [e])
  {
  }

  lemma SubsequenceTake<E>(a: seq<E>, b: seq<E>, e: E)
    requires Subsequence(a, b)
    ensures Subsequence(a + [e], b + [e])
  {
  }

  lemma {:induction false} SubsequenceDrop<E>(x: seq<E>, e: E, y: seq<E>, b: seq<E>)
    requires Subsequence(x + [e] + y, b)
    ensures Subsequence(x + y, b)
    decreases |b|
  {
    var a := x + [e] + y;
    var c := b[..|b| - 1];
    assert b == c + [b[|b| - 1]];
    if Subsequence(a, c) {
      SubsequenceDrop(x, e, y, c);
      SubsequenceSkip(x + y, c, b[|b| - 1]);
    } else if y == [] {
      assert a[..|a| - 1] == x && x + y == x;
      SubsequenceSkip(x, c, b[|b| - 1]);
    } else {
      var z := y[..|y| - 1];
      assert a[..|a| - 1] == x + [e] + z;
      SubsequenceDrop(x, e, z, c);
      SubsequenceTake(x + z, c, b[|b| - 1]);
      assert x + y == (x + z) + [b[|b| - 1]];
    }
  }

  lemma {:induction false} SubsequenceLength<E>(a: seq<E>, b: seq<E>)
    requires Subsequence(a, b)
    ensures |a| <= |b| && (|a| == |b| ==> a == b)
    decreases |b|
  {
    if a != [] {
      var c := b[..|b| - 1];
      if Subsequence(a, c) {
        SubsequenceLength(a, c);
      } else {
        SubsequenceLength(a[..|a| - 1], c);
        assert a == a[..|a| - 1] + [a[|a| - 1]] && b == c + [b[|b| - 1]];
      }
    }
  }

  /** Read the rows back newest first, up to a positive limit. */
  method LoadRows<E>(rows: seq<E>, limit: int) returns (out: seq<E>)
    ensures out == Reversed(Newest(rows, if limit > 0 then limit else |rows|))
  {
    out := [];
    var i := |rows|;
    while i > 0
      invariant 0 <= i <= |rows| && |out| == |rows| - i
      invariant limit > 0 ==> |out| < limit
      invariant forall k :: 0 <= k < |out| ==> out[k] == rows[|rows| - 1 - k]
    {
      i := i - 1;
      out := out + [rows[i]];
      if limit > 0 && |out| >= limit {
        break;
      }
    }
    IsReversed(out, Newest(rows, if limit > 0 then limit else |rows|));
  }

  /** The events of a queue whose writes succeed. */
  function Kept<E>(queue: seq<E>, works: seq<bool>): (kept: seq<E>)
    requires |works| == |queue|
    ensures |kept| <= |queue|
  {
    if queue == [] then []
    else (if works[0] then [queue[0]] else []) + Kept(queue[1..], works[1..])
  }

  lemma KeptFirst<E>(rows: seq<E>, queue: seq<E>, works: seq<bool>)
    requires |works| == |queue| && queue != []
    ensures rows + Kept(queue, works) == (rows + if works[0] then [queue[0]] else []) + Kept(queue[1..], works[1..])
  {
  }

  lemma {:induction false} KeptAll<E>(queue: seq<E>, works: seq<bool>)
    requires |works| == |queue| && false !in works
    ensures Kept(queue, works) == queue
  {
    if queue != [] {
      KeptAll(queue[1..], works[1..]);
    }
  }

  /** A bounded queue in front of a file. given and lost record what was offered and what never gets to the file. */
  class FileStore<E(==)> {
    var queue: seq<E>
    var rows: seq<E>
    var closed: bool
    ghost var given: seq<E>
    ghost var lost: nat

    /** What is on file or on its way there is what was given, in order, less what was lost. */
    ghost predicate Valid()
      reads this
    {
      |queue| <= BUFFER && Subsequence(rows + queue, given) && |rows + queue| + lost == |given|
    }

    /** Open the file, cut back to its newest rows. */
    constructor (file: seq<E>)
      ensures Valid() && rows == Newest(file, 5000) && queue == [] && !closed && given == rows && lost == 0
    {
      var keep := file;
      if |file| > MAX_ROWS {
        keep := file[|file| - MAX_ROWS..];
      }
      queue, rows, closed, given, lost := [], keep, false, keep, 0;
      new;
      SubsequenceSelf(rows);
      assert rows + queue == rows;
    }

    /** Queue an event unless the store is closed or the queue is full. */
    method Append(e: E)
      requires Valid()
      modifies this
      ensures Valid() && given == old(given) + [e] && rows == old(rows) && closed == old(closed)
      ensures lost == old(lost) + if old(closed) || |old(queue)| == 1024 then 1 else 0
      ensures queue == old(queue) + if old(closed) || |old(queue)| == 1024 then [] else [e]
    {
      if closed || |queue| == BUFFER {
        SubsequenceSkip(rows + queue, given, e);
        given, lost := given + [e], lost + 1;
      } else {
        SubsequenceTake(rows + queue, given, e);
        assert rows + (queue + [e]) == rows + queue + [e];
        given, queue := given + [e], queue + [e];
      }
    }

    /** The writer takes one event; a failed write loses it. */
    method WriteOne(ok: bool)
      requires Valid() && queue != []
      modifies this`queue, this`rows, this`lost
      ensures Valid() && queue == old(queue)[1..] && rows == old(rows) + if ok then [old(queue)[0]] else []
      ensures lost == old(lost) + if ok then 0 else 1
    {
      var e := queue[0];
      assert rows + queue == rows + [e] + queue[1..];
      if ok {
        rows := rows + [e];
      } else {
        SubsequenceDrop(rows, e, queue[1..], given);
        lost := lost + 1;
      }
      queue := queue[1..];
    }

    /** The writer's loop until the queue is empty; works says which writes succeed. */
    method Drain(works: seq<bool>)
      requires Valid() && |works| == |queue|
      modifies this`queue, this`rows, this`lost
      ensures Valid() && queue == [] && rows == old(rows) + Kept(old(queue), works)
    {
      ghost var left := works;
      while queue != []
        invariant Valid() && |left| == |queue| <= |works| && left == works[|works| - |queue|..]
        invariant rows + Kept(queue, left) == old(rows) + Kept(old(queue), works)
        decreases |queue|
      {
        KeptFirst(rows, queue, left);
        WriteOne(works[|works| - |queue|]);
        left := left[1..];
      }
    }

    /** Refuse further events, write out the queue, and close the file. Closing twice does nothing more. */
    method Close(works: seq<bool>)
      requires Valid() && (closed ==> queue == []) && |works| == |queue|
      modifies this
      ensures Valid() && closed && queue == [] && rows == old(rows) + Kept(old(queue), works)
      ensures given == old(given) && lost == old(lost) + |works| - |Kept(old(queue), works)|
    {
      if closed {
        return;
      }
      closed := true;
      Drain(works);
    }

    /** After closing, the file is the whole sequence given if and only if nothing was lost. */
    lemma FileIsWholeIffNothingLost()
      requires Valid() && queue == []
      ensures Subsequence(rows, given) && (rows == given <==> lost == 0)
    {
      assert rows + queue == rows;
      SubsequenceLength(rows, given);
    }
  }

  lemma {:induction false} SubsequenceSelf<E>(a: seq<E>)
    ensures Subsequence(a, a)
  {
    if a != [] {
      SubsequenceSelf(a[..|a| - 1]);
    }
  }
}
