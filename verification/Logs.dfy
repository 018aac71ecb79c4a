/** Totals and selections over a log that only ever grows at its end. */
module Logs {
  function Total<T>(log: seq<T>, weight: T -> nat): nat {
    if log == [] then 0 else Total(log[..|log| - 1], weight) + weight(log[|log| - 1])
  }

  function Gather<T, U>(log: seq<T>, part: T -> seq<U>): seq<U> {
    if log == [] then [] else Gather(log[..|log| - 1], part) + part(log[|log| - 1])
  }

  lemma TotalPush<T>(log: seq<T>, x: T, weight: T -> nat)
    ensures Total(log + [x], weight) == Total(log, weight) + weight(x)
  {
    assert (log + [x])[..|log|] == log;
  }

  lemma {:induction false} TotalJoin<T>(a: seq<T>, b: seq<T>, weight: T -> nat)
    ensures Total(a + b, weight) == Total(a, weight) + Total(b, weight)
  {
    if b == [] {
      assert a + b == a;
    } else {
      var b', x := b[..|b| - 1], b[|b| - 1];
      assert b == b' + [x] && a + b == (a + b') + [x];
      TotalJoin(a, b', weight);
      TotalPush(a + b', x, weight);
    }
  }

  lemma TotalPrefix<T>(a: seq<T>, b: seq<T>, weight: T -> nat)
    requires a <= b
    ensures Total(a, weight) <= Total(b, weight)
  {
    assert b == a + b[|a|..];
    TotalJoin(a, b[|a|..], weight);
  }

  lemma GatherPush<T, U>(log: seq<T>, x: T, part: T -> seq<U>)
    ensures Gather(log + [x], part) == Gather(log, part) + part(x)
  {
    assert (log + [x])[..|log|] == log;
  }

  lemma GatherOne<T, U>(x: T, part: T -> seq<U>)
    ensures Gather([x], part) == part(x) && Gather([], part) == []
  {
    GatherPush([], x, part);
    assert [] + [x] == [x];
    assert Gather([], part) == [];
  }

  lemma {:induction false} GatherJoin<T, U>(a: seq<T>, b: seq<T>, part: T -> seq<U>)
    ensures Gather(a + b, part) == Gather(a, part) + Gather(b, part)
  {
    if b == [] {
      assert a + b == a;
    } else {
      var b', x := b[..|b| - 1], b[|b| - 1];
      assert b == b' + [x] && a + b == (a + b') + [x];
      GatherJoin(a, b', part);
      GatherPush(a + b', x, part);
    }
  }

  lemma GatherPrefix<T, U>(a: seq<T>, b: seq<T>, part: T -> seq<U>)
    requires a <= b
    ensures Gather(a, part) <= Gather(b, part)
  {
    assert b == a + b[|a|..];
    GatherJoin(a, b[|a|..], part);
  }

  /** The next entry of a log, as its reader comes to it. */
  lemma Advance<T>(log: seq<T>, k: nat)
    requires k < |log|
    ensures log[..k + 1] == log[..k] + [log[k]] && log[..k] + [log[k]] <= log
  {
  }
}
