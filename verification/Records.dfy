/**
 What the operations on record say about a trace: the objects of every world are those that the
 operations recorded up to there have made, one after the other. And what several records mean for
 a store that is shared.
 */
module Records {
  import opened Store
  import opened World
  import opened Api

  /** The operations on record up to position i. */
  function Until(t: seq<Snap>, i: nat): seq<Op>
    requires i < |t|
  {
    Ops(t[..i + 1])
  }

  /** The operations recorded after position i, up to position j. */
  function Between(t: seq<Snap>, i: nat, j: nat): seq<Op>
    requires i <= j < |t|
    decreases j - i
  {
    if i == j then [] else Between(t, i, j - 1) + OpOf(t[j].step)
  }

  lemma {:induction false} UntilLater(t: seq<Snap>, i: nat, j: nat)
    requires i <= j < |t|
    ensures Until(t, j) == Until(t, i) + Between(t, i, j)
    decreases j - i
  {
    if i < j {
      UntilLater(t, i, j - 1);
      assert t[..j + 1] == t[..j] + [Snap(t[j].step, t[j].world)];
      OpsMore(t[..j], t[j].step, t[j].world);
    }
  }

  lemma {:induction false} BetweenParts(t: seq<Snap>, i: nat, j: nat, k: nat)
    requires i <= j <= k < |t|
    ensures Between(t, i, k) == Between(t, i, j) + Between(t, j, k)
    decreases k - j
  {
    if j < k { BetweenParts(t, i, j, k - 1); }
  }

  lemma ApplyOne(s: Objects, l: Label)
    ensures Apply(s, OpOf(l)) == if l.ClusterWrite? then Do(s, l.op) else s
  {
    if l.ClusterWrite? { assert [l.op][..0] == []; }
  }

  /** Between two positions the objects change by the operations recorded between them, and by nothing else. */
  lemma {:induction false} Replay(t: seq<Snap>, i: nat, j: nat)
    requires Legal(t) && i <= j < |t|
    ensures t[j].world.objects == Apply(t[i].world.objects, Between(t, i, j))
    decreases j - i
  {
    if i < j {
      Replay(t, i, j - 1);
      assert Linked(Nth(t, j - 1).world, Nth(t, j).step, Nth(t, j).world);
      ApplyOne(t[j - 1].world.objects, t[j].step);
      ApplyConcat(t[i].world.objects, Between(t, i, j - 1), OpOf(t[j].step));
    }
  }

  /** The record grows by one operation at a time. */
  lemma {:induction false} Passes(t: seq<Snap>, i: nat, j: nat, m: nat) returns (k: nat)
    requires i <= j < |t| && m <= |Between(t, i, j)|
    ensures i <= k <= j && |Between(t, i, k)| == m
    decreases j - i
  {
    if |Between(t, i, j)| == m {
      k := j;
    } else {
      k := Passes(t, i, j - 1, m);
    }
  }

  lemma SameRest(a: seq<Op>, b: seq<Op>, c: seq<Op>)
    requires a + b == a + c
    ensures b == c
  {
    assert (a + b)[|a|..] == b && (a + c)[|a|..] == c;
  }

  lemma Grown(t: seq<Snap>, i: nat, ops: seq<Op>)
    requires i < |t| && Ops(t) == Until(t, i) + ops
    ensures Between(t, i, |t| - 1) == ops
  {
    assert t[..|t| - 1 + 1] == t;
    UntilLater(t, i, |t| - 1);
    SameRest(Until(t, i), Between(t, i, |t| - 1), ops);
  }

  lemma FirstPart(a: seq<Op>, b: seq<Op>, ops: seq<Op>)
    requires ops == a + b
    ensures a <= ops && a == ops[..|a|]
  {}

  /** When the record has grown by ops, every world in between is one in which a first part of ops has been done. */
  lemma PartDone(t: seq<Snap>, i: nat, j: nat, ops: seq<Op>)
    requires Legal(t) && i <= j < |t| && Ops(t) == Until(t, i) + ops
    ensures Between(t, i, j) <= ops && Between(t, i, j) == ops[..|Between(t, i, j)|]
    ensures t[j].world.objects == Apply(t[i].world.objects, Between(t, i, j))
  {
    Grown(t, i, ops);
    BetweenParts(t, i, j, |t| - 1);
    FirstPart(Between(t, i, j), Between(t, j, |t| - 1), ops);
    Replay(t, i, j);
  }

  /** And every first part of ops has been all that was done, at some point. */
  lemma Reached(t: seq<Snap>, i: nat, ops: seq<Op>, m: nat) returns (j: nat)
    requires Legal(t) && i < |t| && Ops(t) == Until(t, i) + ops && m <= |ops|
    ensures i <= j < |t| && t[j].world.objects == Apply(t[i].world.objects, ops[..m])
  {
    Grown(t, i, ops);
    j := Passes(t, i, |t| - 1, m);
    PartDone(t, i, j, ops);
  }

  // ---------------------------------------------------------------- shared stores

  /** c consists of the operations of a and those of b, each in their order. */
  ghost predicate Merge(c: seq<Op>, a: seq<Op>, b: seq<Op>) {
    if c == [] then a == [] && b == []
    else
      var rest, op := c[..|c| - 1], c[|c| - 1];
      || (a != [] && a[|a| - 1] == op && Merge(rest, a[..|a| - 1], b))
      || (b != [] && b[|b| - 1] == op && Merge(rest, a, b[..|b| - 1]))
  }

  /** Two stores hold the same at a key. */
  predicate Agree(s: Objects, t: Objects, k: Key) {
    (k in s <==> k in t) && (k in s ==> s[k] == t[k])
  }

  lemma {:induction false} MergeSymmetric(c: seq<Op>, a: seq<Op>, b: seq<Op>)
    requires Merge(c, a, b)
    ensures Merge(c, b, a)
    decreases c
  {
    if c != [] {
      var rest := c[..|c| - 1];
      if a != [] && a[|a| - 1] == c[|c| - 1] && Merge(rest, a[..|a| - 1], b) {
        MergeSymmetric(rest, a[..|a| - 1], b);
      } else {
        MergeSymmetric(rest, a, b[..|b| - 1]);
      }
    }
  }

  lemma DoAgrees(s: Objects, t: Objects, op: Op, k: Key)
    requires Agree(s, t, k)
    ensures Agree(Do(s, op), Do(t, op), k)
    ensures Area(op) != k.ns ==> Agree(Do(s, op), t, k)
  {}

  /** Stores that hold the same at a key still do so after the same operations. */
  lemma {:induction false} ApplyAgrees(s: Objects, t: Objects, ops: seq<Op>, k: Key)
    requires Agree(s, t, k)
    ensures Agree(Apply(s, ops), Apply(t, ops), k)
  {
    if ops != [] {
      ApplyAgrees(s, t, ops[..|ops| - 1], k);
      DoAgrees(Apply(s, ops[..|ops| - 1]), Apply(t, ops[..|ops| - 1]), ops[|ops| - 1], k);
    }
  }

  /** What others do in other namespaces, and when, makes no difference. */
  lemma {:induction false} MergeApart(s: Objects, c: seq<Op>, a: seq<Op>, b: seq<Op>, k: Key)
    requires Merge(c, a, b) && forall i :: 0 <= i < |b| ==> Area(b[i]) != k.ns
    ensures Agree(Apply(s, c), Apply(s, a), k)
    decreases c
  {
    if c != [] {
      var rest, op := c[..|c| - 1], c[|c| - 1];
      if a != [] && a[|a| - 1] == op && Merge(rest, a[..|a| - 1], b) {
        MergeApart(s, rest, a[..|a| - 1], b, k);
        DoAgrees(Apply(s, rest), Apply(s, a[..|a| - 1]), op, k);
      } else {
        MergeApart(s, rest, a, b[..|b| - 1], k);
        DoAgrees(Apply(s, rest), Apply(s, a), op, k);
      }
    }
  }
}
