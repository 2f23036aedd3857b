/** Lists of positions, in increasing order. */
module Positions {

  ghost predicate Increasing(at: seq<nat>) {
    forall j, k | 0 <= j < k < |at| :: at[j] < at[k]
  }

  function Shifted(at: seq<nat>): seq<nat> {
    seq(|at|, j requires 0 <= j < |at| => at[j] + 1)
  }

  // The positions in a sequence, from those in its tail and whether 0 is one.
  function Prepend(head: bool, rest: seq<nat>): seq<nat> {
    if head then [0] + Shifted(rest) else Shifted(rest)
  }

  function From(head: bool, j: int): int {
    if head then j - 1 else j
  }

  lemma PrependFacts(head: bool, rest: seq<nat>)
    requires Increasing(rest)
    ensures var at := Prepend(head, rest);
            && Increasing(at) && |at| == |rest| + (if head then 1 else 0)
            && (head ==> at[0] == 0)
            && (forall j | 0 <= From(head, j) < |rest| :: at[j] == rest[From(head, j)] + 1)
  {
    var at := Prepend(head, rest);
    forall j, k | 0 <= j < k < |at| ensures at[j] < at[k] {
      var j', k' := From(head, j), From(head, k);
      assert at[k] == rest[k'] + 1;
      assert j' >= 0 ==> at[j] == rest[j'] + 1;
    }
  }

  lemma PrependMember(head: bool, rest: seq<nat>, i: nat)
    ensures i in Prepend(head, rest) <==> (head && i == 0) || (i > 0 && i - 1 in rest)
  {
    var at, moved := Prepend(head, rest), Shifted(rest);
    if i > 0 && i - 1 in rest {
      var k :| 0 <= k < |rest| && rest[k] == i - 1;
      assert moved[k] == i;
    }
    if i in moved {
      var k :| 0 <= k < |moved| && moved[k] == i;
      assert rest[k] == i - 1;
    }
    assert i in at <==> (head && i == 0) || i in moved;
  }

  lemma FirstIsMember(b: seq<nat>)
    ensures b == [] || b[0] in b
  {
  }

  lemma {:induction false} SameIncreasing(a: seq<nat>, b: seq<nat>)
    requires Increasing(a) && Increasing(b)
    requires forall i: nat :: i in a <==> i in b
    ensures a == b
  {
    FirstIsMember(b);
    if a == [] {
      assert b == [];
    } else {
      assert a[0] in b && b != [];
      assert b[0] in a;
      assert a[0] == b[0];
      forall i: nat ensures i in a[1..] <==> i in b[1..] {
        assert i in a <==> i == a[0] || i in a[1..];
        assert i in b <==> i == b[0] || i in b[1..];
        assert a[0] !in a[1..] && b[0] !in b[1..];
      }
      SameIncreasing(a[1..], b[1..]);
      assert a == [a[0]] + a[1..] && b == [b[0]] + b[1..];
    }
  }

  function UpTo(n: nat): (at: seq<nat>)
    ensures |at| == n && Increasing(at)
    ensures forall i | 0 <= i < n :: at[i] == i
  {
    seq(n, i requires 0 <= i < n => i)
  }
}
