/** The sorted merge of 5, 10, 15, ... and 7, 14, 21, ..., both copies of a tie kept. */
module Merging {

  /** How many of the first `k` merged values are multiples of five from the first list; of equal heads the second
      list's goes first. */
  function Fives(k: nat): nat
    ensures Fives(k) <= k
  {
    if k == 0 then 0
    else
      var i := Fives(k - 1);
      if 5 * (i + 1) < 7 * (k - i) then i + 1 else i
  }

  function Sevens(k: nat): nat {
    k - Fives(k)
  }

  /** The merged value number `k`, counted from 0. */
  function Value(k: nat): int {
    var a, b := 5 * (Fives(k) + 1), 7 * (Sevens(k) + 1);
    if a < b then a else b
  }

  function Merged(k: nat): seq<int>
    ensures |Merged(k)| == k
  {
    if k == 0 then [] else Merged(k - 1) + [Value(k - 1)]
  }

  /** m, 2m, ..., km */
  function Multiples(m: int, k: nat): seq<int> {
    if k == 0 then [] else Multiples(m, k - 1) + [m * k]
  }

  lemma {:induction false} MultiplesLength(m: int, k: nat)
    ensures |Multiples(m, k)| == k
  {
    if k > 0 {
      MultiplesLength(m, k - 1);
    }
  }

  /** The split of `k` values between the lists in closed form. */
  lemma {:induction false} FivesClosed(k: nat)
    ensures 7 * k - 5 <= 12 * Fives(k) < 7 * k + 7
  {
    if k > 0 {
      FivesClosed(k - 1);
    }
  }

  /** `m` is a shuffle of `a` and `b`. */
  ghost predicate Shuffle(m: seq<int>, a: seq<int>, b: seq<int>) {
    multiset(m) == multiset(a) + multiset(b)
  }

  lemma OneMore(m: seq<int>, a: seq<int>, b: seq<int>, v: int)
    requires Shuffle(m, a, b)
    ensures Shuffle(m + [v], a + [v], b) && Shuffle(m + [v], a, b + [v])
  {
  }

  /** Each merged value is the lesser of the two heads, the second if they are equal, and only its own list moves
      on. */
  lemma NextOfOneList(k: nat)
    requires k > 0
    ensures var a, b := 5 * (Fives(k - 1) + 1), 7 * (Sevens(k - 1) + 1);
            && Merged(k) == Merged(k - 1) + [if a < b then a else b]
            && Fives(k) == (if a < b then Fives(k - 1) + 1 else Fives(k - 1))
            && Sevens(k) == (if a < b then Sevens(k - 1) else Sevens(k - 1) + 1)
  {
  }

  ghost predicate TakesHeads(k: nat) {
    Shuffle(Merged(k), Multiples(5, Fives(k)), Multiples(7, Sevens(k)))
  }

  /** `Merged(k)` consists of the heads of the two lists. */
  lemma {:induction false} MergedTakesHeads(k: nat)
    ensures TakesHeads(k)
  {
    if k == 0 {
      TakesNothing();
    } else {
      MergedTakesHeads(k - 1);
      TakesOneMore(k);
    }
  }

  lemma TakesNothing()
    ensures TakesHeads(0)
  {
    assert Merged(0) == [] && Multiples(5, 0) == [] && Multiples(7, 0) == [];
  }

  lemma TakesOneMore(k: nat)
    requires k > 0 && TakesHeads(k - 1)
    ensures TakesHeads(k)
  {
    NextOfOneList(k);
    ShuffleGrows(Merged(k - 1), Fives(k - 1), Sevens(k - 1), Fives(k), Sevens(k), Value(k - 1));
  }

  lemma ShuffleGrows(m: seq<int>, i: nat, j: nat, i': nat, j': nat, v: int)
    requires Shuffle(m, Multiples(5, i), Multiples(7, j))
    requires (i' == i + 1 && j' == j && v == 5 * i') || (i' == i && j' == j + 1 && v == 7 * j')
    ensures Shuffle(m + [v], Multiples(5, i'), Multiples(7, j'))
  {
    var a, b := Multiples(5, i), Multiples(7, j);
    OneMore(m, a, b, v);
    if i' == i + 1 {
      MultiplesGrow(5, i, v);
    } else {
      MultiplesGrow(7, j, v);
    }
  }

  lemma MultiplesGrow(m: int, k: nat, v: int)
    requires v == m * (k + 1)
    ensures Multiples(m, k + 1) == Multiples(m, k) + [v]
  {
  }

  /** `Merged(k)` is sorted, and nothing that is left in either list is less than anything in it. */
  lemma {:induction false} MergedIsSorted(k: nat)
    ensures forall x, y :: 0 <= x < y < k ==> Merged(k)[x] <= Merged(k)[y]
    ensures forall x :: 0 <= x < k ==> Merged(k)[x] <= Value(k)
  {
    if k > 0 {
      MergedIsSorted(k - 1);
      assert Value(k - 1) <= Value(k);
      forall x | 0 <= x < k
        ensures Merged(k)[x] <= Value(k - 1)
      {
        assert x < k - 1 ==> Merged(k)[x] == Merged(k - 1)[x];
      }
    }
  }

  lemma {:induction false} MergedPrefix(j: nat, k: nat)
    requires j <= k
    ensures Merged(j) <= Merged(k)
  {
    if j < k {
      MergedPrefix(j, k - 1);
    }
  }
}
