/**
 * The Fisher-Yates shuffle of `shuffleDeck`: copy the deck, then for `i` from
 * `length - 1` down to `1` swap position `i` with a random position `j` in `0..i`.
 * The random choices are supplied by the caller as the sequence `js`, whose
 * entry `js[i]` is the `j` drawn when the loop is at `i`.
 */
module Shuffle {

  /** Every choice is one `Math.floor(Math.random() * (i + 1))` can make: `0 <= js[i] <= i`. */
  predicate ChoicesInRange(js: seq<nat>) {
    forall i | 0 < i < |js| :: js[i] <= i
  }

  /** `js` is a possible sequence of random choices for a deck of `n` cards. */
  predicate IsOracle(js: seq<nat>, n: nat) {
    |js| == n && ChoicesInRange(js)
  }

  /** `s` with the elements at `i` and `j` exchanged. */
  function Swap<T>(s: seq<T>, i: nat, j: nat): (r: seq<T>)
    requires i < |s| && j < |s|
    ensures |r| == |s|
  {
    s[i := s[j]][j := s[i]]
  }

  /** A swap keeps every card, each as often as before. */
  lemma SwapPermutes<T>(s: seq<T>, i: nat, j: nat)
    requires i < |s| && j < |s|
    ensures multiset(Swap(s, i, j)) == multiset(s)
  {
  }

  /**
   * The sequence the shuffle loop produces: the swap at the last position fixes
   * that position for good, and the rest of the loop shuffles the prefix. Only
   * the first `|s|` choices of `js` are used.
   */
  function FisherYates<T>(s: seq<T>, js: seq<nat>): (r: seq<T>)
    requires |s| <= |js| && ChoicesInRange(js)
    ensures |r| == |s|
    decreases |s|
  {
    if |s| <= 1 then s
    else
      var i := |s| - 1;
      var t := Swap(s, i, js[i]);
      FisherYates(t[..i], js) + [t[i]]
  }

  /** The shuffle is a permutation: the same cards, each as often as in the input. */
  lemma {:induction false} FisherYatesPermutes<T>(s: seq<T>, js: seq<nat>)
    requires |s| <= |js| && ChoicesInRange(js)
    ensures multiset(FisherYates(s, js)) == multiset(s)
    decreases |s|
  {
    if |s| > 1 {
      var i := |s| - 1;
      var t := Swap(s, i, js[i]);
      assert multiset(t[..i]) + multiset{t[i]} == multiset(s) by {
        assert t == t[..i] + [t[i]];
        SwapPermutes(s, i, js[i]);
      }
      FisherYatesPermutes(t[..i], js);
      FisherYatesUnfold(s, js);
    }
  }

  /** The shuffle depends only on the choices made for the positions it visits. */
  lemma {:induction false} FisherYatesUsesPrefix<T>(s: seq<T>, js: seq<nat>, ks: seq<nat>)
    requires |s| <= |js| && ChoicesInRange(js)
    requires |s| <= |ks| && ChoicesInRange(ks)
    requires js[..|s|] == ks[..|s|]
    ensures FisherYates(s, js) == FisherYates(s, ks)
    decreases |s|
  {
    if |s| > 1 {
      var i := |s| - 1;
      assert js[i] == js[..|s|][i] == ks[..|s|][i] == ks[i];
      var t := Swap(s, i, js[i]);
      assert js[..i] == js[..|s|][..i];
      assert ks[..i] == ks[..|s|][..i];
      FisherYatesUsesPrefix(t[..i], js, ks);
    }
  }

  /** The first turn of the shuffle loop over `p`, the step `FisherYates` recurses by. */
  lemma FisherYatesUnfold<T>(p: seq<T>, js: seq<nat>)
    requires 2 <= |p| <= |js| && ChoicesInRange(js)
    ensures var t := Swap(p, |p| - 1, js[|p| - 1]);
            FisherYates(p, js) == FisherYates(t[..|p| - 1], js) + [t[|p| - 1]]
  {
  }

  /** One turn of the shuffle loop, at position `i`, in terms of `FisherYates`. */
  lemma ShuffleStep<T>(b: seq<T>, js: seq<nat>, i: nat, a: seq<T>)
    requires 0 < i < |b| <= |js| && ChoicesInRange(js)
    requires a == Swap(b, i, js[i])
    ensures FisherYates(b[..i + 1], js) + b[i + 1..] == FisherYates(a[..i], js) + a[i..]
  {
    var p := b[..i + 1];
    var t := Swap(p, i, js[i]);
    assert t[..i] == a[..i] && t[i] == a[i] by {
      assert t == a[..i + 1];
    }
    assert a[i..] == [a[i]] + b[i + 1..];
    FisherYatesUnfold(p, js);
  }

  /** The shuffle loop as written, resumed at position `i` on the sequence `s`. */
  function ShuffleLoop<T>(s: seq<T>, js: seq<nat>, i: int): seq<T>
    requires -1 <= i < |s| <= |js| && ChoicesInRange(js)
    decreases i
  {
    if i <= 0 then s else ShuffleLoop(Swap(s, i, js[i]), js, i - 1)
  }

  /** The loop, resumed at `i`, shuffles the first `i + 1` cards and leaves the rest in place. */
  lemma {:induction false} ShuffleLoopIsFisherYates<T>(s: seq<T>, js: seq<nat>, i: int)
    requires -1 <= i < |s| <= |js| && ChoicesInRange(js)
    ensures ShuffleLoop(s, js, i) == FisherYates(s[..i + 1], js) + s[i + 1..]
    decreases i
  {
    if i <= 0 {
      assert FisherYates(s[..i + 1], js) == s[..i + 1];
      assert s == s[..i + 1] + s[i + 1..];
    } else {
      var u := Swap(s, i, js[i]);
      assert ShuffleLoop(s, js, i) == ShuffleLoop(u, js, i - 1);
      ShuffleLoopIsFisherYates(u, js, i - 1);
      ShuffleStep(s, js, i, u);
    }
  }

  /** The destructuring exchange `[a[i], a[j]] = [a[j], a[i]]`. */
  method SwapInPlace<T>(a: array<T>, i: nat, j: nat)
    requires i < a.Length && j < a.Length
    modifies a
    ensures a[..] == Swap(old(a[..]), i, j)
  {
    a[i], a[j] := a[j], a[i];
  }

  /**
   * `shuffleDeck`: copies `deck` into a fresh array and swaps in place, from the
   * last position down to position 1. The input is a value and stays as it was.
   */
  method ShuffleDeck<T>(deck: seq<T>, js: seq<nat>) returns (shuffled: seq<T>)
    requires IsOracle(js, |deck|)
    ensures shuffled == FisherYates(deck, js)
  {
    var n := |deck|;
    var a := new T[n](k requires 0 <= k < n => deck[k]);
    var i: int := n - 1;
    assert a[..] == deck;
    while i > 0
      invariant -1 <= i < n
      invariant ShuffleLoop(a[..], js, i) == ShuffleLoop(deck, js, n - 1)
    {
      var j := js[i];
      SwapInPlace(a, i, j);
      i := i - 1;
    }
    shuffled := a[..];
    ShuffleLoopIsFisherYates(deck, js, n - 1);
    assert deck[..n] == deck && deck[n..] == [];
  }

  /** Two permutations of each other that end in the same card agree without it. */
  lemma DropLastOfPermutations<T>(u: seq<T>, t: seq<T>)
    requires |u| == |t| >= 1 && multiset(u) == multiset(t) && u[|u| - 1] == t[|t| - 1]
    ensures multiset(u[..|u| - 1]) == multiset(t[..|t| - 1])
  {
    var i := |u| - 1;
    assert multiset(u[..i]) == multiset(u) - multiset{u[i]} by {
      assert u == u[..i] + [u[i]];
    }
    assert multiset(t[..i]) == multiset(t) - multiset{t[i]} by {
      assert t == t[..i] + [t[i]];
    }
  }

  /**
   * The first choice that steers the shuffle of `s` towards the permutation `t`:
   * the position of `t`'s last card in `s`.
   */
  lemma ChooseLast<T>(s: seq<T>, t: seq<T>) returns (j: nat)
    requires multiset(t) == multiset(s) && |s| >= 2
    ensures |t| == |s| && j < |s| && s[j] == t[|s| - 1]
    ensures multiset(Swap(s, |s| - 1, j)[..|s| - 1]) == multiset(t[..|s| - 1])
  {
    var i := |s| - 1;
    assert |t| == |s| by {
      assert |t| == |multiset(t)| == |s|;
    }
    assert t[i] in s by {
      assert t[i] in multiset(t);
    }
    j :| 0 <= j <= i && s[j] == t[i];
    SwapPermutes(s, i, j);
    DropLastOfPermutations(Swap(s, i, j), t);
  }

  /**
   * Every ordering of the deck is some run of the shuffle: for every permutation
   * `t` of `s` there are choices `js` that make the loop produce `t`.
   */
  lemma {:induction false} EveryPermutationReachable<T>(s: seq<T>, t: seq<T>) returns (js: seq<nat>)
    requires multiset(t) == multiset(s)
    ensures IsOracle(js, |s|) && FisherYates(s, js) == t
    decreases |s|
  {
    if |s| <= 1 {
      assert |t| == |s| by {
        assert |t| == |multiset(t)| == |s|;
      }
      if |s| == 1 {
        assert t[0] in multiset(s);
        assert t == s;
        js := [0];
      } else {
        js := [];
      }
    } else {
      var i := |s| - 1;
      var j := ChooseLast(s, t);
      assert t == t[..i] + [t[i]];
      var u := Swap(s, i, j);
      var rest := EveryPermutationReachable(u[..i], t[..i]);
      js := rest + [j];
      assert FisherYates(u[..i], js) == t[..i] by {
        assert js[..i] == rest[..i];
        FisherYatesUsesPrefix(u[..i], js, rest);
      }
      FisherYatesUnfold(s, js);
    }
  }
}
