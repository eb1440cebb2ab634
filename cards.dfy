/** Value types shared by both variants of the draw-session logic. */
module Cards {

  /** The source's `x || fallback` and `null` are modelled with this. */
  datatype Option<+T> = None | Some(value: T)

  /** One card of a deck, as read from the deck's JSON data. */
  datatype Card = Card(id: string, name: string, keywords: seq<string>, image: string)

  /** A loaded deck: its `deckInfo` part and its ordered list of cards. */
  datatype Deck = Deck(name: string, imagePath: string, backImage: string, cards: seq<Card>)

  /** No card occurs twice in `s`. */
  predicate NoDuplicates<T(==)>(s: seq<T>) {
    forall i, j | 0 <= i < j < |s| :: s[i] != s[j]
  }

  /** In a sequence without duplicates every element occurs exactly once. */
  lemma {:induction false} NoDuplicatesCountsOne<T>(s: seq<T>)
    requires NoDuplicates(s)
    ensures forall x | x in multiset(s) :: multiset(s)[x] == 1
  {
    if |s| > 0 {
      var p, last := s[..|s| - 1], s[|s| - 1];
      assert s == p + [last];
      assert NoDuplicates(p) by {
        forall i, j | 0 <= i < j < |p| ensures p[i] != p[j] {
          assert p[i] == s[i] && p[j] == s[j];
        }
      }
      NoDuplicatesCountsOne(p);
      assert last !in multiset(p) by {
        forall k | 0 <= k < |p| ensures p[k] != last {
          assert p[k] == s[k];
        }
      }
      assert multiset(s) == multiset(p) + multiset{last};
    }
  }

  /** An element at two different indices occurs at least twice. */
  lemma RepeatCountsTwice<T>(s: seq<T>, i: nat, j: nat)
    requires i < j < |s| && s[i] == s[j]
    ensures multiset(s)[s[i]] >= 2
  {
    var front, back := s[..j], s[j..];
    assert s == front + back;
    assert front[i] == s[i] && back[0] == s[j];
    assert multiset(s) == multiset(front) + multiset(back);
  }

  /** A sequence has no duplicates exactly when no element occurs twice in its multiset. */
  lemma NoDuplicatesMultiset<T>(s: seq<T>)
    ensures NoDuplicates(s) <==> forall x | x in multiset(s) :: multiset(s)[x] == 1
  {
    if NoDuplicates(s) {
      NoDuplicatesCountsOne(s);
    } else {
      var i, j :| 0 <= i < j < |s| && s[i] == s[j];
      RepeatCountsTwice(s, i, j);
    }
  }
}
