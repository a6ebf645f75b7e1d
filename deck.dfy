/** The deck builder: fills the requested number of cards with five concepts
    each, reading a shuffled copy of the concept list cyclically. */
module Deck {
  import opened Types
  import opened Sequences

  /** The number of cards a loop "for (i = 0; i < count; i++)" makes. */
  function CardCount(count: int): (n: nat)
    ensures count > 0 ==> n == count
    ensures count <= 0 ==> n == 0
  {
    if count > 0 then count else 0
  }

  /** The concepts of card i: the cyclic reader has consumed five slots per
      earlier card, so card i reads positions 5*i .. 5*i+4 modulo the length. */
  function Slots(shuffled: seq<string>, i: nat): (slots: seq<string>)
    requires |shuffled| > 0
    ensures |slots| == 5
    ensures forall j :: 0 <= j < 5 ==> slots[j] == shuffled[(5 * i + j) % |shuffled|]
  {
    seq(5, j requires 0 <= j < 5 => shuffled[(5 * i + j) % |shuffled|])
  }

  /** The deck in closed form: card i has id (i, stamps(i)) and the slots of card i. */
  function CyclicDeck(shuffled: seq<string>, count: int, stamps: nat -> int): (deck: seq<GameCard>)
    requires |shuffled| > 0
    ensures |deck| == CardCount(count)
    ensures forall i :: 0 <= i < |deck| ==> deck[i] == GameCard(CardId(i, stamps(i)), Slots(shuffled, i))
  {
    seq(CardCount(count), i requires 0 <= i < CardCount(count) => GameCard(CardId(i, stamps(i)), Slots(shuffled, i)))
  }

  /** The card loop of generateCards. stamps(i) is the clock reading taken
      when card i is pushed. */
  method BuildDeck(shuffled: seq<string>, count: int, stamps: nat -> int) returns (cards: seq<GameCard>)
    requires |shuffled| > 0
    ensures |cards| == CardCount(count)
    ensures forall i :: 0 <= i < |cards| ==> |cards[i].concepts| == 5
    ensures forall i, j :: 0 <= i < |cards| && 0 <= j < |cards[i].concepts| ==>
      cards[i].concepts[j] == shuffled[(5 * i + j) % |shuffled|]
    ensures forall i :: 0 <= i < |cards| ==> cards[i].id == CardId(i, stamps(i))
    ensures cards == CyclicDeck(shuffled, count, stamps)
  {
    var conceptIndex: nat := 0;
    cards := [];
    var i: nat := 0;
    while i < count
      invariant i <= CardCount(count)
      invariant conceptIndex == 5 * i
      invariant cards == CyclicDeck(shuffled, i, stamps)
    {
      var cardConcepts: seq<string> := [];
      for j := 0 to 5
        invariant conceptIndex == 5 * i + j
        invariant cardConcepts == Slots(shuffled, i)[..j]
      {
        cardConcepts := cardConcepts + [shuffled[conceptIndex % |shuffled|]];
        conceptIndex := conceptIndex + 1;
      }
      assert cardConcepts == Slots(shuffled, i);
      cards := cards + [GameCard(CardId(i, stamps(i)), cardConcepts)];
      i := i + 1;
    }
  }

  /** All concepts of a deck, card after card. */
  function Flatten(deck: seq<GameCard>): (all: seq<string>)
  {
    if deck == [] then [] else Flatten(deck[..|deck| - 1]) + deck[|deck| - 1].concepts
  }

  /** m copies of s, one after the other. */
  function Repeat(s: seq<string>, m: nat): (r: seq<string>)
  {
    if m == 0 then [] else Repeat(s, m - 1) + s
  }

  /** k lies in the q-th block of length len. */
  lemma {:induction false} ModInBlock(k: int, q: int, len: int)
    requires len > 0 && q * len <= k < q * len + len
    ensures k / len == q && k % len == k - q * len
  {
    var r := k - q * len;
    assert k == q * len + r && 0 <= r < len;
    assert k / len == q && k % len == r by {
      DivModUnique(k, q, r, len);
    }
  }

  lemma {:induction false} MulCancelLess(a: int, b: int, len: int)
    requires len > 0 && a * len < b * len
    ensures a < b
  {
  }

  lemma {:induction false} DivModUnique(k: int, q: int, r: int, len: int)
    requires len > 0 && 0 <= r < len && k == q * len + r
    ensures k / len == q && k % len == r
  {
    var q', r' := k / len, k % len;
    assert k == q' * len + r' && 0 <= r' < len;
    assert q * len < (q' + 1) * len;
    MulCancelLess(q, q' + 1, len);
    assert q' * len < (q + 1) * len;
    MulCancelLess(q', q + 1, len);
  }

  lemma {:induction false} RepeatAt(s: seq<string>, m: nat)
    requires |s| > 0
    ensures |Repeat(s, m)| == m * |s|
    ensures forall k :: 0 <= k < m * |s| ==> Repeat(s, m)[k] == s[k % |s|]
  {
    if m > 0 {
      RepeatAt(s, m - 1);
      forall k | (m - 1) * |s| <= k < m * |s| ensures Repeat(s, m)[k] == s[k % |s|] {
        ModInBlock(k, m - 1, |s|);
      }
    }
  }

  /** The deck's concepts are the shuffled list read cyclically. */
  lemma {:induction false} FlattenAt(shuffled: seq<string>, count: int, stamps: nat -> int)
    requires |shuffled| > 0
    ensures |Flatten(CyclicDeck(shuffled, count, stamps))| == 5 * CardCount(count)
    ensures forall k :: 0 <= k < 5 * CardCount(count) ==>
      Flatten(CyclicDeck(shuffled, count, stamps))[k] == shuffled[k % |shuffled|]
  {
    if count > 0 {
      var deck := CyclicDeck(shuffled, count, stamps);
      assert deck[..count - 1] == CyclicDeck(shuffled, count - 1, stamps);
      FlattenAt(shuffled, count - 1, stamps);
    }
  }

  /** Position k of q copies of s followed by the first r elements of s. */
  lemma {:induction false} RepetitionAt(s: seq<string>, q: nat, r: nat, k: nat)
    requires 0 <= r < |s| && k < q * |s| + r
    ensures |Repeat(s, q) + s[..r]| == q * |s| + r
    ensures (Repeat(s, q) + s[..r])[k] == s[k % |s|]
  {
    RepeatAt(s, q);
    if k >= q * |s| {
      ModInBlock(k, q, |s|);
    }
  }

  /** A cyclic reading of s is q whole copies of s followed by a prefix of s. */
  lemma {:induction false} CyclicReadIsRepetition(s: seq<string>, flat: seq<string>)
    requires |s| > 0
    requires forall k :: 0 <= k < |flat| ==> flat[k] == s[k % |s|]
    ensures flat == Repeat(s, |flat| / |s|) + s[..|flat| % |s|]
  {
    var q, r := |flat| / |s|, |flat| % |s|;
    var rep := Repeat(s, q) + s[..r];
    RepeatAt(s, q);
    assert |flat| == q * |s| + r == |rep|;
    forall k | 0 <= k < |flat| ensures flat[k] == rep[k] {
      RepetitionAt(s, q, r, k);
    }
  }

  /** Concatenating all cards gives the shuffled list repeated cyclically and
      cut at 5 * count: q whole copies and then the first r concepts. */
  lemma {:induction false} FlattenIsRepetition(shuffled: seq<string>, count: int, stamps: nat -> int)
    requires |shuffled| > 0
    ensures var total := 5 * CardCount(count);
      Flatten(CyclicDeck(shuffled, count, stamps))
        == Repeat(shuffled, total / |shuffled|) + shuffled[..total % |shuffled|]
  {
    FlattenAt(shuffled, count, stamps);
    CyclicReadIsRepetition(shuffled, Flatten(CyclicDeck(shuffled, count, stamps)));
  }

  lemma {:induction false} RepeatCount(s: seq<string>, m: nat, x: string)
    ensures multiset(Repeat(s, m))[x] == m * multiset(s)[x]
  {
    if m > 0 {
      RepeatCount(s, m - 1, x);
      assert multiset(Repeat(s, m)) == multiset(Repeat(s, m - 1)) + multiset(s);
      var c := multiset(s)[x];
      assert (m - 1) * c + c == m * c;
    }
  }

  /** In q copies of a distinct s followed by the first r elements of s,
      those r elements occur q + 1 times and the others q times. */
  lemma {:induction false} RepetitionCount(s: seq<string>, q: nat, r: nat, x: string)
    requires Distinct(s) && r <= |s|
    ensures var used := multiset(Repeat(s, q) + s[..r])[x];
      && (x in s ==> q <= used <= q + 1)
      && (x in s[..r] ==> used == q + 1)
      && (x in s[r..] ==> used == q)
      && (x !in s ==> used == 0)
  {
    var front, back := s[..r], s[r..];
    assert multiset(Repeat(s, q) + front) == multiset(Repeat(s, q)) + multiset(front);
    RepeatCount(s, q, x);
    DistinctCounts(s);
    assert s == front + back;
    assert Distinct(front) by {
      forall i, j | 0 <= i < j < |front| ensures front[i] != front[j] {
        assert front[i] == s[i] && front[j] == s[j];
      }
    }
    DistinctCounts(front);
    if x in back {
      var k :| 0 <= k < |back| && back[k] == x;
      assert s[r + k] == x;
      forall i | 0 <= i < |front| ensures front[i] != x {
        assert front[i] == s[i];
      }
      assert x !in front;
    }
  }

  /** Cyclic fairness: over a deck built from distinct concepts each concept
      is used q = floor(5 * count / |shuffled|) times, and the first
      5 * count mod |shuffled| concepts of the shuffled list once more. */
  lemma {:induction false} DeckFairness(shuffled: seq<string>, count: int, stamps: nat -> int, x: string)
    requires |shuffled| > 0 && Distinct(shuffled)
    ensures var q := 5 * CardCount(count) / |shuffled|;
      var r := 5 * CardCount(count) % |shuffled|;
      var used := multiset(Flatten(CyclicDeck(shuffled, count, stamps)))[x];
      && (x in shuffled ==> q <= used <= q + 1)
      && (x in shuffled[..r] ==> used == q + 1)
      && (x in shuffled[r..] ==> used == q)
      && (x !in shuffled ==> used == 0)
  {
    var total := 5 * CardCount(count);
    FlattenIsRepetition(shuffled, count, stamps);
    RepetitionCount(shuffled, total / |shuffled|, total % |shuffled|, x);
  }

  /** Every concept placed on a card comes from the concept list, because the
      shuffle only permutes it. */
  lemma {:induction false} DeckDrawsFromConcepts(concepts: seq<string>, shuffled: seq<string>, count: int, stamps: nat -> int)
    requires |shuffled| > 0 && multiset(shuffled) == multiset(concepts)
    ensures var deck := CyclicDeck(shuffled, count, stamps);
      forall i, j :: 0 <= i < |deck| && 0 <= j < |deck[i].concepts| ==> deck[i].concepts[j] in concepts
  {
    var deck := CyclicDeck(shuffled, count, stamps);
    forall i, j | 0 <= i < |deck| && 0 <= j < |deck[i].concepts| ensures deck[i].concepts[j] in concepts {
      var x := deck[i].concepts[j];
      assert x == shuffled[(5 * i + j) % |shuffled|];
      assert x in multiset(shuffled);
    }
  }

  /** Two readings fewer than len positions apart land on different slots. */
  lemma {:induction false} ModApart(a: nat, d: nat, len: nat)
    requires 0 < d < len
    ensures (a + d) % len != a % len
  {
    var q, r := a / len, a % len;
    ModInBlock(a, q, len);
    if r + d < len {
      ModInBlock(a + d, q, len);
    } else {
      ModInBlock(a + d, q + 1, len);
    }
  }

  /** With at least five distinct concepts the five concepts of a card are
      pairwise distinct. */
  lemma {:induction false} CardsHoldDistinctConcepts(shuffled: seq<string>, count: int, stamps: nat -> int)
    requires |shuffled| >= 5 && Distinct(shuffled)
    ensures var deck := CyclicDeck(shuffled, count, stamps);
      forall i :: 0 <= i < |deck| ==> Distinct(deck[i].concepts)
  {
    var deck := CyclicDeck(shuffled, count, stamps);
    forall i | 0 <= i < |deck| ensures Distinct(deck[i].concepts) {
      var c := deck[i].concepts;
      forall j1, j2 | 0 <= j1 < j2 < |c| ensures c[j1] != c[j2] {
        ModApart(5 * i + j1, j2 - j1, |shuffled|);
      }
    }
  }

  /** The deck repeats no concept exactly when it needs no more concepts than
      there are (for a list of distinct concepts). */
  lemma {:induction false} NoRepeatsIff(shuffled: seq<string>, count: int, stamps: nat -> int)
    requires |shuffled| > 0 && Distinct(shuffled)
    ensures Distinct(Flatten(CyclicDeck(shuffled, count, stamps)))
      <==> 5 * CardCount(count) <= |shuffled|
  {
    var n := CardCount(count);
    var flat := Flatten(CyclicDeck(shuffled, count, stamps));
    FlattenAt(shuffled, count, stamps);
    var len := |shuffled|;
    if 5 * n <= len {
      forall k | 0 <= k < |flat| ensures flat[k] == shuffled[k] {
        ModInBlock(k, 0, len);
      }
    } else {
      ModInBlock(len, 1, len);
      assert flat[len] == flat[0];
    }
  }

  /** When the deck needs exactly as many concepts as there are, every
      concept is used exactly once. */
  lemma {:induction false} ExactSupplyUsesEachOnce(concepts: seq<string>, shuffled: seq<string>, count: int, stamps: nat -> int)
    requires |shuffled| > 0 && multiset(shuffled) == multiset(concepts)
    requires 5 * CardCount(count) == |shuffled|
    ensures multiset(Flatten(CyclicDeck(shuffled, count, stamps))) == multiset(concepts)
  {
    FlattenIsRepetition(shuffled, count, stamps);
    ModInBlock(|shuffled|, 1, |shuffled|);
    assert Repeat(shuffled, 1) == shuffled by {
      assert Repeat(shuffled, 0) == [];
    }
    assert shuffled[..0] == [];
  }

  /** With exactly five concepts every card holds the whole shuffled list. */
  lemma {:induction false} FiveConceptsFillEveryCard(shuffled: seq<string>, count: int, stamps: nat -> int)
    requires |shuffled| == 5
    ensures var deck := CyclicDeck(shuffled, count, stamps);
      forall i :: 0 <= i < |deck| ==> deck[i].concepts == shuffled
  {
    var deck := CyclicDeck(shuffled, count, stamps);
    forall i | 0 <= i < |deck| ensures deck[i].concepts == shuffled {
      forall j | 0 <= j < 5 ensures deck[i].concepts[j] == shuffled[j] {
        ModInBlock(5 * i + j, i, 5);
      }
    }
  }
}
