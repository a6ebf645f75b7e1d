/** The application state and its handlers: the concept list clean-up, the
    card-count defaults and clamps, the repeat warning and deck generation. */
module App {
  import opened Types
  import opened Sequences
  import opened Strings
  import Deck

  /** The order in which a JavaScript Set built from xs holds its values:
      each distinct value once, at its first occurrence. */
  function Dedup(xs: seq<string>): (r: seq<string>)
    ensures Distinct(r)
    ensures forall x :: x in r <==> x in xs
  {
    if xs == [] then []
    else
      var prefix, last := xs[..|xs| - 1], xs[|xs| - 1];
      assert xs == prefix + [last];
      var d := Dedup(prefix);
      if last in d then d else d + [last]
  }

  /** "c.trim().length > 0" fails. */
  predicate IsBlank(c: string) {
    |Trim(c)| == 0
  }

  /** Array.prototype.filter with "c.trim().length > 0". */
  function KeepNonBlank(xs: seq<string>): (r: seq<string>)
    ensures forall x :: x in r <==> x in xs && !IsBlank(x)
  {
    if xs == [] then []
    else
      var prefix, last := xs[..|xs| - 1], xs[|xs| - 1];
      assert xs == prefix + [last];
      KeepNonBlank(prefix) + (if IsBlank(last) then [] else [last])
  }

  /** The list handleConceptsUpdate stores: Array.from(new Set(xs)) without
      the entries that are blank after trimming. */
  function UniqueConcepts(xs: seq<string>): (r: seq<string>)
  {
    KeepNonBlank(Dedup(xs))
  }

  lemma {:induction false} FirstIndexPrefix(s: seq<string>, t: seq<string>, x: string)
    requires x in s
    ensures FirstIndex(s + t, x) == FirstIndex(s, x)
  {
    if s[0] != x {
      assert (s + t)[1..] == s[1..] + t;
      FirstIndexPrefix(s[1..], t, x);
    }
  }

  lemma {:induction false} DedupOrder(xs: seq<string>)
    ensures InFirstOccurrenceOrder(Dedup(xs), xs)
  {
    if xs != [] {
      var prefix, last := xs[..|xs| - 1], xs[|xs| - 1];
      assert xs == prefix + [last];
      var d := Dedup(prefix);
      DedupOrder(prefix);
      forall y | y in d ensures FirstIndex(xs, y) == FirstIndex(prefix, y) {
        FirstIndexPrefix(prefix, [last], y);
      }
      if last !in d {
        assert FirstIndex(xs, last) == |xs| - 1;
        var r := d + [last];
        forall i, j | 0 <= i < j < |r| ensures FirstIndex(xs, r[i]) < FirstIndex(xs, r[j]) {
          assert r[i] in d;
          if j < |d| {
            assert r[j] in d;
          }
        }
      }
    }
  }

  /** Filtering keeps a distinct list distinct. */
  lemma {:induction false} KeepNonBlankDistinct(d: seq<string>)
    requires Distinct(d)
    ensures Distinct(KeepNonBlank(d))
  {
    if d != [] {
      var prefix, last := d[..|d| - 1], d[|d| - 1];
      assert d == prefix + [last];
      KeepNonBlankDistinct(prefix);
      var kept := KeepNonBlank(prefix);
      assert last !in prefix;
      if !IsBlank(last) {
        var r := kept + [last];
        forall i, j | 0 <= i < j < |r| ensures r[i] != r[j] {
          assert r[i] in kept;
        }
      }
    }
  }

  /** Filtering keeps the survivors in their order. */
  lemma {:induction false} KeepNonBlankOrder(d: seq<string>, xs: seq<string>)
    requires forall x :: x in d ==> x in xs
    requires InFirstOccurrenceOrder(d, xs)
    ensures InFirstOccurrenceOrder(KeepNonBlank(d), xs)
  {
    if d != [] {
      var prefix, last := d[..|d| - 1], d[|d| - 1];
      assert d == prefix + [last];
      assert InFirstOccurrenceOrder(prefix, xs) by {
        forall i, j | 0 <= i < j < |prefix| ensures FirstIndex(xs, prefix[i]) < FirstIndex(xs, prefix[j]) {
          assert prefix[i] == d[i] && prefix[j] == d[j];
        }
      }
      KeepNonBlankOrder(prefix, xs);
      var kept := KeepNonBlank(prefix);
      if !IsBlank(last) {
        var r := kept + [last];
        forall i, j | 0 <= i < j < |r| ensures FirstIndex(xs, r[i]) < FirstIndex(xs, r[j]) {
          if j < |kept| {
            assert r[i] == kept[i] && r[j] == kept[j];
          } else {
            assert r[i] in prefix;
            var k :| 0 <= k < |prefix| && prefix[k] == r[i];
            assert d[k] == r[i] && d[|d| - 1] == r[j];
          }
        }
      }
    }
  }

  /** handleConceptsUpdate yields a list without duplicates and without blank
      entries, holding exactly the non-blank input entries in the order of
      their first occurrence. */
  lemma ConceptsUpdateSpec(xs: seq<string>)
    ensures Distinct(UniqueConcepts(xs))
    ensures forall x :: x in UniqueConcepts(xs) <==> x in xs && !IsBlank(x)
    ensures forall i :: 0 <= i < |UniqueConcepts(xs)| ==> !IsBlank(UniqueConcepts(xs)[i])
    ensures InFirstOccurrenceOrder(UniqueConcepts(xs), xs)
  {
    DedupOrder(xs);
    KeepNonBlankDistinct(Dedup(xs));
    KeepNonBlankOrder(Dedup(xs), xs);
  }

  /** maxPossibleCards: the number of full cards the concepts fill without
      repeating one. */
  function MaxPossibleCards(total: nat): (n: nat)
    ensures 5 * n <= total < 5 * n + 5
  {
    total / 5
  }

  /** The target the effect sets while nothing is generated: the number of
      full cards, or 1 when not even one card can be filled. */
  function DefaultTarget(total: nat): (t: int)
    ensures t >= 1
    ensures total >= 5 ==> t == MaxPossibleCards(total)
    ensures total < 5 ==> t == 1
  {
    var possible := total / 5;
    if possible > 0 then possible else 1
  }

  /** The value of parseInt: a number or NaN. */
  datatype ParsedInt = NotANumber | Number(value: int)

  /** "Math.max(1, parseInt(v) || 0)": NaN and 0 are falsy and become 0,
      then anything below 1 becomes 1. */
  function ClampCount(parsed: ParsedInt): (t: int)
    ensures t >= 1
    ensures parsed.Number? && parsed.value >= 1 ==> t == parsed.value
    ensures (parsed.NotANumber? || parsed.value < 1) ==> t == 1
  {
    var v := if parsed.Number? && parsed.value != 0 then parsed.value else 0;
    if v > 1 then v else 1
  }

  /** "Begrippen worden herhaald": fewer concepts than the target needs. */
  function RepeatWarning(total: nat, target: int): (w: bool)
    ensures w <==> target > MaxPossibleCards(total)
  {
    total < target * 5
  }

  /** The slider's maximum: "Math.max(50, Math.ceil(total / 5) + 10)". */
  function SliderMax(total: nat): (m: int)
    ensures m >= 50
    ensures 5 * (m - 10) >= total
    ensures m == 50 || 5 * (m - 11) < total
  {
    var ceiling := (total + 4) / 5;
    if ceiling + 10 > 50 then ceiling + 10 else 50
  }

  /** The default target always lies on the slider. */
  lemma DefaultTargetOnSlider(total: nat)
    ensures 1 <= DefaultTarget(total) <= SliderMax(total)
  {
  }

  /** The default target never triggers the warning when a card can be filled,
      and one card more would. */
  lemma DefaultTargetIsLargestWithoutRepeats(total: nat)
    requires total >= 5
    ensures !RepeatWarning(total, DefaultTarget(total))
    ensures RepeatWarning(total, DefaultTarget(total) + 1)
  {
  }

  /** The warning shows exactly when the generated deck repeats a concept. */
  lemma {:induction false} RepeatWarningExact(concepts: seq<string>, shuffled: seq<string>, target: int, stamps: nat -> int)
    requires |concepts| > 0 && Distinct(concepts) && multiset(shuffled) == multiset(concepts)
    ensures RepeatWarning(|concepts|, target)
      <==> !Distinct(Deck.Flatten(Deck.CyclicDeck(shuffled, target, stamps)))
  {
    assert |shuffled| == |multiset(shuffled)| == |concepts|;
    DistinctPermutation(concepts, shuffled);
    Deck.NoRepeatsIff(shuffled, target, stamps);
  }

  /** The state of the generator page and its handlers. */
  class AppState {
    var concepts: seq<string>
    var generatedCards: seq<GameCard>
    var targetCardCount: int
    var cardTitle: string
    var hasGenerated: bool
    /** The effect's dependencies [totalConcepts, hasGenerated] as of its
        last run; React runs it again only when one of them differs. */
    var effectTotal: nat
    var effectGenerated: bool

    /** What every handler keeps: the concept list is clean and the target positive. */
    ghost predicate Valid()
      reads this
    {
      && Distinct(concepts)
      && (forall i :: 0 <= i < |concepts| ==> !IsBlank(concepts[i]))
      && targetCardCount >= 1
    }

    constructor ()
      ensures Valid()
      ensures concepts == [] && generatedCards == [] && targetCardCount == 8
      ensures cardTitle == DefaultTitle && !hasGenerated
      ensures effectTotal == 0 && !effectGenerated
    {
      concepts := [];
      generatedCards := [];
      targetCardCount := 8;
      cardTitle := DefaultTitle;
      hasGenerated := false;
      effectTotal := 0;
      effectGenerated := false;
    }

    /** handleConceptsUpdate: store the cleaned list and forget the generation. */
    method HandleConceptsUpdate(newConcepts: seq<string>)
      requires Valid()
      modifies this
      ensures Valid()
      ensures concepts == UniqueConcepts(newConcepts) && !hasGenerated
      ensures generatedCards == old(generatedCards) && targetCardCount == old(targetCardCount)
      ensures cardTitle == old(cardTitle)
      ensures effectTotal == old(effectTotal) && effectGenerated == old(effectGenerated)
    {
      ConceptsUpdateSpec(newConcepts);
      concepts := UniqueConcepts(newConcepts);
      hasGenerated := false;
    }

    /** clearConcepts: empty the list and the deck. */
    method ClearConcepts()
      requires Valid()
      modifies this
      ensures Valid()
      ensures concepts == [] && generatedCards == [] && !hasGenerated
      ensures targetCardCount == old(targetCardCount) && cardTitle == old(cardTitle)
      ensures effectTotal == old(effectTotal) && effectGenerated == old(effectGenerated)
    {
      concepts := [];
      generatedCards := [];
      hasGenerated := false;
    }

    /** generateCards. shuffled is the shuffled copy of the concept list and
        stamps(i) the clock reading taken for card i. With fewer than five
        concepts nothing changes. */
    method GenerateCards(shuffled: seq<string>, stamps: nat -> int)
      requires Valid()
      requires multiset(shuffled) == multiset(concepts)
      modifies this
      ensures Valid()
      ensures concepts == old(concepts) && targetCardCount == old(targetCardCount)
      ensures cardTitle == old(cardTitle)
      ensures |concepts| < 5 ==> generatedCards == old(generatedCards) && hasGenerated == old(hasGenerated)
      ensures |concepts| >= 5 ==> hasGenerated && generatedCards == Deck.CyclicDeck(shuffled, targetCardCount, stamps)
      ensures |concepts| >= 5 ==> |generatedCards| == targetCardCount
      ensures |concepts| >= 5 ==> forall i :: 0 <= i < |generatedCards| ==> Distinct(generatedCards[i].concepts)
      ensures |concepts| >= 5 ==> (Distinct(Deck.Flatten(generatedCards)) <==> !ShowsRepeatWarning())
      ensures effectTotal == old(effectTotal) && effectGenerated == old(effectGenerated)
    {
      if |concepts| < 5 {
        return;
      }
      assert |shuffled| == |multiset(shuffled)| == |concepts|;
      DistinctPermutation(concepts, shuffled);
      var newCards := Deck.BuildDeck(shuffled, targetCardCount, stamps);
      Deck.CardsHoldDistinctConcepts(shuffled, targetCardCount, stamps);
      RepeatWarningExact(concepts, shuffled, targetCardCount, stamps);
      generatedCards := newCards;
      hasGenerated := true;
    }

    /** The effect that sets the default target while nothing is generated. */
    method ApplyDefaultTarget()
      requires Valid()
      modifies this
      ensures Valid()
      ensures !old(hasGenerated) && |concepts| > 0 ==> targetCardCount == DefaultTarget(|concepts|)
      ensures old(hasGenerated) || |concepts| == 0 ==> targetCardCount == old(targetCardCount)
      ensures concepts == old(concepts) && generatedCards == old(generatedCards)
      ensures cardTitle == old(cardTitle) && hasGenerated == old(hasGenerated)
      ensures effectTotal == old(effectTotal) && effectGenerated == old(effectGenerated)
    {
      if !hasGenerated && |concepts| > 0 {
        var possible := |concepts| / 5;
        targetCardCount := if possible > 0 then possible else 1;
      }
    }

    /** The render after a handler: the effect runs when totalConcepts or
        hasGenerated differs from its last run, and records both. */
    method Commit()
      requires Valid()
      modifies this
      ensures Valid()
      ensures effectTotal == |concepts| && effectGenerated == hasGenerated
      ensures ((old(effectTotal) != |concepts| || old(effectGenerated) != hasGenerated)
               && !hasGenerated && |concepts| > 0)
        ==> targetCardCount == DefaultTarget(|concepts|)
      ensures ((old(effectTotal) == |concepts| && old(effectGenerated) == hasGenerated)
               || hasGenerated || |concepts| == 0)
        ==> targetCardCount == old(targetCardCount)
      ensures concepts == old(concepts) && generatedCards == old(generatedCards)
      ensures cardTitle == old(cardTitle) && hasGenerated == old(hasGenerated)
    {
      if effectTotal != |concepts| || effectGenerated != hasGenerated {
        ApplyDefaultTarget();
        effectTotal := |concepts|;
        effectGenerated := hasGenerated;
      }
    }

    /** The number input's change handler. */
    method SetCountFromInput(parsed: ParsedInt)
      requires Valid()
      modifies this
      ensures Valid()
      ensures targetCardCount == ClampCount(parsed) && !hasGenerated
      ensures concepts == old(concepts) && generatedCards == old(generatedCards)
      ensures cardTitle == old(cardTitle)
      ensures effectTotal == old(effectTotal) && effectGenerated == old(effectGenerated)
    {
      targetCardCount := ClampCount(parsed);
      hasGenerated := false;
    }

    /** The slider's change handler; the slider only offers 1 to its maximum. */
    method SetCountFromSlider(value: int)
      requires Valid()
      requires 1 <= value <= SliderMax(|concepts|)
      modifies this
      ensures Valid()
      ensures targetCardCount == value && !hasGenerated
      ensures concepts == old(concepts) && generatedCards == old(generatedCards)
      ensures cardTitle == old(cardTitle)
      ensures effectTotal == old(effectTotal) && effectGenerated == old(effectGenerated)
    {
      targetCardCount := value;
      hasGenerated := false;
    }

    /** The title input's change handler: the title is stored as typed. */
    method SetCardTitle(title: string)
      requires Valid()
      modifies this
      ensures Valid()
      ensures cardTitle == title
      ensures concepts == old(concepts) && generatedCards == old(generatedCards)
      ensures targetCardCount == old(targetCardCount) && hasGenerated == old(hasGenerated)
      ensures effectTotal == old(effectTotal) && effectGenerated == old(effectGenerated)
    {
      cardTitle := title;
    }

    /** Whether the page shows the repeat warning. */
    predicate ShowsRepeatWarning()
      reads this
    {
      RepeatWarning(|concepts|, targetCardCount)
    }
  }

  /** Entering concepts and moving the slider before generating: the effect
      first sets the default target, and the slider's value then stays,
      because neither dependency of the effect changes. */
  method SliderBeforeGeneration(input: seq<string>, v: int) returns (defaulted: int, target: int)
    requires 1 <= v <= SliderMax(|UniqueConcepts(input)|)
    ensures |UniqueConcepts(input)| > 0 ==> defaulted == DefaultTarget(|UniqueConcepts(input)|)
    ensures |UniqueConcepts(input)| == 0 ==> defaulted == 8
    ensures target == v
  {
    var page := new AppState();
    page.HandleConceptsUpdate(input);
    page.Commit();
    defaulted := page.targetCardCount;
    page.SetCountFromSlider(v);
    page.Commit();
    target := page.targetCardCount;
  }

  /** Entering at least five concepts, generating, then moving the slider
      twice: the first move clears hasGenerated, so the effect runs and puts
      the default target back; the second move stays. */
  method SliderAfterGeneration(input: seq<string>, shuffled: seq<string>, stamps: nat -> int, v: int, w: int)
    returns (first: int, second: int)
    requires |UniqueConcepts(input)| >= 5
    requires multiset(shuffled) == multiset(UniqueConcepts(input))
    requires 1 <= v <= SliderMax(|UniqueConcepts(input)|)
    requires 1 <= w <= SliderMax(|UniqueConcepts(input)|)
    ensures first == DefaultTarget(|UniqueConcepts(input)|)
    ensures second == w
  {
    var page := new AppState();
    page.HandleConceptsUpdate(input);
    page.Commit();
    page.GenerateCards(shuffled, stamps);
    page.Commit();
    page.SetCountFromSlider(v);
    page.Commit();
    first := page.targetCardCount;
    page.SetCountFromSlider(w);
    page.Commit();
    second := page.targetCardCount;
  }
}
