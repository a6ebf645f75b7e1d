/** The on-screen card preview: the title shown in each tile's strip, its
    size class, and the rows listed on each tile. */
module CardPreview {
  import opened Types
  import opened Strings
  import Deck

  /** The text-size classes of the strip title. */
  datatype SizeClass = Px8 | Px10 | TextXs

  function ClassName(c: SizeClass): string {
    match c
    case Px8 => "text-[8px]"
    case Px10 => "text-[10px]"
    case TextXs => "text-xs"
  }

  /** Font size of each class in pixels ("text-xs" is 12 px). */
  function PixelSize(c: SizeClass): nat {
    match c
    case Px8 => 8
    case Px10 => 10
    case TextXs => 12
  }

  /** getTitleClass: the class chosen from the title's JavaScript length. */
  function TitleClass(title: string): (c: SizeClass)
  {
    var len := Utf16Length(title);
    if len > 18 then Px8 else if len > 12 then Px10 else TextXs
  }

  /** The three length buckets: above 18 code units, 13 to 18, at most 12. */
  lemma TitleClassBuckets(title: string)
    ensures TitleClass(title) == Px8 <==> Utf16Length(title) > 18
    ensures TitleClass(title) == Px10 <==> 12 < Utf16Length(title) <= 18
    ensures TitleClass(title) == TextXs <==> Utf16Length(title) <= 12
    ensures ClassName(TitleClass(title)) in {"text-[8px]", "text-[10px]", "text-xs"}
  {
  }

  /** A longer title never gets a larger font. */
  lemma TitleClassMonotone(a: string, b: string)
    requires Utf16Length(a) <= Utf16Length(b)
    ensures PixelSize(TitleClass(b)) <= PixelSize(TitleClass(a))
  {
  }

  /** Extending a title never makes its font larger. */
  lemma TitleClassExtend(a: string, b: string)
    ensures PixelSize(TitleClass(a + b)) <= PixelSize(TitleClass(a))
  {
    Utf16LengthAppend(a, b);
    TitleClassMonotone(a, a + b);
  }

  /** Without characters outside the Basic Multilingual Plane the length
      counted is the number of characters. */
  lemma {:induction false} Utf16LengthBmp(s: string)
    requires forall k :: 0 <= k < |s| ==> s[k] as int <= 0xFFFF
    ensures Utf16Length(s) == |s|
  {
    if s != [] {
      Utf16LengthBmp(s[..|s| - 1]);
    }
  }

  /** A row of a tile: a concept, or the "-" placeholder. */
  datatype Row = ConceptRow(concept: string) | Placeholder

  /** Array.from({ length: 5 - n }): the length is clamped at 0. */
  function Fillers(n: nat): (k: nat)
    ensures n + k == if n < 5 then 5 else n
  {
    if n < 5 then 5 - n else 0
  }

  /** The rows of a tile: every concept in order, then placeholders up to 5. */
  function Rows(concepts: seq<string>): (rows: seq<Row>)
    ensures |rows| == |concepts| + Fillers(|concepts|)
    ensures forall k :: 0 <= k < |concepts| ==> rows[k] == ConceptRow(concepts[k])
    ensures forall k :: |concepts| <= k < |rows| ==> rows[k] == Placeholder
  {
    seq(|concepts|, k requires 0 <= k < |concepts| => ConceptRow(concepts[k]))
      + seq(Fillers(|concepts|), _ => Placeholder)
  }

  /** The concepts a list of rows shows, in order. */
  function ConceptsOf(rows: seq<Row>): seq<string> {
    if rows == [] then []
    else
      ConceptsOf(rows[..|rows| - 1])
        + match rows[|rows| - 1] case ConceptRow(c) => [c] case Placeholder => []
  }

  lemma {:induction false} ConceptsOfAppend(a: seq<Row>, b: seq<Row>)
    ensures ConceptsOf(a + b) == ConceptsOf(a) + ConceptsOf(b)
  {
    if b != [] {
      assert (a + b)[..|a + b| - 1] == a + b[..|b| - 1];
      ConceptsOfAppend(a, b[..|b| - 1]);
    } else {
      assert a + b == a;
    }
  }

  lemma {:induction false} ConceptsOfConcepts(rows: seq<Row>, concepts: seq<string>)
    requires |rows| == |concepts|
    requires forall k :: 0 <= k < |rows| ==> rows[k] == ConceptRow(concepts[k])
    ensures ConceptsOf(rows) == concepts
  {
    if rows != [] {
      ConceptsOfConcepts(rows[..|rows| - 1], concepts[..|concepts| - 1]);
      assert concepts == concepts[..|concepts| - 1] + [concepts[|concepts| - 1]];
    }
  }

  lemma {:induction false} ConceptsOfPlaceholders(rows: seq<Row>)
    requires forall k :: 0 <= k < |rows| ==> rows[k] == Placeholder
    ensures ConceptsOf(rows) == []
  {
    if rows != [] {
      ConceptsOfPlaceholders(rows[..|rows| - 1]);
    }
  }

  /** A tile shows exactly the card's concepts, in order, in at least 5 rows,
      and every row after them is a placeholder. */
  lemma RowsShowConcepts(concepts: seq<string>)
    ensures ConceptsOf(Rows(concepts)) == concepts
    ensures |Rows(concepts)| >= 5
    ensures |Rows(concepts)| == 5 <==> |concepts| <= 5
  {
    var rows := Rows(concepts);
    var n := |concepts|;
    assert rows == rows[..n] + rows[n..];
    ConceptsOfConcepts(rows[..n], concepts);
    ConceptsOfPlaceholders(rows[n..]);
    ConceptsOfAppend(rows[..n], rows[n..]);
  }

  /** One preview tile, keyed by the card's id. */
  datatype Tile = Tile(key: CardId, title: string, titleClass: SizeClass, rows: seq<Row>)

  /** The preview: the "nothing generated yet" notice, or a grid of tiles. */
  datatype View = NothingGenerated | Grid(tiles: seq<Tile>)

  function TileOf(card: GameCard, displayTitle: string): Tile {
    Tile(card.id, displayTitle, TitleClass(displayTitle), Rows(card.concepts))
  }

  /** CardPreview: the notice for an empty deck, otherwise one tile per card
      in deck order, each with the displayed title and its size class. */
  function Render(cards: seq<GameCard>, cardTitle: string): (v: View)
    ensures v == NothingGenerated <==> cards == []
    ensures v.Grid? ==> |v.tiles| == |cards|
    ensures v.Grid? ==> forall k :: 0 <= k < |cards| ==>
      v.tiles[k] == Tile(cards[k].id, TitleOrDefault(cardTitle), TitleClass(TitleOrDefault(cardTitle)), Rows(cards[k].concepts))
  {
    var displayTitle := TitleOrDefault(cardTitle);
    if |cards| == 0 then NothingGenerated
    else Grid(seq(|cards|, k requires 0 <= k < |cards| => TileOf(cards[k], displayTitle)))
  }

  /** Every tile of a generated deck lists exactly its five concepts and no
      placeholder, under the same non-empty title; the title is "wiskunde"
      exactly when the entered title is all whitespace. */
  lemma GeneratedDeckTiles(shuffled: seq<string>, count: int, stamps: nat -> int, cardTitle: string)
    requires |shuffled| > 0
    ensures var deck := Deck.CyclicDeck(shuffled, count, stamps);
      var v := Render(deck, cardTitle);
      v.Grid? ==> forall k :: 0 <= k < |v.tiles| ==>
        && |v.tiles[k].rows| == 5
        && (forall r :: 0 <= r < 5 ==> v.tiles[k].rows[r] == ConceptRow(deck[k].concepts[r]))
        && v.tiles[k].title != []
        && (v.tiles[k].title == DefaultTitle <== AllWhitespace(cardTitle))
        && (!AllWhitespace(cardTitle) ==> v.tiles[k].title == Trim(cardTitle))
  {
    TitleOrDefaultCases(cardTitle);
  }
}
