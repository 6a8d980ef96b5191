/** The deck builder: the difficulty tables, the cards, the ordered deck of
    face-down pairs and the Fisher-Yates shuffle as a function of the swap
    indices the random source picks. */
module Cards {

  /** The three difficulties the game offers. */
  datatype Difficulty = Easy | Medium | Hard

  /** Grid shape and number of symbol pairs of one difficulty. */
  datatype Settings = Settings(rows: nat, cols: nat, pairs: nat)

  /** One board slot. Cards are never shared between slots, so a card is a
      value and "updating a card" is replacing the slot's value. */
  datatype Card = Card(symbol: string, flipped: bool, matched: bool)

  /** The difficulty table: every grid holds exactly the deck's cards. */
  function SettingsFor(d: Difficulty): (s: Settings)
    ensures s.rows * s.cols == 2 * s.pairs
    ensures 0 < s.pairs
  {
    match d
    case Easy => Settings(3, 4, 6)
    case Medium => Settings(4, 4, 8)
    case Hard => Settings(4, 6, 12)
  }

  predicate Distinct<T(==)>(s: seq<T>) {
    forall i, j | 0 <= i < j < |s| :: s[i] != s[j]
  }

  /** The symbol palette of a difficulty: long enough for its pairs, and no
      symbol listed twice (so two cards match only when they are a pair). */
  function Palette(d: Difficulty): (p: seq<string>)
    ensures SettingsFor(d).pairs <= |p|
    ensures Distinct(p)
  {
    match d
    case Easy => ["🍎", "🍌", "🍊", "🍇", "🍓", "🥝"]
    case Medium => ["🍎", "🍌", "🍊", "🍇", "🍓", "🥝", "🍑", "🥭"]
    case Hard => ["🍎", "🍌", "🍊", "🍇", "🍓", "🥝", "🍑", "🥭", "🍍", "🥥", "🍒", "🍈"]
  }

  /** The symbols a game of difficulty `d` is dealt: the first `pairs` of the palette. */
  function DealtSymbols(d: Difficulty): (syms: seq<string>)
    ensures |syms| == SettingsFor(d).pairs
  {
    Palette(d)[..SettingsFor(d).pairs]
  }

  /** No symbol is dealt twice. */
  lemma DealtDistinct(d: Difficulty)
    ensures Distinct(DealtSymbols(d))
  {
    var p, n := Palette(d), SettingsFor(d).pairs;
    forall i, j | 0 <= i < j < n ensures p[..n][i] != p[..n][j] {
      assert p[..n][i] == p[i] && p[..n][j] == p[j];
    }
  }

  function FaceDown(symbol: string): Card {
    Card(symbol, false, false)
  }

  /** The unshuffled deck: every symbol, in order, pushed twice face down. */
  function Deck(symbols: seq<string>): (deck: seq<Card>)
    ensures |deck| == 2 * |symbols|
  {
    if symbols == [] then []
    else [FaceDown(symbols[0]), FaceDown(symbols[0])] + Deck(symbols[1..])
  }

  /** The symbols of a row of cards, slot by slot. */
  function Symbols(b: seq<Card>): (syms: seq<string>)
    ensures |syms| == |b|
  {
    seq(|b|, k requires 0 <= k < |b| => b[k].symbol)
  }

  lemma {:induction false} DeckAt(symbols: seq<string>, k: nat)
    requires k < 2 * |symbols|
    ensures |Deck(symbols)| == 2 * |symbols|
    ensures Deck(symbols)[k] == FaceDown(symbols[k / 2])
  {
    if k >= 2 {
      DeckAt(symbols[1..], k - 2);
    } else if |symbols| > 1 {
      DeckAt(symbols[1..], 0);
    }
  }

  /** Pushing one more symbol's pair extends the deck at its end. */
  lemma {:induction false} DeckAppend(symbols: seq<string>, s: string)
    ensures Deck(symbols + [s]) == Deck(symbols) + [FaceDown(s), FaceDown(s)]
  {
    if symbols == [] {
      assert symbols + [s] == [s];
      assert [s][1..] == [];
    } else {
      assert (symbols + [s])[1..] == symbols[1..] + [s];
      DeckAppend(symbols[1..], s);
    }
  }

  /** Every card of a fresh deck is face down and unmatched. */
  lemma {:induction false} DeckFaceDown(symbols: seq<string>)
    ensures forall c | c in Deck(symbols) :: !c.flipped && !c.matched
  {
    if symbols != [] {
      DeckFaceDown(symbols[1..]);
    }
  }

  /** Turning or matching a card keeps its symbol, so the board's symbols stay. */
  lemma SymbolsKept(b: seq<Card>, i: nat, c: Card)
    requires i < |b| && c.symbol == b[i].symbol
    ensures Symbols(b[i := c]) == Symbols(b)
  {
  }

  lemma SymbolsConcat(a: seq<Card>, b: seq<Card>)
    ensures Symbols(a + b) == Symbols(a) + Symbols(b)
  {
  }

  /** The deck holds each symbol of its list twice and nothing else. */
  lemma {:induction false} DeckSymbols(symbols: seq<string>)
    ensures multiset(Symbols(Deck(symbols))) == multiset(symbols) + multiset(symbols)
  {
    if symbols != [] {
      var s := symbols[0];
      SymbolsConcat([FaceDown(s), FaceDown(s)], Deck(symbols[1..]));
      DeckSymbols(symbols[1..]);
      assert symbols == [s] + symbols[1..];
      assert Symbols([FaceDown(s), FaceDown(s)]) == [s, s];
    }
  }

  /** In a list without repetitions every element occurs once. */
  lemma {:induction false} DistinctOnce<T>(s: seq<T>, x: T)
    requires Distinct(s)
    ensures multiset(s)[x] == if x in s then 1 else 0
  {
    if s != [] {
      assert s == [s[0]] + s[1..];
      assert Distinct(s[1..]);
      DistinctOnce(s[1..], x);
      assert s[0] !in s[1..];
    }
  }

  /** The dealt deck of a difficulty has 2 * pairs cards, all face down and
      unmatched, and each of the first `pairs` palette symbols occurs on
      exactly two of them; no other symbol occurs. */
  lemma DealtDeck(d: Difficulty, x: string)
    ensures |Deck(DealtSymbols(d))| == 2 * SettingsFor(d).pairs
    ensures forall c | c in Deck(DealtSymbols(d)) :: !c.flipped && !c.matched
    ensures multiset(Symbols(Deck(DealtSymbols(d))))[x] == if x in Palette(d)[..SettingsFor(d).pairs] then 2 else 0
  {
    DeckFaceDown(DealtSymbols(d));
    DeckSymbols(DealtSymbols(d));
    DealtDistinct(d);
    DistinctOnce(DealtSymbols(d), x);
  }

  // ---- Fisher-Yates shuffle ----

  function Swap<T>(s: seq<T>, i: nat, j: nat): (r: seq<T>)
    requires i < |s| && j < |s|
    ensures |r| == |s|
  {
    s[i := s[j]][j := s[i]]
  }

  lemma SwapPermutes<T>(s: seq<T>, i: nat, j: nat)
    requires i < |s| && j < |s|
    ensures multiset(Swap(s, i, j)) == multiset(s)
  {
  }

  /** `js` holds the index the random source picks for each position:
      `js[i]` lies in [0, i] (`js[0]` is never used). */
  predicate SwapsFit(js: seq<nat>, n: nat) {
    |js| == n && forall i | 0 <= i < n :: js[i] <= i
  }

  /** The shuffle after the positions i, i-1, ..., 1 have been swapped. */
  function ShuffleFrom<T>(s: seq<T>, js: seq<nat>, i: nat): (r: seq<T>)
    requires i < |s| && SwapsFit(js, |s|)
    ensures |r| == |s|
    decreases i
  {
    if i == 0 then s else ShuffleFrom(Swap(s, i, js[i]), js, i - 1)
  }

  /** The Fisher-Yates shuffle of `s` driven by the swap indices `js`. */
  function Shuffled<T>(s: seq<T>, js: seq<nat>): (r: seq<T>)
    requires SwapsFit(js, |s|)
    ensures |r| == |s|
  {
    if |s| == 0 then s else ShuffleFrom(s, js, |s| - 1)
  }

  lemma {:induction false} ShuffleFromPermutes<T>(s: seq<T>, js: seq<nat>, i: nat)
    requires i < |s| && SwapsFit(js, |s|)
    ensures multiset(ShuffleFrom(s, js, i)) == multiset(s)
    decreases i
  {
    if i > 0 {
      SwapPermutes(s, i, js[i]);
      ShuffleFromPermutes(Swap(s, i, js[i]), js, i - 1);
    }
  }

  /** Whatever indices the random source picks, the shuffle is a permutation. */
  lemma ShuffledPermutes<T>(s: seq<T>, js: seq<nat>)
    requires SwapsFit(js, |s|)
    ensures multiset(Shuffled(s, js)) == multiset(s)
  {
    if |s| > 0 {
      ShuffleFromPermutes(s, js, |s| - 1);
    }
  }

  lemma SymbolsSwap(b: seq<Card>, i: nat, j: nat)
    requires i < |b| && j < |b|
    ensures Symbols(Swap(b, i, j)) == Swap(Symbols(b), i, j)
  {
  }

  /** Shuffling the cards shuffles their symbols the same way. */
  lemma {:induction false} ShuffleFromSymbols(b: seq<Card>, js: seq<nat>, i: nat)
    requires i < |b| && SwapsFit(js, |b|)
    ensures Symbols(ShuffleFrom(b, js, i)) == ShuffleFrom(Symbols(b), js, i)
    decreases i
  {
    if i > 0 {
      SymbolsSwap(b, i, js[i]);
      ShuffleFromSymbols(Swap(b, i, js[i]), js, i - 1);
    }
  }

  /** A shuffled deck holds the same symbols, each as often as before. */
  lemma ShuffledSymbols(b: seq<Card>, js: seq<nat>)
    requires SwapsFit(js, |b|)
    ensures multiset(Symbols(Shuffled(b, js))) == multiset(Symbols(b))
  {
    if |b| > 0 {
      ShuffleFromSymbols(b, js, |b| - 1);
      ShuffleFromPermutes(Symbols(b), js, |b| - 1);
    }
  }

  /** Picking `j == i` everywhere leaves the deck in its original order. */
  lemma {:induction false} ShuffleFromIdentity<T>(s: seq<T>, js: seq<nat>, i: nat)
    requires i < |s| && SwapsFit(js, |s|)
    requires forall k | 0 <= k < |s| :: js[k] == k
    ensures ShuffleFrom(s, js, i) == s
    decreases i
  {
    if i > 0 {
      assert Swap(s, i, js[i]) == s;
      ShuffleFromIdentity(s, js, i - 1);
    }
  }

  // ---- matched cards ----

  /** Number of matched cards on a board. */
  function MatchedCount(b: seq<Card>): nat {
    if b == [] then 0 else (if b[0].matched then 1 else 0) + MatchedCount(b[1..])
  }

  /** Replacing one card changes the matched count by that card's change. */
  lemma {:induction false} MatchedCountUpdate(b: seq<Card>, i: nat, c: Card)
    requires i < |b|
    ensures MatchedCount(b[i := c]) + (if b[i].matched then 1 else 0)
         == MatchedCount(b) + (if c.matched then 1 else 0)
  {
    if i == 0 {
      assert b[i := c][1..] == b[1..];
    } else {
      assert b[i := c][1..] == b[1..][i - 1 := c];
      MatchedCountUpdate(b[1..], i - 1, c);
    }
  }

  /** At most every card is matched, and all are exactly when the count is full. */
  lemma {:induction false} MatchedCountFull(b: seq<Card>)
    ensures MatchedCount(b) <= |b|
    ensures MatchedCount(b) == |b| <==> forall k | 0 <= k < |b| :: b[k].matched
  {
    if b != [] {
      MatchedCountFull(b[1..]);
      assert forall k | 0 <= k < |b| - 1 :: b[1..][k] == b[k + 1];
    }
  }

  /** A board with no matched card has matched count zero. */
  lemma {:induction false} MatchedCountNone(b: seq<Card>)
    requires forall k | 0 <= k < |b| :: !b[k].matched
    ensures MatchedCount(b) == 0
  {
    if b != [] {
      assert forall k | 0 <= k < |b| - 1 :: b[1..][k] == b[k + 1];
      MatchedCountNone(b[1..]);
    }
  }
}
