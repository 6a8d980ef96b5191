/** The game session: the board, the pending pair, the counters, the clock
    flags, the preview gate and the best-record table, updated in place by
    the game's event handlers. Timers are not modelled as time: every
    callback the game schedules (the match check after a pair is turned,
    each clock tick, the end of the preview, the completion handler) is a
    method the environment calls. */
module Session {
  import opened Wrappers
  import opened Cards
  import opened Records

  /** The record table holds an entry for every difficulty. */
  predicate HasAllDifficulties(records: map<Difficulty, Record>) {
    Easy in records && Medium in records && Hard in records
  }

  /** The record table before anything was stored. */
  function NoRecords(): (m: map<Difficulty, Record>)
    ensures HasAllDifficulties(m)
    ensures forall d | d in m :: m[d] == Empty
  {
    map[Easy := Empty, Medium := Empty, Hard := Empty]
  }

  /** The pending pair: at most two distinct indices, each of a face-up
      unmatched card, and every face-up unmatched card is pending. */
  ghost predicate PendingOk(b: seq<Card>, p: seq<nat>) {
    |p| <= 2 &&
    (forall k | 0 <= k < |p| :: p[k] < |b| && b[p[k]].flipped && !b[p[k]].matched) &&
    (|p| == 2 ==> p[0] != p[1]) &&
    (forall i | 0 <= i < |b| && b[i].flipped && !b[i].matched :: i in p)
  }

  /** Matched cards stay face up. */
  ghost predicate MatchedFaceUp(b: seq<Card>) {
    forall i | 0 <= i < |b| :: b[i].matched ==> b[i].flipped
  }

  /** Turning one face-down unmatched card up while fewer than two are
      pending keeps the pending-pair invariant, with the card added. */
  lemma FlipStep(b: seq<Card>, p: seq<nat>, i: nat)
    requires PendingOk(b, p) && MatchedFaceUp(b)
    requires i < |b| && !b[i].flipped && !b[i].matched && |p| < 2
    ensures var b' := b[i := b[i].(flipped := true)];
      PendingOk(b', p + [i]) && MatchedFaceUp(b') &&
      MatchedCount(b') == MatchedCount(b) && Symbols(b') == Symbols(b)
  {
    var b' := b[i := b[i].(flipped := true)];
    MatchedCountUpdate(b, i, b'[i]);
    SymbolsKept(b, i, b'[i]);
    assert i !in p;
  }

  /** The board after a matching pair i, j is marked matched. */
  function MarkMatched(b: seq<Card>, i: nat, j: nat): (r: seq<Card>)
    requires i < |b| && j < |b|
    ensures |r| == |b| && r[i].matched && r[j].matched
    ensures forall k | 0 <= k < |b| && k != i && k != j :: r[k] == b[k]
    ensures forall k | 0 <= k < |b| :: b[k].matched ==> r[k].matched
  {
    var b1 := b[i := b[i].(matched := true)];
    b1[j := b1[j].(matched := true)]
  }

  /** The board after a mismatched pair i, j is turned face down again. */
  function TurnBack(b: seq<Card>, i: nat, j: nat): (r: seq<Card>)
    requires i < |b| && j < |b|
    ensures |r| == |b| && !r[i].flipped && !r[j].flipped
    ensures forall k | 0 <= k < |b| && k != i && k != j :: r[k] == b[k]
    ensures forall k | 0 <= k < |b| :: r[k].matched == b[k].matched
  {
    var b1 := b[i := b[i].(flipped := false)];
    b1[j := b1[j].(flipped := false)]
  }

  /** Resolving a pending pair as a match leaves no card pending, two more
      cards matched. */
  lemma MatchStep(b: seq<Card>, p: seq<nat>)
    requires PendingOk(b, p) && MatchedFaceUp(b) && |p| == 2
    ensures var b' := MarkMatched(b, p[0], p[1]);
      PendingOk(b', []) && MatchedFaceUp(b') &&
      MatchedCount(b') == MatchedCount(b) + 2 && Symbols(b') == Symbols(b) &&
      b'[p[0]].matched && b'[p[1]].matched
  {
    var b1 := b[p[0] := b[p[0]].(matched := true)];
    var b' := MarkMatched(b, p[0], p[1]);
    MatchedCountUpdate(b, p[0], b1[p[0]]);
    SymbolsKept(b, p[0], b1[p[0]]);
    MatchedCountUpdate(b1, p[1], b'[p[1]]);
    SymbolsKept(b1, p[1], b'[p[1]]);
  }

  /** Resolving a pending pair as a mismatch leaves no card pending, the
      pair face down and unmatched. */
  lemma MismatchStep(b: seq<Card>, p: seq<nat>)
    requires PendingOk(b, p) && MatchedFaceUp(b) && |p| == 2
    ensures var b' := TurnBack(b, p[0], p[1]);
      PendingOk(b', []) && MatchedFaceUp(b') &&
      MatchedCount(b') == MatchedCount(b) && Symbols(b') == Symbols(b) &&
      !b'[p[0]].flipped && !b'[p[0]].matched && !b'[p[1]].flipped && !b'[p[1]].matched
  {
    var b1 := b[p[0] := b[p[0]].(flipped := false)];
    var b' := TurnBack(b, p[0], p[1]);
    MatchedCountUpdate(b, p[0], b1[p[0]]);
    SymbolsKept(b, p[0], b1[p[0]]);
    MatchedCountUpdate(b1, p[1], b'[p[1]]);
    SymbolsKept(b1, p[1], b'[p[1]]);
  }

  /** A freshly dealt and shuffled board has the difficulty's 2 * pairs
      cards, each dealt symbol twice, all face down, none matched, and
      nothing pending. */
  lemma NewBoard(d: Difficulty, js: seq<nat>)
    requires SwapsFit(js, 2 * SettingsFor(d).pairs)
    ensures var b := Shuffled(Deck(DealtSymbols(d)), js);
      |b| == 2 * SettingsFor(d).pairs &&
      multiset(Symbols(b)) == multiset(Symbols(Deck(DealtSymbols(d)))) &&
      (forall k | 0 <= k < |b| :: !b[k].flipped && !b[k].matched) &&
      PendingOk(b, []) && MatchedFaceUp(b) && MatchedCount(b) == 0
  {
    var deck := Deck(DealtSymbols(d));
    var b := Shuffled(deck, js);
    DealtDeck(d, "");
    ShuffledPermutes(deck, js);
    ShuffledSymbols(deck, js);
    forall k | 0 <= k < |b| ensures !b[k].flipped && !b[k].matched {
      assert b[k] in multiset(b);
      assert b[k] in deck;
    }
    MatchedCountNone(b);
  }

  class Game {
    var board: seq<Card>            // gameBoard
    var pending: seq<nat>           // flippedCards
    var matchedPairs: nat
    var moves: nat
    var gameTime: nat               // elapsed whole seconds
    var timerRunning: bool          // gameTimer != null
    var started: bool               // gameStarted
    var difficulty: Difficulty      // currentDifficulty
    var records: map<Difficulty, Record>  // bestRecords
    var preview: bool               // isPreviewMode

    /** The session invariant. */
    ghost predicate Valid()
      reads this
    {
      |board| == 2 * SettingsFor(difficulty).pairs &&
      PendingOk(board, pending) &&
      MatchedFaceUp(board) &&
      2 * matchedPairs == MatchedCount(board) &&
      matchedPairs + (if |pending| == 2 then 1 else 0) <= moves &&
      (preview ==> pending == []) &&
      (timerRunning ==> started) &&
      (pending != [] || matchedPairs > 0 ==> started) &&
      (!started ==> gameTime == 0) &&
      HasAllDifficulties(records)
    }

    /** Whether a click on card `index` turns it over (the guards of flipCard). */
    ghost predicate Accepts(index: nat)
      reads this
      requires index < |board|
    {
      !preview && !board[index].flipped && !board[index].matched && |pending| < 2
    }

    /** Page load: the stored records (or none) and the first game, of
        difficulty Easy, shuffled by `js`. */
    constructor (stored: Option<map<Difficulty, Record>>, js: seq<nat>)
      requires stored.Some? ==> HasAllDifficulties(stored.value)
      requires SwapsFit(js, 2 * SettingsFor(Easy).pairs)
      ensures difficulty == Easy
      ensures Valid()
      ensures records == if stored.Some? then stored.value else NoRecords()
      ensures board == Shuffled(Deck(DealtSymbols(Easy)), js)
      ensures pending == [] && matchedPairs == 0 && moves == 0 && gameTime == 0
      ensures !started && !timerRunning && preview
    {
      board := [];
      pending := [];
      matchedPairs, moves, gameTime := 0, 0, 0;
      timerRunning, started := false, false;
      difficulty := Easy;
      records := if stored.Some? then stored.value else NoRecords();
      preview := false;
      new;
      StartNewGame(js);
    }

    /** resetGame: empty board, no pending pair, zeroed counters, clock stopped. */
    method ResetGame()
      modifies this
      ensures board == [] && pending == []
      ensures matchedPairs == 0 && moves == 0 && gameTime == 0
      ensures !started && !timerRunning
      ensures difficulty == old(difficulty) && records == old(records) && preview == old(preview)
    {
      board := [];
      pending := [];
      matchedPairs := 0;
      moves := 0;
      gameTime := 0;
      started := false;
      timerRunning := false;
    }

    /** createGameBoard: each dealt symbol pushed twice, face down. */
    method CreateGameBoard()
      modifies this`board
      ensures board == Deck(DealtSymbols(difficulty))
    {
      var symbols := Palette(difficulty)[..SettingsFor(difficulty).pairs];
      board := [];
      for k := 0 to |symbols|
        invariant board == Deck(symbols[..k])
      {
        DeckAppend(symbols[..k], symbols[k]);
        assert symbols[..k + 1] == symbols[..k] + [symbols[k]];
        board := board + [FaceDown(symbols[k])];
        board := board + [FaceDown(symbols[k])];
      }
      assert symbols[..|symbols|] == symbols;
    }

    /** shuffleCards: Fisher-Yates from the last slot down, swapping slot i
        with slot js[i]. */
    method ShuffleCards(js: seq<nat>)
      requires SwapsFit(js, |board|)
      modifies this`board
      ensures board == Shuffled(old(board), js)
    {
      var i := |board| - 1;
      while i > 0
        invariant |board| == |old(board)|
        invariant -1 <= i < |board|
        invariant |board| > 0 ==> 0 <= i && ShuffleFrom(board, js, i) == Shuffled(old(board), js)
        invariant |board| == 0 ==> board == old(board)
      {
        var j := js[i];
        board := board[i := board[j]][j := board[i]];
        i := i - 1;
      }
    }

    /** startNewGame: reset, deal, shuffle, and enter the preview, during
        which clicks are ignored. */
    method StartNewGame(js: seq<nat>)
      requires HasAllDifficulties(records)
      requires SwapsFit(js, 2 * SettingsFor(difficulty).pairs)
      modifies this
      ensures difficulty == old(difficulty) && records == old(records)
      ensures Valid()
      ensures board == Shuffled(Deck(DealtSymbols(difficulty)), js)
      ensures pending == [] && matchedPairs == 0 && moves == 0 && gameTime == 0
      ensures !started && !timerRunning && preview
    {
      ResetGame();
      CreateGameBoard();
      ShuffleCards(js);
      preview := true;
      NewBoard(difficulty, js);
    }

    /** A difficulty button: switch difficulty and start a new game. */
    method ChooseDifficulty(d: Difficulty, js: seq<nat>)
      requires Valid()
      requires SwapsFit(js, 2 * SettingsFor(d).pairs)
      modifies this
      ensures difficulty == d && records == old(records)
      ensures Valid()
      ensures board == Shuffled(Deck(DealtSymbols(d)), js)
      ensures pending == [] && matchedPairs == 0 && moves == 0 && gameTime == 0
      ensures !started && !timerRunning && preview
    {
      difficulty := d;
      StartNewGame(js);
    }

    /** The end of the preview timeout: clicks are accepted again. */
    method EndPreview()
      requires Valid()
      modifies this`preview
      ensures Valid() && !preview
    {
      preview := false;
    }

    /** flipCard(index). The clock is started by any click outside the
        preview, before the guard that rejects a face-up or matched card or
        a third card. An accepted click turns exactly that card face up and
        adds it to the pending pair; completing the pair counts one move and
        schedules the match check. */
    method FlipCard(index: nat) returns (checkScheduled: bool)
      requires Valid()
      requires index < |board|
      modifies this
      ensures Valid()
      ensures old(preview) ==> unchanged(this) && !checkScheduled
      ensures !old(preview) ==> started && timerRunning == (old(timerRunning) || !old(started))
      ensures !old(Accepts(index)) ==>
        board == old(board) && pending == old(pending) && moves == old(moves) && !checkScheduled
      ensures old(Accepts(index)) ==>
        board == old(board)[index := old(board[index]).(flipped := true)] &&
        pending == old(pending) + [index] &&
        moves == old(moves) + (if |pending| == 2 then 1 else 0) &&
        checkScheduled == (|pending| == 2)
      ensures Symbols(board) == Symbols(old(board))
      ensures matchedPairs == old(matchedPairs) && gameTime == old(gameTime)
      ensures difficulty == old(difficulty) && records == old(records) && preview == old(preview)
    {
      checkScheduled := false;
      if preview {
        return;
      }
      if !started {
        timerRunning := true;
        started := true;
      }
      if board[index].flipped || board[index].matched || |pending| >= 2 {
        return;
      }
      FlipStep(board, pending, index);
      board := board[index := board[index].(flipped := true)];
      pending := pending + [index];
      if |pending| == 2 {
        moves := moves + 1;
        checkScheduled := true;
      }
    }

    /** checkMatch, run when the pending pair is complete. Equal symbols:
        both cards become matched and one more pair is counted; the
        completion handler is scheduled exactly when all cards are matched.
        Different symbols: both are turned face down again. Either way the
        pending pair is emptied and no other card changes. */
    method CheckMatch() returns (completeScheduled: bool)
      requires Valid()
      requires |pending| == 2
      modifies this
      ensures Valid()
      ensures pending == []
      ensures var a, b := old(pending[0]), old(pending[1]);
        if old(board[a].symbol == board[b].symbol) then
          board == MarkMatched(old(board), a, b) &&
          matchedPairs == old(matchedPairs) + 1 &&
          completeScheduled == (matchedPairs == SettingsFor(difficulty).pairs)
        else
          board == TurnBack(old(board), a, b) &&
          matchedPairs == old(matchedPairs) && !completeScheduled
      ensures completeScheduled <==> forall k | 0 <= k < |board| :: board[k].matched
      ensures forall k | 0 <= k < |board| :: old(board)[k].matched ==> board[k].matched
      ensures Symbols(board) == Symbols(old(board))
      ensures moves == old(moves) && gameTime == old(gameTime)
      ensures timerRunning == old(timerRunning) && started == old(started)
      ensures difficulty == old(difficulty) && records == old(records) && preview == old(preview)
    {
      var a, b := pending[0], pending[1];
      var resolved, pairs;
      if board[a].symbol == board[b].symbol {
        MatchStep(board, pending);
        resolved, pairs := MarkMatched(board, a, b), matchedPairs + 1;
        completeScheduled := pairs == SettingsFor(difficulty).pairs;
      } else {
        MismatchStep(board, pending);
        resolved, pairs := TurnBack(board, a, b), matchedPairs;
        completeScheduled := false;
      }
      MatchedCountFull(resolved);
      board, matchedPairs, pending := resolved, pairs, [];
    }

    /** One second of the clock's interval: counts only while it runs. */
    method Tick()
      requires Valid()
      modifies this`gameTime
      ensures Valid()
      ensures gameTime == old(gameTime) + (if timerRunning then 1 else 0)
    {
      if timerRunning {
        gameTime := gameTime + 1;
      }
    }

    /** gameComplete: stop the clock, then update the current difficulty's
        record field by field. */
    method GameComplete() returns (isNewRecord: bool)
      requires Valid()
      modifies this`timerRunning, this`records
      ensures Valid()
      ensures !timerRunning
      ensures var o := Update(old(records[difficulty]), moves, gameTime);
        records == old(records)[difficulty := o.record] && isNewRecord == o.isNewRecord
    {
      timerRunning := false;
      var record := records[difficulty];
      isNewRecord := false;
      if Falsy(record.moves) || moves < record.moves.value {
        record := record.(moves := Some(moves));
        isNewRecord := true;
      }
      if Falsy(record.time) || gameTime < record.time.value {
        record := record.(time := Some(gameTime));
        isNewRecord := true;
      }
      records := records[difficulty := record];
    }
  }

  /** Once every pair is matched the completion handler stops the clock,
      and it stays stopped: a further click (which the invariant knows
      comes after the game started) does not restart it, and a tick adds
      nothing. */
  method ClockStaysStopped(g: Game, index: nat) returns (isNewRecord: bool)
    requires g.Valid() && g.matchedPairs == SettingsFor(g.difficulty).pairs
    requires index < |g.board|
    modifies g
    ensures !g.timerRunning && g.gameTime == old(g.gameTime)
  {
    isNewRecord := g.GameComplete();
    var scheduled := g.FlipCard(index);
    g.Tick();
  }

  /** An Easy deal in palette order: slots 0 and 1 hold the first symbol,
      slots 2 and 4 two different ones. */
  lemma EasyDealInOrder(js: seq<nat>)
    requires |js| == 12 && forall k | 0 <= k < 12 :: js[k] == k
    ensures SwapsFit(js, 2 * SettingsFor(Easy).pairs)
    ensures var b := Shuffled(Deck(DealtSymbols(Easy)), js);
      |b| == 12 && b[0].symbol == b[1].symbol && b[2].symbol != b[4].symbol &&
      forall k | 0 <= k < |b| :: !b[k].flipped && !b[k].matched
  {
    var syms := DealtSymbols(Easy);
    var deck := Deck(syms);
    DeckAt(syms, 0);
    DeckAt(syms, 1);
    DeckAt(syms, 2);
    DeckAt(syms, 4);
    ShuffleFromIdentity(deck, js, 11);
    assert Shuffled(deck, js) == deck;
    DealtDistinct(Easy);
    assert syms[1] != syms[2];
    DeckFaceDown(syms);
    forall k | 0 <= k < |deck| ensures !deck[k].flipped && !deck[k].matched {
      assert deck[k] in deck;
    }
  }

  /** One turn: clicks on two face-down unmatched cards outside the
      preview, then the match check the second click schedules. The move
      counts either way. A pair stays face up and matched; a mismatch
      leaves the board exactly as it was. */
  method Turn(g: Game, i: nat, j: nat) returns (completeScheduled: bool)
    requires g.Valid() && !g.preview && g.pending == []
    requires i < |g.board| && j < |g.board| && i != j
    requires !g.board[i].flipped && !g.board[i].matched
    requires !g.board[j].flipped && !g.board[j].matched
    modifies g
    ensures g.Valid() && g.pending == [] && g.started
    ensures g.moves == old(g.moves) + 1
    ensures if old(g.board[i].symbol == g.board[j].symbol) then
        g.board == old(g.board)[i := old(g.board[i]).(flipped := true, matched := true)]
                               [j := old(g.board[j]).(flipped := true, matched := true)] &&
        g.matchedPairs == old(g.matchedPairs) + 1
      else
        g.board == old(g.board) && g.matchedPairs == old(g.matchedPairs)
    ensures g.difficulty == old(g.difficulty) && g.records == old(g.records) && !g.preview
  {
    var scheduled := g.FlipCard(i);
    scheduled := g.FlipCard(j);
    completeScheduled := g.CheckMatch();
  }

  /** The opening of an Easy game dealt in palette order (every swap index
      equal to its position): slots 0 and 1 are a pair and slots 2 and 4
      are not, so turning 0, 1 and then 2, 4 is two moves that match one
      pair, leaving 0 and 1 face up and 2 and 4 face down. */
  method EasyOpening(js: seq<nat>) returns (pairs: nat, movesMade: nat, faceUp: bool, turnedBack: bool)
    requires |js| == 12 && forall k | 0 <= k < 12 :: js[k] == k
    ensures pairs == 1 && movesMade == 2 && faceUp && turnedBack
  {
    EasyDealInOrder(js);
    var g := new Game(None, js);
    g.EndPreview();
    var complete := Turn(g, 0, 1);
    complete := Turn(g, 2, 4);
    pairs, movesMade := g.matchedPairs, g.moves;
    faceUp := g.board[0].flipped && g.board[1].flipped;
    turnedBack := !g.board[2].flipped && !g.board[4].flipped;
  }
}
