/** The best record of one difficulty and the update made when a game is
    completed. Stored values are compared with JavaScript truthiness: a
    missing value (`null`) and a stored `0` are both treated as "no record". */
module Records {
  import opened Wrappers

  datatype Record = Record(moves: Option<nat>, time: Option<nat>)

  /** The record of a difficulty that has never been completed. */
  const Empty := Record(None, None)

  /** `!value` in the game: null and 0 are falsy. */
  predicate Falsy(v: Option<nat>) {
    v == None || v == Some(0)
  }

  /** The test `!stored || value < stored` of one record field. */
  predicate Improves(stored: Option<nat>, value: nat) {
    Falsy(stored) || value < stored.value
  }

  function Min(a: nat, b: nat): nat {
    if a <= b then a else b
  }

  /** One record field after a completed game with result `value`: a
      truthy stored value becomes the smaller of the two, a falsy one is
      replaced by `value`. */
  function Best(stored: Option<nat>, value: nat): (r: Option<nat>)
    ensures Falsy(stored) ==> r == Some(value)
    ensures !Falsy(stored) ==> r == Some(Min(stored.value, value))
    ensures r != stored <==> Improves(stored, value) && stored != Some(value)
  {
    if Improves(stored, value) then Some(value) else stored
  }

  datatype Outcome = Outcome(record: Record, isNewRecord: bool)

  /** The record update of a completed game with `moves` moves and `time`
      seconds. Moves and time are compared independently: a falsy stored
      field takes this game's result, a truthy one keeps the smaller of the
      two. A new record is reported exactly when a field changed, or when a
      stored 0 is rewritten with the same 0. */
  function Update(r: Record, moves: nat, time: nat): (o: Outcome)
    ensures o.record.moves == if Falsy(r.moves) then Some(moves) else Some(Min(r.moves.value, moves))
    ensures o.record.time == if Falsy(r.time) then Some(time) else Some(Min(r.time.value, time))
    ensures o.isNewRecord <==>
      o.record != r || (r.moves == Some(0) && moves == 0) || (r.time == Some(0) && time == 0)
  {
    Outcome(Record(Best(r.moves, moves), Best(r.time, time)),
            Improves(r.moves, moves) || Improves(r.time, time))
  }

  /** After any completed game both fields are stored, neither exceeds this
      game's result, and a truthy stored value never increases. */
  lemma UpdateBounds(r: Record, moves: nat, time: nat)
    ensures var o := Update(r, moves, time);
      o.record.moves.Some? && o.record.moves.value <= moves &&
      o.record.time.Some? && o.record.time.value <= time &&
      (!Falsy(r.moves) ==> o.record.moves.value <= r.moves.value) &&
      (!Falsy(r.time) ==> o.record.time.value <= r.time.value)
  {
  }

  /** Replaying a game with positive results right after it was recorded is
      not a new record, and leaves the record as it is. */
  lemma UpdateIdempotent(r: Record, moves: nat, time: nat)
    requires 0 < moves && 0 < time
    ensures var o := Update(r, moves, time);
      Update(o.record, moves, time) == Outcome(o.record, false)
  {
  }

  /** Because of the falsiness test, a stored best time of 0 seconds counts
      as no record and is overwritten by any later time, even a slower one. */
  lemma ZeroTimeIsOverwritten(m: Option<nat>, moves: nat, time: nat)
    ensures Update(Record(m, Some(0)), moves, time).record.time == Some(time)
    ensures Update(Record(m, Some(0)), moves, time).isNewRecord
  {
  }

  /** Stored 20 moves / 90 s, game 18 moves / 95 s: only the moves improve. */
  lemma ExampleMovesOnly()
    ensures Update(Record(Some(20), Some(90)), 18, 95) == Outcome(Record(Some(18), Some(90)), true)
  {
  }

  /** Stored 20 moves / 90 s, game 25 moves / 80 s: only the time improves. */
  lemma ExampleTimeOnly()
    ensures Update(Record(Some(20), Some(90)), 25, 80) == Outcome(Record(Some(20), Some(80)), true)
  {
  }

  /** With nothing stored, the first completed game fills both fields. */
  lemma ExampleFirstGame(moves: nat, time: nat)
    ensures Update(Empty, moves, time) == Outcome(Record(Some(moves), Some(time)), true)
  {
  }
}
