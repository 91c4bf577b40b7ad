/**
 * The best times of a level (MapInfo's high-score table and ProfileIDScorePair). The table
 * is the Java array of NUM_HIGHSCORES slots, a `null` slot being None; a lower score (a
 * shorter time in milliseconds) is better.
 */
module Scores {
  import opened Base
  import opened JavaText

  /** MapInfo.NUM_HIGHSCORES. */
  const NumHighScores: nat := 3

  /** A ProfileIDScorePair: the profile that finished and its time in milliseconds. */
  datatype Pair = Pair(profileId: int, score: int)

  /** The pair the no-argument constructor makes. */
  const DefaultPair: Pair := Pair(-1, 9999999999999)

  /** The table's slots; None is an empty slot. */
  type Table = seq<Option<Pair>>

  /** A new MapInfo's table: NUM_HIGHSCORES empty slots. */
  const EmptyTable: Table := [None, None, None]

  /** ProfileIDScorePair.toString: "%d,%d" of the id and the score. */
  function PairToString(p: Pair): (r: string)
    ensures ',' in r
  {
    assert (IntToString(p.profileId) + [','] + IntToString(p.score))[|IntToString(p.profileId)|] == ',';
    Join([IntToString(p.profileId), IntToString(p.score)], ',')
  }

  /**
   * What loadMapInfo does with one line of the info file: split it at commas and, when there
   * are exactly two fields, parse an int profile id and a long score (None when a field does
   * not parse, which aborts the load, or when the line has another number of fields, which is
   * skipped).
   */
  function ParsePair(line: string): Option<Pair>
  {
    var args := JavaSplit(line, ',');
    if |args| != 2 then None
    else match (ParseInt(args[0]), ParseLong(args[1]))
      case (Some(id), Some(score)) => Some(Pair(id, score))
      case _ => None
  }

  /** A pair written by toString is read back by loadMapInfo unchanged. */
  lemma PairRoundTrip(p: Pair)
    requires IsInt32(p.profileId) && Int64Min <= p.score <= Int64Max
    ensures ParsePair(PairToString(p)) == Some(p)
  {
    var fields := [IntToString(p.profileId), IntToString(p.score)];
    assert ',' !in fields[0] && ',' !in fields[1];
    JavaSplitJoin(fields, ',');
    ParseIntRoundTrip(p.profileId);
    ParseLongRoundTrip(p.score);
  }

  /** The score takes the slot's place: the slot is empty or holds a strictly larger score. */
  predicate Beats(score: int, slot: Option<Pair>)
  {
    slot.None? || score < slot.value.score
  }

  /**
   * The slot tryAddScore inserts at: the first one holding nothing or a larger score, or the
   * table's length when there is none.
   */
  function FirstSlot(table: Table, score: int): (k: nat)
    ensures k <= |table|
    ensures forall j | 0 <= j < k :: !Beats(score, table[j])
    ensures k < |table| ==> Beats(score, table[k])
  {
    if |table| == 0 then 0
    else if Beats(score, table[0]) then 0
    else 1 + FirstSlot(table[1..], score)
  }

  /**
   * The table with `p` put at `position`: the entries before it stay, those from it on move
   * down one slot and the last falls off; a position past the end changes nothing.
   */
  function Inserted(table: Table, position: nat, p: Pair): (r: Table)
  {
    if position < |table| then table[..position] + [Some(p)] + table[position..|table| - 1] else table
  }

  /**
   * MapInfo.insertHighScore: from `position` on, each slot takes the entry the slot above
   * held (the last entry is dropped), then `position` gets the new pair. A position past the
   * end leaves the table alone. (A negative position would index the array out of range; the
   * only caller never passes one.)
   */
  method InsertHighScore(table: Table, position: nat, p: Pair) returns (r: Table)
    ensures |r| == |table|
    ensures position >= |table| ==> r == table
    ensures position < |table| ==>
              r[position] == Some(p) &&
              (forall k | 0 <= k < position :: r[k] == table[k]) &&
              (forall k | position < k < |table| :: r[k] == table[k - 1])
  {
    r := table;
    if position < |r| {
      var lastPair := r[position];
      var i := position + 1;
      while i < |r|
        invariant position + 1 <= i <= |r| && |r| == |table|
        invariant lastPair == table[i - 1]
        invariant forall k | 0 <= k <= position :: r[k] == table[k]
        invariant forall k | position < k < i :: r[k] == table[k - 1]
        invariant forall k | i <= k < |r| :: r[k] == table[k]
      {
        var tmp := r[i];
        r := r[i := lastPair];
        lastPair := tmp;
        i := i + 1;
      }
      r := r[position := Some(p)];
    }
  }

  /** The loop of insertHighScore computes the shifted table. */
  lemma InsertHighScoreIsInserted(table: Table, position: nat, p: Pair, r: Table)
    requires |r| == |table|
    requires position >= |table| ==> r == table
    requires position < |table| ==>
               r[position] == Some(p) &&
               (forall k | 0 <= k < position :: r[k] == table[k]) &&
               (forall k | position < k < |table| :: r[k] == table[k - 1])
    ensures r == Inserted(table, position, p)
  {
    if position < |table| {
      var s := Inserted(table, position, p);
      assert |s| == |table|;
      forall k | 0 <= k < |table| ensures r[k] == s[k] {
        if k < position {
          assert s[k] == table[k];
        } else if k == position {
          assert s[k] == Some(p);
        } else {
          assert s[k] == table[position..|table| - 1][k - position - 1];
        }
      }
    }
  }

  /**
   * MapInfo.tryAddScore: walk the slots from the best; at the first one that is empty or
   * holds a larger score, insert the new pair there and stop. A score no slot gives way to
   * leaves the table unchanged.
   */
  method TryAddScore(table: Table, profileId: int, score: int) returns (r: Table)
    ensures r == Inserted(table, FirstSlot(table, score), Pair(profileId, score))
  {
    r := table;
    var i := 0;
    while i < |table|
      invariant 0 <= i <= |table| && r == table
      invariant forall j | 0 <= j < i :: !Beats(score, table[j])
    {
      if Beats(score, table[i]) {
        r := InsertHighScore(table, i, Pair(profileId, score));
        InsertHighScoreIsInserted(table, i, Pair(profileId, score), r);
        FirstSlotIs(table, score, i);
        return;
      }
      i := i + 1;
    }
    FirstSlotIs(table, score, |table|);
  }

  /** The first slot is the one every slot before gives way to and the slot itself does not. */
  lemma {:induction false} FirstSlotIs(table: Table, score: int, k: nat)
    requires k <= |table| && (forall j | 0 <= j < k :: !Beats(score, table[j]))
    requires k < |table| ==> Beats(score, table[k])
    ensures FirstSlot(table, score) == k
  {
    if k > 0 {
      assert !Beats(score, table[0]);
      assert forall j | 0 <= j < k - 1 :: table[1..][j] == table[j + 1];
      FirstSlotIs(table[1..], score, k - 1);
    }
  }

  /**
   * A well-kept table: the filled slots come first, in ascending order of score (the best
   * time first).
   */
  predicate Ranked(table: Table)
  {
    forall i, j | 0 <= i < j < |table| && table[j].Some? :: table[i].Some? && table[i].value.score <= table[j].value.score
  }

  /** Adding a score keeps a well-kept table well kept, and the same size. */
  lemma TryAddKeepsRanked(table: Table, profileId: int, score: int)
    requires Ranked(table)
    ensures var r := Inserted(table, FirstSlot(table, score), Pair(profileId, score));
            |r| == |table| && Ranked(r)
  {
    var k := FirstSlot(table, score);
    var p := Pair(profileId, score);
    var r := Inserted(table, k, p);
    if k < |table| {
      assert forall m | 0 <= m < k :: r[m] == table[m];
      assert r[k] == Some(p);
      assert forall m | k < m < |table| :: r[m] == table[m - 1];
      forall i, j | 0 <= i < j < |r| && r[j].Some? ensures r[i].Some? && r[i].value.score <= r[j].value.score {
        if j < k {
        } else if j == k {
          assert !Beats(score, table[i]);
        } else if i < k {
          assert r[j] == table[j - 1];
        } else if i == k {
          assert r[j] == table[j - 1];
          assert Beats(score, table[k]);
        } else {
          assert r[i] == table[i - 1] && r[j] == table[j - 1];
        }
      }
    }
  }

  /** A score equal to one already in a well-kept table goes in after it. */
  lemma TieGoesAfter(table: Table, score: int, j: nat)
    requires Ranked(table) && j < |table| && table[j].Some? && table[j].value.score == score
    ensures j < FirstSlot(table, score)
  {
    assert forall m | 0 <= m <= j :: !Beats(score, table[m]);
  }

  /**
   * A time no better than every filled slot of a full table leaves it as it was; a table
   * with an empty slot always takes the time.
   */
  lemma NoPlaceNoChange(table: Table, profileId: int, score: int)
    ensures (forall j | 0 <= j < |table| :: !Beats(score, table[j])) <==>
            FirstSlot(table, score) == |table|
    ensures (forall j | 0 <= j < |table| :: !Beats(score, table[j])) ==>
            Inserted(table, FirstSlot(table, score), Pair(profileId, score)) == table
    ensures (exists j | 0 <= j < |table| :: table[j].None?) ==>
            Some(Pair(profileId, score)) in Inserted(table, FirstSlot(table, score), Pair(profileId, score))
  {
    var k := FirstSlot(table, score);
    if k < |table| {
      var r := Inserted(table, k, Pair(profileId, score));
      assert r[k] == Some(Pair(profileId, score));
    }
  }

  /**
   * Inserting replaces exactly the last entry by the new pair: what the table holds
   * afterwards, together with the entry that fell off, is what it held before plus the pair.
   */
  lemma InsertedContents(table: Table, position: nat, p: Pair)
    requires position < |table|
    ensures multiset(Inserted(table, position, p)) + multiset{table[|table| - 1]} == multiset(table) + multiset{Some(p)}
  {
    var n := |table|;
    assert table == table[..position] + table[position..n - 1] + [table[n - 1]];
    calc {
      multiset(Inserted(table, position, p)) + multiset{table[n - 1]};
      multiset(table[..position]) + multiset{Some(p)} + multiset(table[position..n - 1]) + multiset{table[n - 1]};
      multiset(table[..position] + table[position..n - 1] + [table[n - 1]]) + multiset{Some(p)};
    }
  }
}
