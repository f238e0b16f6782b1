/**
 * The Rapid-mode ranking: at most ten entries, best score first. A new score
 * enters when the table has room or when it beats the lowest score held.
 */
module HighScores {
  import opened Wrappers
  import opened Text

  datatype HighScore = HighScore(name: string, score: int, operation: string, level: string, date: int)

  /** Entries kept, in memory (`slice(0, 10)` after insertion) and in storage (`salvarRanking`). */
  const TableSize: nat := 10
  const MaxNameLength: nat := 20
  const AnonymousName: string := "Anônimo"

  /** Best score first: every entry scores at least as much as the one after it. */
  predicate SortedDesc(s: seq<HighScore>) {
    |s| <= 1 || (s[0].score >= s[1].score && SortedDesc(s[1..]))
  }

  /** Sorted as defined above is the same as: an earlier entry never scores less than a later one. */
  lemma {:induction false} SortedDescPairwise(s: seq<HighScore>)
    ensures SortedDesc(s) <==> forall i, j :: 0 <= i < j < |s| ==> s[i].score >= s[j].score
  {
    if |s| > 1 {
      var t := s[1..];
      SortedDescPairwise(t);
      if SortedDesc(s) {
        forall i, j | 0 <= i < j < |s|
          ensures s[i].score >= s[j].score
        {
          if i == 0 && j > 1 {
            assert t[0].score >= t[j - 1].score;
          } else if i > 0 {
            assert t[i - 1].score >= t[j - 1].score;
          }
        }
      }
      if forall i, j :: 0 <= i < j < |s| ==> s[i].score >= s[j].score {
        assert forall i, j :: 0 <= i < j < |t| ==> t[i].score >= t[j].score by {
          forall i, j | 0 <= i < j < |t|
            ensures t[i].score >= t[j].score
          {
            assert s[i + 1].score >= s[j + 1].score;
          }
        }
      }
    }
  }

  /** The first entry of a sorted table is its best score. */
  lemma SortedHeadIsBest(s: seq<HighScore>, k: nat)
    requires SortedDesc(s) && k < |s|
    ensures s[0].score >= s[k].score
  {
    SortedDescPairwise(s);
  }

  /** The last entry of a sorted table is its lowest score. */
  lemma SortedLastIsLowest(s: seq<HighScore>)
    requires SortedDesc(s) && s != []
    ensures forall i :: 0 <= i < |s| ==> s[i].score >= s[|s| - 1].score
  {
    SortedDescPairwise(s);
  }

  /** Every prefix of a sorted table is sorted. */
  lemma {:induction false} SortedPrefix(s: seq<HighScore>, n: nat)
    requires SortedDesc(s) && n <= |s|
    ensures SortedDesc(s[..n])
  {
    if n > 1 {
      SortedPrefix(s[1..], n - 1);
      assert s[..n][1..] == s[1..][..n - 1];
    }
  }

  predicate ValidTable(s: seq<HighScore>) {
    |s| <= TableSize && SortedDesc(s)
  }

  /** `s.slice(0, n)`. */
  function Take<T>(s: seq<T>, n: nat): (r: seq<T>)
    ensures |r| <= n && |r| <= |s| && r == s[..|r|]
    ensures |r| == n || r == s
  {
    if |s| <= n then s else s[..n]
  }

  /** `Math.min(...scores)`. */
  function MinScore(s: seq<HighScore>): (m: int)
    requires s != []
    ensures forall i :: 0 <= i < |s| ==> m <= s[i].score
    ensures exists i :: 0 <= i < |s| && m == s[i].score
  {
    if |s| == 1 then s[0].score
    else
      var rest := MinScore(s[1..]);
      if s[0].score < rest then s[0].score else rest
  }

  /** The qualification test of `tryAddHighScore`. */
  predicate Qualifies(scores: seq<HighScore>, score: int) {
    |scores| < TableSize || score > MinScore(scores)
  }

  /**
   * A score qualifies exactly when the table has room or the score beats some
   * entry; so on a full table a score that only ties the lowest entry does not.
   */
  lemma QualifiesSpec(scores: seq<HighScore>, score: int)
    ensures Qualifies(scores, score) <==> |scores| < TableSize || exists i :: 0 <= i < |scores| && score > scores[i].score
  {
    if |scores| >= TableSize && Qualifies(scores, score) {
      var m := MinScore(scores);
      var i :| 0 <= i < |scores| && m == scores[i].score;
      assert score > scores[i].score;
    }
  }

  /** The name stored with a record: the prompt's answer trimmed and cut to 20 characters, or "Anônimo" when blank. */
  function CleanName(entry: Option<string>): string {
    var cleaned := Take(Trim(entry.GetOr("")), MaxNameLength);
    if |cleaned| > 0 then cleaned else AnonymousName
  }

  /**
   * A stored name is never empty nor longer than 20 characters; a blank or
   * cancelled prompt gives "Anônimo", and any other answer gives its trimmed
   * text, cut to 20 characters, which starts with a non-blank character.
   */
  lemma CleanNameSpec(entry: Option<string>)
    ensures 1 <= |CleanName(entry)| <= MaxNameLength
    ensures Trim(entry.GetOr("")) == [] ==> CleanName(entry) == AnonymousName
    ensures Trim(entry.GetOr("")) != [] ==>
      CleanName(entry) == Take(Trim(entry.GetOr("")), MaxNameLength) && !IsWhitespace(CleanName(entry)[0])
  {
    TrimSpec(entry.GetOr(""));
  }

  /** Place `e` after every entry whose score is at least its own (a stable insertion). */
  function Insert(s: seq<HighScore>, e: HighScore): (r: seq<HighScore>)
    ensures |r| == |s| + 1
    ensures multiset(r) == multiset(s) + multiset{e}
  {
    if s == [] then [e]
    else if s[0].score >= e.score then
      assert s == [s[0]] + s[1..];
      [s[0]] + Insert(s[1..], e)
    else [e] + s
  }

  /** Inserting into a sorted table keeps it sorted. */
  lemma {:induction false} InsertSorted(s: seq<HighScore>, e: HighScore)
    requires SortedDesc(s)
    ensures SortedDesc(Insert(s, e))
  {
    if s != [] && s[0].score >= e.score {
      var rest := Insert(s[1..], e);
      InsertSorted(s[1..], e);
      assert rest[0] == e || rest[0] == s[1];
      assert ([s[0]] + rest)[1..] == rest;
    } else if s != [] {
      assert ([e] + s)[1..] == s;
    }
  }

  /** The stable sort `sort((a, b) => b.score - a.score)`, as an insertion sort. */
  function SortDesc(s: seq<HighScore>): (r: seq<HighScore>)
    ensures SortedDesc(r)
    ensures multiset(r) == multiset(s) && |r| == |s|
  {
    if s == [] then []
    else
      var prefix := s[..|s| - 1];
      assert s == prefix + [s[|s| - 1]];
      InsertSorted(SortDesc(prefix), s[|s| - 1]);
      Insert(SortDesc(prefix), s[|s| - 1])
  }

  lemma {:induction false} InsertLowest(s: seq<HighScore>, e: HighScore)
    requires forall i :: 0 <= i < |s| ==> s[i].score >= e.score
    ensures Insert(s, e) == s + [e]
  {
    if s != [] {
      InsertLowest(s[1..], e);
    }
  }

  /** Inserting the lowest score of a sorted table into the rest puts it back at the end. */
  lemma SortedInsertsLast(prefix: seq<HighScore>, last: HighScore)
    requires SortedDesc(prefix + [last])
    ensures Insert(prefix, last) == prefix + [last]
  {
    var s := prefix + [last];
    SortedLastIsLowest(s);
    assert forall i :: 0 <= i < |prefix| ==> prefix[i].score >= last.score by {
      forall i | 0 <= i < |prefix|
        ensures prefix[i].score >= last.score
      {
        assert s[i] == prefix[i] && s[|s| - 1] == last;
      }
    }
    InsertLowest(prefix, last);
  }

  /** Sorting a table that is already in order changes nothing (the sort is stable). */
  lemma {:induction false} SortDescOfSorted(s: seq<HighScore>)
    requires SortedDesc(s)
    ensures SortDesc(s) == s
  {
    if s != [] {
      var prefix, last := s[..|s| - 1], s[|s| - 1];
      assert prefix + [last] == s;
      SortedPrefix(s, |s| - 1);
      SortDescOfSorted(prefix);
      SortedInsertsLast(prefix, last);
    }
  }

  /** Pushing onto a sorted table and sorting is one insertion. */
  lemma SortAfterPush(table: seq<HighScore>, e: HighScore)
    requires SortedDesc(table)
    ensures SortDesc(table + [e]) == Insert(table, e)
  {
    assert (table + [e])[..|table|] == table;
    SortDescOfSorted(table);
  }

  /** `e` lands at or before any entry whose score it beats. */
  lemma {:induction false} InsertBefore(s: seq<HighScore>, e: HighScore, i: nat)
    requires i < |s| && s[i].score < e.score
    ensures e in Insert(s, e)[..i + 1]
  {
    if s[0].score >= e.score {
      assert i > 0;
      InsertBefore(s[1..], e, i - 1);
      assert Insert(s, e) == [s[0]] + Insert(s[1..], e);
      assert Insert(s, e)[..i + 1] == [s[0]] + Insert(s[1..], e)[..i];
    } else {
      assert Insert(s, e)[0] == e;
    }
  }

  /**
   * The table after `tryAddHighScore` accepts `e`: push, sort by score
   * descending, keep the first ten.
   */
  function AddEntry(table: seq<HighScore>, e: HighScore): (r: seq<HighScore>)
    ensures ValidTable(r)
  {
    SortedPrefix(SortDesc(table + [e]), |Take(SortDesc(table + [e]), TableSize)|);
    Take(SortDesc(table + [e]), TableSize)
  }

  /**
   * The ranking after a round ends: only a Rapid round whose score qualifies
   * adds its record; any other round leaves the table as it was.
   */
  function RankingAfterRound(table: seq<HighScore>, rapid: bool, record: HighScore): (r: seq<HighScore>)
    ensures ValidTable(table) ==> ValidTable(r)
  {
    if rapid && Qualifies(table, record.score) then AddEntry(table, record) else table
  }

  /**
   * Adding an entry keeps at most what was there plus the new entry, grows a
   * table that has room by one, and keeps the new entry when it qualifies.
   */
  lemma AddEntryFacts(table: seq<HighScore>, e: HighScore)
    ensures multiset(AddEntry(table, e)) <= multiset(table) + multiset{e}
    ensures |table| < TableSize ==> |AddEntry(table, e)| == |table| + 1
    ensures |table| <= TableSize && Qualifies(table, e.score) ==> e in AddEntry(table, e)
  {
    var sorted := SortDesc(table + [e]);
    TakeSubMultiset(sorted, TableSize);
    assert multiset(table + [e]) == multiset(table) + multiset{e};
    if |table| <= TableSize && Qualifies(table, e.score) {
      AddEntryKeepsNew(table, e);
    }
  }

  /**
   * After a round the ranking is unchanged unless the round was a Rapid one
   * whose score qualifies; such a score is in the new ranking, and nothing
   * else is added.
   */
  lemma RankingAfterRoundFacts(table: seq<HighScore>, rapid: bool, record: HighScore)
    requires |table| <= TableSize
    ensures !(rapid && Qualifies(table, record.score)) ==> RankingAfterRound(table, rapid, record) == table
    ensures rapid && Qualifies(table, record.score) ==>
      record in RankingAfterRound(table, rapid, record)
      && multiset(RankingAfterRound(table, rapid, record)) <= multiset(table) + multiset{record}
    ensures rapid && |table| < TableSize ==> |RankingAfterRound(table, rapid, record)| == |table| + 1
  {
    AddEntryFacts(table, record);
  }

  lemma TakeSubMultiset(s: seq<HighScore>, n: nat)
    ensures multiset(Take(s, n)) <= multiset(s)
  {
    var r := Take(s, n);
    assert s == r + s[|r|..];
  }

  /**
   * A qualifying entry survives the cut to ten, whatever the order of the
   * table it joins: on a full table it beats some entry, so it cannot be the
   * last of the sorted eleven.
   */
  lemma AddEntryKeepsNew(table: seq<HighScore>, e: HighScore)
    requires |table| <= TableSize && Qualifies(table, e.score)
    ensures e in Take(SortDesc(table + [e]), TableSize)
  {
    var pushed := table + [e];
    var sorted := SortDesc(pushed);
    assert pushed[|table|] == e;
    assert e in multiset(sorted);
    var k :| 0 <= k < |sorted| && sorted[k] == e;
    if k >= TableSize {
      QualifiesSpec(table, e.score);
      var i :| 0 <= i < |table| && e.score > table[i].score;
      assert pushed[i] == table[i];
      assert table[i] in multiset(sorted);
      var j :| 0 <= j < |sorted| && sorted[j] == table[i];
      SortedAt(sorted, j, k);
      assert false;
    }
    InTake(sorted, k + 1, TableSize, e);
  }

  lemma SortedAt(s: seq<HighScore>, j: nat, k: nat)
    requires SortedDesc(s) && j <= k < |s|
    ensures s[j].score >= s[k].score
  {
    SortedDescPairwise(s);
  }

  lemma InTake<T>(s: seq<T>, n: nat, m: nat, x: T)
    requires n <= m && n <= |s| && x in s[..n]
    ensures x in Take(s, m)
  {
    var k :| 0 <= k < n && s[..n][k] == x;
    assert Take(s, m)[k] == x;
  }

  /** On a full table the entry that leaves is the last one, the lowest score. */
  lemma AddEntryEvictsLowest(table: seq<HighScore>, e: HighScore)
    requires |table| == TableSize && SortedDesc(table) && Qualifies(table, e.score)
    ensures AddEntry(table, e) + [table[TableSize - 1]] == Insert(table, e)
  {
    var last := table[TableSize - 1];
    QualifiesSpec(table, e.score);
    var i :| 0 <= i < |table| && e.score > table[i].score;
    SortedLastIsLowest(table);
    assert e.score > last.score;
    LastStaysLast(table, e);
    SortAfterPush(table, e);
    var r := Insert(table, e);
    assert AddEntry(table, e) == r[..TableSize];
    SplitLast(r);
  }

  lemma SplitLast<T>(s: seq<T>)
    requires s != []
    ensures s == s[..|s| - 1] + [s[|s| - 1]]
  {
  }

  lemma {:induction false} LastStaysLast(s: seq<HighScore>, e: HighScore)
    requires s != [] && s[|s| - 1].score < e.score
    ensures Insert(s, e)[|s|] == s[|s| - 1]
  {
    if s[0].score >= e.score {
      LastStaysLast(s[1..], e);
    }
  }
}
