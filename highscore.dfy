/**
 * Player highscores (highscore/Highscore.java, highscore/HighscoreList.java):
 * the immutable name/score value, the list kept in non-increasing score
 * order with ties in insertion order, and its top-ten text.
 */
module Highscores {

  /** One highscore; both fields are final. */
  datatype Highscore = Highscore(name: string, score: int)

  /** The decimal digit for 0..9. */
  function Digit(d: nat): (c: char)
    requires d < 10
    ensures '0' <= c <= '9'
  {
    "0123456789"[d]
  }

  /** The digit a character stands for. */
  function DigitValue(c: char): nat
  {
    if '0' <= c <= '9' then (c - '0') as nat else 0
  }

  /** A natural number in decimal, no leading zeros. */
  function NatString(n: nat): (s: string)
    ensures |s| >= 1 && forall i :: 0 <= i < |s| ==> '0' <= s[i] <= '9'
    ensures |s| > 1 ==> s[0] != '0'
  {
    if n < 10 then [Digit(n)] else NatString(n / 10) + [Digit(n % 10)]
  }

  /** An int as `String.valueOf` writes it: a minus sign for negatives. */
  function IntString(n: int): string
  {
    if n < 0 then "-" + NatString(-n) else NatString(n)
  }

  /** Reading a string of digits back as a number. */
  function ParseNat(s: string): nat
  {
    if s == [] then 0 else ParseNat(s[..|s| - 1]) * 10 + DigitValue(s[|s| - 1])
  }

  /** The decimal text of a number reads back as that number. */
  lemma {:induction false} NatStringRoundTrip(n: nat)
    ensures ParseNat(NatString(n)) == n
  {
    if n >= 10 {
      NatStringRoundTrip(n / 10);
      var s := NatString(n);
      assert s[..|s| - 1] == NatString(n / 10);
      DigitRoundTrip(n % 10);
      assert ParseNat(s) == (n / 10) * 10 + n % 10;
    } else {
      DigitRoundTrip(n);
    }
  }

  /** A digit reads back as the number it was written for. */
  lemma DigitRoundTrip(d: nat)
    requires d < 10
    ensures DigitValue(Digit(d)) == d
  {
  }

  /** Highscore.toString: "<name> - <score>". */
  function ToString(h: Highscore): string
  {
    h.name + " - " + IntString(h.score)
  }

  /** Scores never rise along the list. */
  ghost predicate SortedDesc(s: seq<Highscore>)
  {
    forall i, j :: 0 <= i < j < |s| ==> s[i].score >= s[j].score
  }

  /**
   * The list after adding `x` and sorting stably by non-increasing score,
   * for a list that was already sorted: `x` goes after every entry scoring
   * at least as much.
   */
  function Insert(s: seq<Highscore>, x: Highscore): (r: seq<Highscore>)
    ensures |r| == |s| + 1
    decreases |s|
  {
    if s == [] then [x]
    else if s[0].score < x.score then [x] + s
    else [s[0]] + Insert(s[1..], x)
  }

  /** The insertion point splits the list: everything before scores at least `x`, the first after scores less. */
  lemma {:induction false} InsertSplit(s: seq<Highscore>, x: Highscore, k: nat)
    requires k <= |s| && forall j :: 0 <= j < k ==> s[j].score >= x.score
    requires k < |s| ==> s[k].score < x.score
    ensures Insert(s, x) == s[..k] + [x] + s[k..]
    decreases k
  {
    if k > 0 {
      var t := s[1..];
      InsertSplit(t, x, k - 1);
      calc {
        Insert(s, x);
        [s[0]] + Insert(t, x);
        [s[0]] + (t[..k - 1] + [x] + t[k - 1..]);
        { assert [s[0]] + t[..k - 1] == s[..k]; assert t[k - 1..] == s[k..]; }
        s[..k] + [x] + s[k..];
      }
    } else {
      assert s[..0] == [] && s[0..] == s;
    }
  }

  /**
   * addScore on a sorted list: the result is sorted, holds the old entries
   * plus `x`, keeps the old entries in their order, and places `x` after
   * every entry scoring at least as much (stability) and before every entry
   * scoring less.
   */
  lemma InsertSpec(s: seq<Highscore>, x: Highscore)
    requires SortedDesc(s)
    ensures SortedDesc(Insert(s, x))
    ensures multiset(Insert(s, x)) == multiset(s) + multiset{x}
    ensures exists k :: 0 <= k <= |s| && Insert(s, x) == s[..k] + [x] + s[k..] &&
                        (forall j :: 0 <= j < k ==> s[j].score >= x.score) &&
                        (forall j :: k <= j < |s| ==> s[j].score < x.score)
  {
    var k := FirstBelow(s, x.score);
    InsertSplit(s, x, k);
    SplicedSorted(s, x, k);
    SplicedMultiset(s, x, k);
  }

  /** Inserting into a sorted list gives a sorted list holding one entry more. */
  lemma InsertKeepsOrder(s: seq<Highscore>, x: Highscore)
    requires SortedDesc(s)
    ensures SortedDesc(Insert(s, x)) && multiset(Insert(s, x)) == multiset(s) + multiset{x}
  {
    var k := FirstBelow(s, x.score);
    InsertSplit(s, x, k);
    SplicedSorted(s, x, k);
    SplicedMultiset(s, x, k);
  }

  /** Splicing `x` in at its insertion point keeps a sorted list sorted. */
  lemma SplicedSorted(s: seq<Highscore>, x: Highscore, k: nat)
    requires SortedDesc(s) && k <= |s|
    requires forall j :: 0 <= j < k ==> s[j].score >= x.score
    requires k < |s| ==> s[k].score < x.score
    ensures SortedDesc(s[..k] + [x] + s[k..])
  {
    var r := s[..k] + [x] + s[k..];
    SplicedAt(s, x, k);
    forall i, j | 0 <= i < j < |r|
      ensures r[i].score >= r[j].score
    {
      if i < k && j > k {
        assert r[i] == s[i] && r[j] == s[j - 1];
      } else if i < k && j < k {
        assert r[i] == s[i] && r[j] == s[j];
      } else if i > k {
        assert r[i] == s[i - 1] && r[j] == s[j - 1];
      }
    }
  }

  /** Splicing adds exactly `x` to the entries. */
  lemma SplicedMultiset(s: seq<Highscore>, x: Highscore, k: nat)
    requires k <= |s|
    ensures multiset(s[..k] + [x] + s[k..]) == multiset(s) + multiset{x}
  {
    assert s == s[..k] + s[k..];
  }

  /** Where each entry of `s` lands once `x` is spliced in at `k`. */
  lemma SplicedAt(s: seq<Highscore>, x: Highscore, k: nat)
    requires k <= |s|
    ensures var r := s[..k] + [x] + s[k..];
      |r| == |s| + 1 && r[k] == x &&
      (forall i :: 0 <= i < k ==> r[i] == s[i]) && (forall i :: k < i <= |s| ==> r[i] == s[i - 1])
  {
  }

  /** The first index whose score is below `score`, or the length. */
  function FirstBelow(s: seq<Highscore>, score: int): (k: nat)
    ensures k <= |s| && (forall j :: 0 <= j < k ==> s[j].score >= score)
    ensures k < |s| ==> s[k].score < score
    decreases |s|
  {
    if s == [] then 0
    else if s[0].score < score then 0
    else 1 + FirstBelow(s[1..], score)
  }

  /** The loaded list sorted by insertion, one entry at a time in file order. */
  function InsertionSorted(s: seq<Highscore>): seq<Highscore>
    decreases |s|
  {
    if s == [] then [] else Insert(InsertionSorted(s[..|s| - 1]), s[|s| - 1])
  }

  /** The loaded list's sort gives a sorted permutation of it. */
  lemma {:induction false} InsertionSortedSpec(s: seq<Highscore>)
    ensures SortedDesc(InsertionSorted(s))
    ensures multiset(InsertionSorted(s)) == multiset(s)
    decreases |s|
  {
    if s != [] {
      var n := |s| - 1;
      var prev := InsertionSorted(s[..n]);
      assert InsertionSorted(s) == Insert(prev, s[n]);
      InsertionSortedSpec(s[..n]);
      InsertKeepsOrder(prev, s[n]);
      MultisetOfLast(s);
    }
  }

  lemma MultisetOfLast(s: seq<Highscore>)
    requires s != []
    ensures multiset(s) == multiset(s[..|s| - 1]) + multiset{s[|s| - 1]}
  {
    assert s == s[..|s| - 1] + [s[|s| - 1]];
  }

  /** At most this many entries are listed. */
  const MaxPlayersShown: nat := 10

  /** One line of the list: "<rank>. <name> - <score>\n". */
  function Line(rank: nat, h: Highscore): string
  {
    NatString(rank) + ". " + h.name + " - " + IntString(h.score) + "\n"
  }

  /** The lines of the first `k` entries, ranked from 1. */
  function Lines(s: seq<Highscore>, k: nat): string
    requires k <= |s|
  {
    if k == 0 then "" else Lines(s, k - 1) + Line(k, s[k - 1])
  }

  function Min(a: nat, b: nat): nat
  {
    if a < b then a else b
  }

  const Header := "Top Highscores:\n"
  const NoScores := "No highscores yet!"

  /** toString of a highscore list. */
  function Rendered(s: seq<Highscore>): string
  {
    if s == [] then NoScores else Header + Lines(s, Min(MaxPlayersShown, |s|))
  }

  /** A line is the rank, a dot, and the entry's own toString. */
  lemma LineIsRankedToString(rank: nat, h: Highscore)
    ensures Line(rank, h) == NatString(rank) + ". " + ToString(h) + "\n"
  {
  }

  /** The lines of the first `k` entries depend on those entries only. */
  lemma {:induction false} LinesOfPrefix(s: seq<Highscore>, t: seq<Highscore>, k: nat)
    requires k <= |s| && k <= |t| && s[..k] == t[..k]
    ensures Lines(s, k) == Lines(t, k)
  {
    if k > 0 {
      assert s[k - 1] == s[..k][k - 1] == t[..k][k - 1] == t[k - 1];
      assert s[..k - 1] == s[..k][..k - 1];
      assert t[..k - 1] == t[..k][..k - 1];
      LinesOfPrefix(s, t, k - 1);
    }
  }

  /**
   * Only the top ten are shown: a non-empty list prints as the header
   * followed by the lines of its first min(10, n) entries, so entries past
   * the tenth make no difference.
   */
  lemma TopTenOnly(s: seq<Highscore>)
    requires |s| > MaxPlayersShown
    ensures Rendered(s) == Rendered(s[..MaxPlayersShown])
  {
    LinesOfPrefix(s, s[..MaxPlayersShown], MaxPlayersShown);
  }

  /** The list of highscores, best first. */
  class HighscoreList {
    var scores: seq<Highscore>

    ghost predicate Valid()
      reads this
    {
      SortedDesc(scores)
    }

    /**
     * A list holding `loaded`, the entries read back from the file (empty
     * when the file is missing, unreadable or malformed), sorted by score.
     */
    constructor(loaded: seq<Highscore>)
      ensures Valid()
      ensures scores == InsertionSorted(loaded)
    {
      var sorted: seq<Highscore> := [];
      var i := 0;
      while i < |loaded|
        invariant 0 <= i <= |loaded|
        invariant sorted == InsertionSorted(loaded[..i])
      {
        assert loaded[..i + 1][..i] == loaded[..i];
        sorted := Inserted(sorted, loaded[i]);
        i := i + 1;
      }
      assert loaded[..i] == loaded;
      InsertionSortedSpec(loaded);
      scores := sorted;
    }

    /** addScore: appended, then the list sorted stably by non-increasing score. */
    method AddScore(score: Highscore)
      requires Valid()
      modifies this
      ensures Valid()
      ensures scores == Insert(old(scores), score)
    {
      InsertSpec(scores, score);
      scores := Inserted(scores, score);
    }

    /** toString, built line by line. */
    method ToString() returns (text: string)
      ensures text == Rendered(scores)
    {
      if scores == [] {
        return NoScores;
      }
      var s := scores;
      var shown := Min(MaxPlayersShown, |s|);
      var lines := "";
      var i := 0;
      while i < shown
        invariant 0 <= i <= shown
        invariant lines == Lines(s, i)
      {
        lines := lines + Line(i + 1, s[i]);
        i := i + 1;
      }
      text := Header + lines;
    }
  }

  /** The sort's step on a sorted list: the new entry moves left past every entry scoring less. */
  method Inserted(s: seq<Highscore>, x: Highscore) returns (r: seq<Highscore>)
    ensures r == Insert(s, x)
  {
    var k := 0;
    while k < |s| && s[k].score >= x.score
      invariant 0 <= k <= |s|
      invariant forall j :: 0 <= j < k ==> s[j].score >= x.score
    {
      k := k + 1;
    }
    InsertSplit(s, x, k);
    r := s[..k] + [x] + s[k..];
  }
}
