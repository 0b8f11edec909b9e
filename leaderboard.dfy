/**
 * The leaderboard of app/page.tsx: the player and nine AI rivals ordered by
 * mass, heaviest first. The source sorts with Array.prototype.sort, which is
 * stable, so the model sorts by a stable insertion sort and proves it sorted,
 * a permutation, and order-preserving among entries of equal mass.
 */
module Leaderboards {
  import opened Numerics
  import opened Types
  import opened Constants

  /** Heaviest first: mass never increases along the board. */
  predicate SortedByMass(es: seq<LeaderboardEntry>)
  {
    forall i, j :: 0 <= i < j < |es| ==> es[i].mass >= es[j].mass
  }

  /** The entries of mass m, in board order. */
  function WithMass(es: seq<LeaderboardEntry>, m: real): (r: seq<LeaderboardEntry>)
    ensures |r| <= |es|
  {
    if es == [] then []
    else (if es[0].mass == m then [es[0]] else []) + WithMass(es[1..], m)
  }

  /**
   * Places e after every entry at least as heavy as it: the insertion step of
   * a stable sort by descending mass.
   */
  function InsertByMass(sorted: seq<LeaderboardEntry>, e: LeaderboardEntry): (r: seq<LeaderboardEntry>)
    ensures |r| == |sorted| + 1
  {
    if sorted == [] then [e]
    else if e.mass > sorted[0].mass then [e] + sorted
    else [sorted[0]] + InsertByMass(sorted[1..], e)
  }

  /** entries.sort((a, b) => b.mass - a.mass) under the stable Array.prototype.sort. */
  function SortByMass(es: seq<LeaderboardEntry>): (r: seq<LeaderboardEntry>)
    ensures |r| == |es|
  {
    if es == [] then []
    else InsertByMass(SortByMass(es[..|es| - 1]), es[|es| - 1])
  }

  /** Insertion adds e to the rows and loses none. */
  lemma {:induction false} InsertByMassPermutes(sorted: seq<LeaderboardEntry>, e: LeaderboardEntry)
    ensures multiset(InsertByMass(sorted, e)) == multiset(sorted) + multiset{e}
  {
    if sorted != [] && e.mass <= sorted[0].mass {
      InsertByMassPermutes(sorted[1..], e);
      assert sorted == [sorted[0]] + sorted[1..];
    }
  }

  /** The sorted board holds exactly the rows it was given: the sort is a permutation. */
  lemma {:induction false} SortByMassPermutes(es: seq<LeaderboardEntry>)
    ensures multiset(SortByMass(es)) == multiset(es)
  {
    if es != [] {
      var init, last := es[..|es| - 1], es[|es| - 1];
      assert es == init + [last];
      SortByMassPermutes(init);
      InsertByMassPermutes(SortByMass(init), last);
    }
  }

  /** A row no lighter than the head of a sorted board can go in front of it. */
  lemma ConsSorted(head: LeaderboardEntry, rest: seq<LeaderboardEntry>)
    requires SortedByMass(rest) && (rest == [] || head.mass >= rest[0].mass)
    ensures SortedByMass([head] + rest)
  {
    var r := [head] + rest;
    forall i, j | 0 <= i < j < |r| ensures r[i].mass >= r[j].mass {
      if i == 0 && 1 < j {
        assert rest[0].mass >= rest[j - 1].mass;
      }
    }
  }

  lemma {:induction false} InsertKeepsSorted(sorted: seq<LeaderboardEntry>, e: LeaderboardEntry)
    requires SortedByMass(sorted)
    ensures SortedByMass(InsertByMass(sorted, e))
    ensures InsertByMass(sorted, e)[0] == (if sorted != [] && e.mass <= sorted[0].mass then sorted[0] else e)
    decreases |sorted|
  {
    if sorted == [] {
    } else if e.mass <= sorted[0].mass {
      var tail := sorted[1..];
      assert SortedByMass(tail);
      InsertKeepsSorted(tail, e);
      assert tail == [] || sorted[0].mass >= tail[0].mass;
      ConsSorted(sorted[0], InsertByMass(tail, e));
    } else {
      ConsSorted(e, sorted);
    }
  }

  /** The board the sort produces is heaviest first. */
  lemma {:induction false} SortByMassSorted(es: seq<LeaderboardEntry>)
    ensures SortedByMass(SortByMass(es))
  {
    if es != [] {
      SortByMassSorted(es[..|es| - 1]);
      InsertKeepsSorted(SortByMass(es[..|es| - 1]), es[|es| - 1]);
    }
  }

  lemma {:induction false} WithMassAppend(a: seq<LeaderboardEntry>, b: seq<LeaderboardEntry>, m: real)
    ensures WithMass(a + b, m) == WithMass(a, m) + WithMass(b, m)
  {
    if a != [] {
      assert (a + b)[1..] == a[1..] + b;
      WithMassAppend(a[1..], b, m);
    } else {
      assert a + b == b;
    }
  }

  lemma WithMassSnoc(init: seq<LeaderboardEntry>, last: LeaderboardEntry, m: real)
    ensures WithMass(init + [last], m) == WithMass(init, m) + (if last.mass == m then [last] else [])
  {
    WithMassAppend(init, [last], m);
    assert WithMass([last], m) == (if last.mass == m then [last] else []) + WithMass([], m);
  }

  /** Every entry of a board lighter than m leaves no entry of mass m. */
  lemma {:induction false} WithMassNone(es: seq<LeaderboardEntry>, m: real)
    requires forall k :: 0 <= k < |es| ==> es[k].mass < m
    ensures WithMass(es, m) == []
  {
    if es != [] {
      WithMassNone(es[1..], m);
    }
  }

  lemma {:induction false} InsertWithMass(sorted: seq<LeaderboardEntry>, e: LeaderboardEntry, m: real)
    requires SortedByMass(sorted)
    ensures WithMass(InsertByMass(sorted, e), m) == WithMass(sorted, m) + (if e.mass == m then [e] else [])
    decreases |sorted|
  {
    if sorted == [] {
    } else if e.mass > sorted[0].mass {
      InsertInFront(sorted, e, m);
    } else {
      assert SortedByMass(sorted[1..]);
      InsertWithMass(sorted[1..], e, m);
      InsertBehind(sorted, e, m);
    }
  }

  /** A row no heavier than the head goes behind it: the step of InsertWithMass past the head. */
  lemma InsertBehind(sorted: seq<LeaderboardEntry>, e: LeaderboardEntry, m: real)
    requires sorted != [] && e.mass <= sorted[0].mass
    requires WithMass(InsertByMass(sorted[1..], e), m) == WithMass(sorted[1..], m) + (if e.mass == m then [e] else [])
    ensures WithMass(InsertByMass(sorted, e), m) == WithMass(sorted, m) + (if e.mass == m then [e] else [])
  {
    var r := InsertByMass(sorted, e);
    var h := if sorted[0].mass == m then [sorted[0]] else [];
    var w, x := WithMass(sorted[1..], m), (if e.mass == m then [e] else []);
    assert r[0] == sorted[0] && r[1..] == InsertByMass(sorted[1..], e);
    assert WithMass(r, m) == h + (w + x);
    assert WithMass(sorted, m) == h + w;
    assert h + (w + x) == (h + w) + x;
  }

  /** A row heavier than the whole board goes in front, after every row of its own mass. */
  lemma InsertInFront(sorted: seq<LeaderboardEntry>, e: LeaderboardEntry, m: real)
    requires SortedByMass(sorted) && sorted != [] && e.mass > sorted[0].mass
    ensures WithMass(InsertByMass(sorted, e), m) == WithMass(sorted, m) + (if e.mass == m then [e] else [])
  {
    var r := InsertByMass(sorted, e);
    assert r[0] == e && r[1..] == sorted;
    if e.mass == m {
      assert forall k :: 0 <= k < |sorted| ==> sorted[k].mass <= sorted[0].mass;
      WithMassNone(sorted, m);
    }
  }

  /** Stability: entries of equal mass keep the order they had before the sort. */
  lemma {:induction false} SortByMassStable(es: seq<LeaderboardEntry>, m: real)
    ensures WithMass(SortByMass(es), m) == WithMass(es, m)
  {
    if es != [] {
      var init, last := es[..|es| - 1], es[|es| - 1];
      SortByMassStable(init, m);
      SortByMassSorted(init);
      InsertWithMass(SortByMass(init), last, m);
      assert es == init + [last];
      WithMassSnoc(init, last, m);
    }
  }

  /** A board that is already heaviest first is left as it is. */
  lemma {:induction false} SortByMassSortedFixed(es: seq<LeaderboardEntry>)
    requires SortedByMass(es)
    ensures SortByMass(es) == es
  {
    if es != [] {
      var init, last := es[..|es| - 1], es[|es| - 1];
      assert SortedByMass(init);
      SortByMassSortedFixed(init);
      assert forall k :: 0 <= k < |init| ==> init[k].mass >= es[|es| - 1].mass;
      InsertAtEnd(init, last);
      assert es == init + [last];
    }
  }

  lemma {:induction false} InsertAtEnd(sorted: seq<LeaderboardEntry>, e: LeaderboardEntry)
    requires forall k :: 0 <= k < |sorted| ==> sorted[k].mass >= e.mass
    ensures InsertByMass(sorted, e) == sorted + [e]
  {
    if sorted != [] {
      InsertAtEnd(sorted[1..], e);
      assert sorted == [sorted[0]] + sorted[1..];
    }
  }

  /** The first index that holds the player, or -1 (Array.prototype.findIndex). */
  function FindPlayer(es: seq<LeaderboardEntry>): (i: int)
    ensures -1 <= i < |es|
    ensures 0 <= i ==> es[i].isPlayer && forall j :: 0 <= j < i ==> !es[j].isPlayer
    ensures i == -1 ==> forall j :: 0 <= j < |es| ==> !es[j].isPlayer
  {
    if es == [] then -1
    else if es[0].isPlayer then 0
    else
      var k := FindPlayer(es[1..]);
      if k == -1 then -1 else k + 1
  }

  /**
   * One entry after a leaderboard update: the player's mass is replaced by its
   * current mass, an AI's mass grows by 0.3 + r * 1.2 where r is its draw of
   * Math.random().
   */
  function Refreshed(e: LeaderboardEntry, playerMass: real, r: real): LeaderboardEntry
  {
    if e.isPlayer then e.(mass := playerMass) else e.(mass := e.mass + (0.3 + r * 1.2))
  }

  /** The board before sorting: every entry refreshed, in its old place. */
  function RefreshAll(prev: seq<LeaderboardEntry>, playerMass: real, rs: seq<real>): (r: seq<LeaderboardEntry>)
    requires |rs| == |prev|
    ensures |r| == |prev|
  {
    seq(|prev|, i requires 0 <= i < |prev| => Refreshed(prev[i], playerMass, rs[i]))
  }

  /**
   * updateLeaderboard: refreshes every entry, sorts the board heaviest first
   * and returns it with the player's rank, one more than the player's index
   * (so 0 when no entry is the player).
   */
  function UpdateLeaderboard(prev: seq<LeaderboardEntry>, playerMass: real, rs: seq<real>): (r: (seq<LeaderboardEntry>, int))
    requires |rs| == |prev|
  {
    var board := SortByMass(RefreshAll(prev, playerMass, rs));
    (board, FindPlayer(board) + 1)
  }

  /**
   * The sort of an update: the new board is heaviest first, holds exactly
   * the refreshed entries, and keeps entries of equal mass in their old order.
   */
  lemma UpdateLeaderboardOrder(prev: seq<LeaderboardEntry>, playerMass: real, rs: seq<real>, m: real)
    requires |rs| == |prev|
    ensures var board := UpdateLeaderboard(prev, playerMass, rs).0;
      && SortedByMass(board)
      && multiset(board) == multiset(RefreshAll(prev, playerMass, rs))
      && WithMass(board, m) == WithMass(RefreshAll(prev, playerMass, rs), m)
  {
    SortByMassSorted(RefreshAll(prev, playerMass, rs));
    SortByMassPermutes(RefreshAll(prev, playerMass, rs));
    SortByMassStable(RefreshAll(prev, playerMass, rs), m);
  }

  /**
   * The refresh of an update: each entry keeps its id, name and player flag;
   * the player's entry takes the player's mass and each AI gains at least 0.3
   * and less than 1.5.
   */
  lemma RefreshAllRows(prev: seq<LeaderboardEntry>, playerMass: real, rs: seq<real>, k: int)
    requires |rs| == |prev| && 0 <= k < |prev| && 0.0 <= rs[k] < 1.0
    ensures var e := RefreshAll(prev, playerMass, rs)[k];
      && e.id == prev[k].id && e.name == prev[k].name && e.isPlayer == prev[k].isPlayer
      && (prev[k].isPlayer ==> e.mass == playerMass)
      && (!prev[k].isPlayer ==> prev[k].mass + 0.3 <= e.mass < prev[k].mass + 1.5)
  {
  }

  /**
   * The rank of an update is the 1-based place of the first player row of the
   * new board; it lies in 1..|prev| exactly when some entry is the player, and
   * is 0 otherwise.
   */
  lemma UpdateLeaderboardRank(prev: seq<LeaderboardEntry>, playerMass: real, rs: seq<real>)
    requires |rs| == |prev|
    ensures var (board, rank) := UpdateLeaderboard(prev, playerMass, rs);
      && ((exists k :: 0 <= k < |prev| && prev[k].isPlayer) <==> 1 <= rank <= |prev|)
      && (rank == 0 || (rank - 1 < |board| && board[rank - 1].isPlayer))
      && (forall j :: 0 <= j < rank - 1 ==> !board[j].isPlayer)
  {
    var refreshed := RefreshAll(prev, playerMass, rs);
    var board := SortByMass(refreshed);
    assert UpdateLeaderboard(prev, playerMass, rs) == (board, FindPlayer(board) + 1);
    assert (exists k :: 0 <= k < |prev| && prev[k].isPlayer) <==> (exists k :: 0 <= k < |refreshed| && refreshed[k].isPlayer) by {
      assert forall k :: 0 <= k < |prev| ==> refreshed[k].isPlayer == prev[k].isPlayer;
    }
    SortByMassPermutes(refreshed);
    PlayerPresence(board, refreshed);
  }

  /** After an update every player row of the board shows the mass it was given. */
  lemma UpdateLeaderboardPlayerMass(prev: seq<LeaderboardEntry>, playerMass: real, rs: seq<real>)
    requires |rs| == |prev|
    ensures var board := UpdateLeaderboard(prev, playerMass, rs).0;
      forall j :: 0 <= j < |board| && board[j].isPlayer ==> board[j].mass == playerMass
  {
    var refreshed := RefreshAll(prev, playerMass, rs);
    var board := SortByMass(refreshed);
    SortByMassPermutes(refreshed);
    forall j | 0 <= j < |board| && board[j].isPlayer
      ensures board[j].mass == playerMass
    {
      assert board[j] in multiset(refreshed);
      var i :| 0 <= i < |refreshed| && refreshed[i] == board[j];
    }
  }

  /** Two boards with the same rows either both have a player row or neither has. */
  lemma PlayerPresence(a: seq<LeaderboardEntry>, b: seq<LeaderboardEntry>)
    requires multiset(a) == multiset(b)
    ensures (exists j :: 0 <= j < |a| && a[j].isPlayer) <==> (exists j :: 0 <= j < |b| && b[j].isPlayer)
  {
    if j :| 0 <= j < |a| && a[j].isPlayer {
      assert a[j] in multiset(b);
      var i :| 0 <= i < |b| && b[i] == a[j];
    }
    if j :| 0 <= j < |b| && b[j].isPlayer {
      assert b[j] in multiset(a);
      var i :| 0 <= i < |a| && a[i] == b[j];
    }
  }

  /** The player's row of a fresh board. */
  const PlayerEntry: LeaderboardEntry := LeaderboardEntry("player", "You", 100.0, true)

  /** The decimal digits of n, as a template literal prints it. */
  function Decimal(n: nat): (s: string)
    ensures 1 <= |s|
    ensures |s| == 1 <==> n < 10
    ensures forall k :: 0 <= k < |s| ==> '0' <= s[k] <= '9'
  {
    if n < 10 then [('0' as int + n) as char]
    else Decimal(n / 10) + [('0' as int + n % 10) as char]
  }

  /** Different numbers print differently. */
  lemma {:induction false} DecimalInjective(a: nat, b: nat)
    requires Decimal(a) == Decimal(b)
    ensures a == b
  {
    if 10 <= a {
      var sa, sb := Decimal(a), Decimal(b);
      assert Decimal(a / 10) == sa[..|sa| - 1];
      assert Decimal(b / 10) == sb[..|sb| - 1];
      DecimalInjective(a / 10, b / 10);
      assert sa[|sa| - 1] == sb[|sb| - 1];
    }
  }

  /** The id of the i-th AI: "ai-" followed by i. */
  function AiId(i: nat): string
  {
    "ai-" + Decimal(i)
  }

  /** Different AIs have different ids, and none has the player's id. */
  lemma AiIdsDistinct(i: nat, j: nat)
    ensures AiId(i) != PlayerEntry.id
    ensures i != j ==> AiId(i) != AiId(j)
  {
    assert AiId(i)[..3] == "ai-";
    assert PlayerEntry.id[..3] == "pla";
    if AiId(i) == AiId(j) {
      assert Decimal(i) == AiId(i)[3..];
      assert Decimal(j) == AiId(j)[3..];
      DecimalInjective(i, j);
    }
  }

  /**
   * The i-th AI of a fresh board, named from names (AI_NAMES in the game)
   * cyclically, with mass Math.floor(r * 3000) + 500.
   */
  function AiEntry(names: seq<string>, i: nat, r: real): LeaderboardEntry
    requires |names| > 0
  {
    LeaderboardEntry(AiId(i), names[i % |names|], Floor(r * 3000.0) as real + 500.0, false)
  }

  /** An AI starts with a whole mass from 500 to 3499. */
  lemma AiEntryMass(names: seq<string>, i: nat, r: real)
    requires |names| > 0 && 0.0 <= r < 1.0
    ensures 500.0 <= AiEntry(names, i, r).mass <= 3499.0
    ensures AiEntry(names, i, r).mass == AiEntry(names, i, r).mass.Floor as real
  {
    var f := Floor(r * 3000.0);
    assert 0 <= f < 3000;
    assert AiEntry(names, i, r).mass == (f + 500) as real;
  }

  /** The AI rows of a fresh board, in creation order, one per draw. */
  function Ais(names: seq<string>, rs: seq<real>): (r: seq<LeaderboardEntry>)
    requires |names| > 0
    ensures |r| == |rs|
  {
    seq(|rs|, i requires 0 <= i < |rs| => AiEntry(names, i, rs[i]))
  }

  /** The unsorted board: the player first, then the AIs in creation order. */
  function Seeded(names: seq<string>, rs: seq<real>): seq<LeaderboardEntry>
    requires |names| > 0
  {
    [PlayerEntry] + Ais(names, rs)
  }

  /**
   * initializeLeaderboard: the player's row, then one row per AI, then a sort
   * heaviest first. rs holds the AIs' draws of Math.random(), one each.
   */
  method InitializeLeaderboard(rs: seq<real>) returns (board: seq<LeaderboardEntry>)
    requires |rs| == 9
    ensures board == SortByMass(Seeded(AI_NAMES, rs))
  {
    var entries := [PlayerEntry];
    for i := 0 to 9
      invariant entries == Seeded(AI_NAMES, rs[..i])
    {
      entries := entries + [AiEntry(AI_NAMES, i, rs[i])];
      assert rs[..i + 1] == rs[..i] + [rs[i]];
    }
    assert rs[..9] == rs;
    board := SortByMass(entries);
  }

  /** A fresh board has one row per AI and one for the player, heaviest first. */
  lemma InitialBoardOrder(names: seq<string>, rs: seq<real>)
    requires |names| > 0
    ensures |SortByMass(Seeded(names, rs))| == |rs| + 1
    ensures SortedByMass(SortByMass(Seeded(names, rs)))
  {
    SortByMassSorted(Seeded(names, rs));
  }

  /** On a fresh board the player's row appears exactly once, and so does every AI's. */
  lemma InitialBoardRows(names: seq<string>, rs: seq<real>)
    requires |names| > 0
    ensures multiset(SortByMass(Seeded(names, rs)))[PlayerEntry] == 1
    ensures forall k :: 0 <= k < |rs| ==> multiset(SortByMass(Seeded(names, rs)))[Ais(names, rs)[k]] == 1
  {
    var ais := Ais(names, rs);
    var rows := multiset(SortByMass(Seeded(names, rs)));
    SortByMassPermutes(Seeded(names, rs));
    assert rows == multiset{PlayerEntry} + multiset(ais);
    assert multiset(ais)[PlayerEntry] == 0 by {
      forall k | 0 <= k < |ais| ensures ais[k] != PlayerEntry {
        AiIdsDistinct(k, k);
      }
    }
    forall k | 0 <= k < |ais| ensures rows[ais[k]] == 1 {
      OnlyRowWithId(ais, k);
      AiIdsDistinct(k, k);
    }
  }

  /**
   * On a fresh board the only player row is the player's, and every AI row
   * has a mass from 500 to 3499.
   */
  lemma InitialBoardMasses(names: seq<string>, rs: seq<real>)
    requires |names| > 0
    requires forall k :: 0 <= k < |rs| ==> 0.0 <= rs[k] < 1.0
    ensures var board := SortByMass(Seeded(names, rs));
      && (forall j :: 0 <= j < |board| && board[j].isPlayer ==> board[j] == PlayerEntry)
      && (forall j :: 0 <= j < |board| && !board[j].isPlayer ==> 500.0 <= board[j].mass <= 3499.0)
  {
    var seeded := Seeded(names, rs);
    var board := SortByMass(seeded);
    var ais := Ais(names, rs);
    SortByMassPermutes(seeded);
    forall j | 0 <= j < |board|
      ensures board[j].isPlayer ==> board[j] == PlayerEntry
      ensures !board[j].isPlayer ==> 500.0 <= board[j].mass <= 3499.0
    {
      assert board[j] in multiset(seeded);
      var i :| 0 <= i < |seeded| && seeded[i] == board[j];
      if 0 < i {
        assert seeded[i] == ais[i - 1];
        AiEntryMass(names, i - 1, rs[i - 1]);
      }
    }
  }

  /** The k-th AI row is the only one with its id, so it occurs once. */
  lemma OnlyRowWithId(ais: seq<LeaderboardEntry>, k: nat)
    requires k < |ais|
    requires forall i :: 0 <= i < |ais| ==> ais[i].id == AiId(i)
    ensures multiset(ais)[ais[k]] == 1
  {
    var before, after := ais[..k], ais[k + 1..];
    assert ais == before + [ais[k]] + after;
    NoRowWithId(before, 0, k, ais[k]);
    NoRowWithId(after, k + 1, k, ais[k]);
    assert multiset(ais) == multiset(before) + multiset{ais[k]} + multiset(after);
  }

  /** AI rows numbered from `from` on contain no row with the id of AI k, unless they reach it. */
  lemma NoRowWithId(rows: seq<LeaderboardEntry>, from: nat, k: nat, e: LeaderboardEntry)
    requires forall i :: 0 <= i < |rows| ==> rows[i].id == AiId(from + i)
    requires e.id == AiId(k) && (k < from || from + |rows| <= k)
    ensures multiset(rows)[e] == 0
  {
    forall i | 0 <= i < |rows| ensures rows[i] != e {
      AiIdsDistinct(from + i, k);
    }
  }
}
