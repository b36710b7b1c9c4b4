/** The two read-only top-five views: top chatters by (level, experience)
    and richest users by coins. The profile documents of the collection come
    in as a sequence, in storage order; the ranking the database performs is
    modelled by an insertion sort. */
module Leaderboard {
  import opened Types

  /** How many rows a board shows at most. */
  const TopCount := 5

  datatype Board = Chatters | Richest

  /** `p` ranks at or above `q` on board `b` (descending order). */
  predicate Outranks(b: Board, p: Profile, q: Profile) {
    match b
    case Chatters => p.level > q.level || (p.level == q.level && p.experience >= q.experience)
    case Richest => p.coins >= q.coins
  }

  /** `s` is in descending board order. */
  predicate Ranked(b: Board, s: seq<Profile>) {
    forall i, j :: 0 <= i < j < |s| ==> Outranks(b, s[i], s[j])
  }

  /** Every two profiles are comparable on a board. */
  lemma OutranksTotal(b: Board, p: Profile, q: Profile)
    ensures Outranks(b, p, q) || Outranks(b, q, p)
  {
  }

  /** `p` placed into an already ranked sequence. */
  function Insert(b: Board, p: Profile, s: seq<Profile>): (r: seq<Profile>)
    requires Ranked(b, s)
    ensures Ranked(b, r)
    ensures multiset(r) == multiset(s) + multiset{p}
    ensures |r| == |s| + 1
    ensures forall x :: x in r ==> x == p || x in s
  {
    if s == [] || Outranks(b, p, s[0]) then [p] + s
    else
      var t := Insert(b, p, s[1..]);
      OutranksTotal(b, p, s[0]);
      assert forall k :: 0 <= k < |t| ==> Outranks(b, s[0], t[k]) by {
        forall k | 0 <= k < |t| ensures Outranks(b, s[0], t[k]) {
          assert t[k] in t;
          if t[k] != p {
            var m :| 1 <= m < |s| && s[m] == t[k];
          }
        }
      }
      assert s == [s[0]] + s[1..];
      [s[0]] + t
  }

  /** The profiles in descending board order. */
  function Rank(b: Board, users: seq<Profile>): (r: seq<Profile>)
    ensures Ranked(b, r)
    ensures multiset(r) == multiset(users)
    ensures |r| == |users|
  {
    if users == [] then []
    else
      assert users == [users[0]] + users[1..];
      Insert(b, users[0], Rank(b, users[1..]))
  }

  /** One line of the top-chatters board. */
  datatype ChatterRow = ChatterRow(rank: nat, username: string, discriminator: string, level: int, experience: int)

  /** One line of the richest-users board. */
  datatype RichRow = RichRow(rank: nat, username: string, discriminator: string, coins: int)

  function ChatterRowOf(rank: nat, p: Profile): ChatterRow {
    ChatterRow(rank, p.username, p.discriminator, p.level, p.experience)
  }

  function RichRowOf(rank: nat, p: Profile): RichRow {
    RichRow(rank, p.username, p.discriminator, p.coins)
  }

  /** The top-chatters board: the first five profiles by level, then
      experience, both descending, numbered from 1. */
  method TopChatters(users: seq<Profile>) returns (rows: seq<ChatterRow>)
    ensures |rows| == if |users| < TopCount then |users| else TopCount
    ensures forall i :: 0 <= i < |rows| ==> rows[i] == ChatterRowOf(i + 1, Rank(Chatters, users)[i])
    ensures forall i, j :: 0 <= i < j < |rows| ==>
              rows[i].level > rows[j].level
              || (rows[i].level == rows[j].level && rows[i].experience >= rows[j].experience)
  {
    var ranked := Rank(Chatters, users);
    rows := [];
    var i := 0;
    while i < |ranked| && i < TopCount
      invariant i <= |ranked| && i <= TopCount
      invariant |rows| == i
      invariant forall k :: 0 <= k < i ==> rows[k] == ChatterRowOf(k + 1, ranked[k])
    {
      rows := rows + [ChatterRowOf(i + 1, ranked[i])];
      i := i + 1;
    }
    forall i, j | 0 <= i < j < |rows|
      ensures rows[i].level > rows[j].level
              || (rows[i].level == rows[j].level && rows[i].experience >= rows[j].experience)
    {
      assert Outranks(Chatters, ranked[i], ranked[j]);
    }
  }

  /** The richest-users board: the first five profiles by coins,
      descending, numbered from 1. */
  method RichestUsers(users: seq<Profile>) returns (rows: seq<RichRow>)
    ensures |rows| == if |users| < TopCount then |users| else TopCount
    ensures forall i :: 0 <= i < |rows| ==> rows[i] == RichRowOf(i + 1, Rank(Richest, users)[i])
    ensures forall i, j :: 0 <= i < j < |rows| ==> rows[i].coins >= rows[j].coins
  {
    var ranked := Rank(Richest, users);
    rows := [];
    var i := 0;
    while i < |ranked| && i < TopCount
      invariant i <= |ranked| && i <= TopCount
      invariant |rows| == i
      invariant forall k :: 0 <= k < i ==> rows[k] == RichRowOf(k + 1, ranked[k])
    {
      rows := rows + [RichRowOf(i + 1, ranked[i])];
      i := i + 1;
    }
    forall i, j | 0 <= i < j < |rows| ensures rows[i].coins >= rows[j].coins {
      assert Outranks(Richest, ranked[i], ranked[j]);
    }
  }

  /** Everyone left off a board ranks at or below everyone shown on it, and
      everyone shown is one of the users. */
  lemma {:induction false} BoardShowsTheTop(b: Board, users: seq<Profile>, i: nat, j: nat)
    requires i < TopCount && i < j < |users|
    ensures Rank(b, users)[i] in users
    ensures Outranks(b, Rank(b, users)[i], Rank(b, users)[j])
  {
    var r := Rank(b, users);
    assert r[i] in multiset(r);
  }
}
