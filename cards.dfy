/** The card-clash data model: cards, difficulty tiers, sides, and the
    uniqueness of card identifiers within one game. */
module Cards {

  datatype Option<T> = None | Some(value: T)

  /** The score that wins the game. */
  const Target: int := 45

  /** A letter card's divisor: A = 1, ..., F = 6. The closure that the
      engine embeds in each letter card divides the score by this rank. */
  type Rank = r: int | 1 <= r <= 6 witness 1

  /** The effect field of a symbol card: the string "repeat", the number 10
      and the string "flexible". */
  datatype SymbolEffect = Repeat | Bonus10 | Flexible

  datatype Card =
    | Number(id: string, value: int, effect: int)
    | Alpha(id: string, letter: char, rank: Rank)
    | Symbol(id: string, glyph: char, kind: SymbolEffect)

  /** The four tiers, and `Unknown` for any other tag that names no
      property of a plain object, which falls back to the intermediate
      settings. The difficulty menu only offers the four tiers. */
  datatype Difficulty = Beginner | Intermediate | Advanced | Nightmare | Unknown

  datatype Side = Player | Computer

  function SideOf(isPlayer: bool): (s: Side)
    ensures s.Player? <==> isPlayer
  {
    if isPlayer then Player else Computer
  }

  /** Pairwise distinct identifiers, position by position. */
  ghost predicate DistinctIds(s: seq<Card>) {
    forall i, j :: 0 <= i < j < |s| ==> s[i].id != s[j].id
  }

  /** The same property for a pool of cards regardless of order: no card
      twice, and no two different cards sharing an identifier. It carries
      over to every sub-multiset, so it holds of every hand and pile that is
      part of a pool that has it. */
  ghost predicate UniqueIds(m: multiset<Card>) {
    && (forall c :: m[c] <= 1)
    && (forall c, d :: c in m && d in m && c != d ==> c.id != d.id)
  }

  lemma {:induction false} DistinctIdsAtMostOnce(s: seq<Card>, c: Card)
    requires DistinctIds(s)
    ensures multiset(s)[c] <= 1
  {
    if s != [] {
      assert s == [s[0]] + s[1..];
      assert DistinctIds(s[1..]) by {
        forall i, j | 0 <= i < j < |s[1..]| ensures s[1..][i].id != s[1..][j].id {
          assert s[1..][i] == s[i + 1] && s[1..][j] == s[j + 1];
        }
      }
      DistinctIdsAtMostOnce(s[1..], c);
      if s[0] == c {
        forall k | 0 <= k < |s[1..]| ensures s[1..][k] != c {
          assert s[1..][k] == s[k + 1];
        }
        assert c !in s[1..];
      }
    }
  }

  /** Distinct positions with distinct ids make a pool with unique ids. */
  lemma DistinctIdsUnique(s: seq<Card>)
    requires DistinctIds(s)
    ensures UniqueIds(multiset(s))
  {
    forall c ensures multiset(s)[c] <= 1 {
      DistinctIdsAtMostOnce(s, c);
    }
    forall c, d | c in multiset(s) && d in multiset(s) && c != d ensures c.id != d.id {
      var a :| 0 <= a < |s| && s[a] == c;
      var b :| 0 <= b < |s| && s[b] == d;
      assert a != b;
    }
  }

  /** Unique ids carry over to every part of a pool. */
  lemma UniqueIdsSub(m: multiset<Card>, sub: multiset<Card>)
    requires UniqueIds(m) && sub <= m
    ensures UniqueIds(sub)
  {
  }

  /** A pool with unique ids, listed in any order, has distinct ids. */
  lemma UniqueIdsDistinct(t: seq<Card>)
    requires UniqueIds(multiset(t))
    ensures DistinctIds(t)
  {
    forall i, j | 0 <= i < j < |t| ensures t[i].id != t[j].id {
      assert t == t[..j] + t[j..];
      assert multiset(t) == multiset(t[..j]) + multiset(t[j..]);
      assert t[..j][i] == t[i] && t[j..][0] == t[j];
      assert t[i] in multiset(t[..j]) && t[j] in multiset(t[j..]);
    }
  }

  /** Distinct ids survive any reordering. */
  lemma DistinctIdsPermutation(s: seq<Card>, t: seq<Card>)
    requires DistinctIds(s) && multiset(s) == multiset(t)
    ensures DistinctIds(t)
  {
    DistinctIdsUnique(s);
    UniqueIdsDistinct(t);
  }
}
