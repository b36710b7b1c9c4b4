/** Levels computed from experience, and the ratchet that keeps the stored
    level from ever going down. */
module Progression {

  /** Experience granted per qualifying chat message. */
  const XpPerMessage := 20

  /** The helper behind LevelFor: counts up from a level already reached. */
  function LevelFrom(xp: int, l: nat): (r: nat)
    requires 100 * l * l <= xp
    ensures l <= r
    ensures 100 * r * r <= xp < 100 * (r + 1) * (r + 1)
    decreases xp - 100 * l * l
  {
    if 100 * (l + 1) * (l + 1) <= xp then LevelFrom(xp, l + 1) else l
  }

  /** The level `floor(0.1 * sqrt(xp))`, in integers: the largest `l`
      with `100 * l * l <= xp`. */
  function LevelFor(xp: int): (l: nat)
    requires xp >= 0
    ensures 100 * l * l <= xp < 100 * (l + 1) * (l + 1)
  {
    LevelFrom(xp, 0)
  }

  /** The stored level after experience became `xp`: the computed level
      replaces the stored one only when strictly greater. A negative `xp`
      has no square root (NaN), so the comparison fails and the stored
      level stays. */
  function Ratchet(stored: int, xp: int): (r: int)
    ensures r >= stored
    ensures xp >= 0 ==> r >= LevelFor(xp)
    ensures r == stored || (xp >= 0 && r == LevelFor(xp))
  {
    if xp >= 0 && LevelFor(xp) > stored then LevelFor(xp) else stored
  }

  lemma SquareMonotone(a: int, b: int)
    ensures 0 <= a <= b ==> a * a <= b * b
  {
  }

  /** More experience never means a lower computed level. */
  lemma {:induction false} LevelMonotone(a: int, b: int)
    requires 0 <= a <= b
    ensures LevelFor(a) <= LevelFor(b)
  {
    var la, lb := LevelFor(a), LevelFor(b);
    SquareMonotone(lb + 1, la);
  }

  /** LevelFor is exactly the integer characterisation, in both directions. */
  lemma {:induction false} LevelCharacterised(xp: int, l: nat)
    requires xp >= 0
    ensures (100 * l * l <= xp < 100 * (l + 1) * (l + 1)) <==> l == LevelFor(xp)
  {
    var m := LevelFor(xp);
    SquareMonotone(l + 1, m);
    SquareMonotone(m + 1, l);
  }

  /** Below 100 experience the computed level is 0, so a profile created at
      level 1 keeps level 1; levels 2 and 3 need 400 and 900 experience. */
  lemma NewcomerKeepsLevelOne(xp: int)
    requires 0 <= xp < 100
    ensures LevelFor(xp) == 0 && Ratchet(1, xp) == 1
  {
    LevelCharacterised(xp, 0);
  }

  /** Applying the ratchet twice with growing experience never lowers the
      level, and a stored level that was at least 1 and at most the level
      the old experience allows becomes exactly max(1, computed level). */
  lemma {:induction false} RatchetSettles(stored: int, xp0: int, xp1: int)
    requires 0 <= xp0 <= xp1
    requires 1 <= stored
    requires stored == 1 || stored <= LevelFor(xp0)
    ensures Ratchet(stored, xp1) == if LevelFor(xp1) > 1 then LevelFor(xp1) else 1
  {
    LevelMonotone(xp0, xp1);
  }
}
