/**
 * The playfield dimensions and the eleven-entry planet table, with the facts
 * about the table that the merge and drop rules rely on.
 */
module Constants {
  import opened Types

  // Logical playfield, in physics pixels.
  const GAME_WIDTH: int := 400
  const GAME_HEIGHT: int := 600
  const WALL_THICKNESS: int := 50
  /** A settled body above this line ends the round. */
  const DEAD_LINE_Y: int := 100

  const PLANETS: seq<Planet> := [
    Planet(0, "Dust", "宇宙ダスト", "Dust", 15, "#94a3b8", "#000", 2, false),
    Planet(1, "Asteroid", "小惑星", "Ast", 22, "#a855f7", "#fff", 4, false),
    Planet(2, "Moon", "衛星", "Moon", 30, "#cbd5e1", "#000", 8, false),
    Planet(3, "Earth", "地球", "Earth", 38, "#2563eb", "#fff", 16, false),
    Planet(4, "Saturn", "土星", "Saturn", 48, "#4ade80", "#000", 32, true),
    Planet(5, "Gas Giant", "巨大ガス惑星", "Gas", 60, "#d97706", "#fff", 64, false),
    Planet(6, "Brown Dwarf", "褐色矮星", "BD", 72, "#78350f", "#fff", 128, false),
    Planet(7, "Star", "恒星", "Star", 85, "#facc15", "#000", 256, false),
    Planet(8, "Red Giant", "赤色巨星", "RG", 98, "#dc2626", "#fff", 512, false),
    Planet(9, "Neutron Star", "中性子星", "NS", 110, "#60a5fa", "#000", 1024, false),
    Planet(10, "Black Hole", "ブラックホール", "BH", 125, "#000000", "#fff", 2048, false)
  ]

  /** Drops only ever pick ranks 0 (Dust) to 3 (Earth). */
  const MAX_SPAWN_INDEX: nat := 3

  /** The name the merge code tests to recognise the terminal rank. */
  const BLACK_HOLE: string := "Black Hole"

  /** 2 to the power n. */
  function Pow2(n: nat): (p: nat)
    ensures p >= 1
  {
    if n == 0 then 1 else 2 * Pow2(n - 1)
  }

  lemma TableShape()
    ensures |PLANETS| == 11
    ensures forall i :: 0 <= i < |PLANETS| ==> PLANETS[i].id == i
  {
  }

  /** Radius grows strictly with rank. */
  lemma RadiusStrictlyIncreasing(i: nat, j: nat)
    requires i < j < |PLANETS|
    ensures PLANETS[i].radius < PLANETS[j].radius
  {
  }

  /** Rank i is worth 2^(i+1) points, so each rank is worth twice the one before. */
  lemma {:induction false} ScoreIsPowerOfTwo(i: nat)
    requires i < |PLANETS|
    ensures PLANETS[i].score == Pow2(i + 1)
    ensures i > 0 ==> PLANETS[i].score == 2 * PLANETS[i - 1].score
  {
    if i == 0 {
    } else if i == 1 {
      assert Pow2(2) == 2 * Pow2(1);
    } else if i == 2 {
      assert Pow2(3) == 2 * Pow2(2);
    } else if i == 3 {
      assert Pow2(4) == 2 * Pow2(3);
    } else if i == 4 {
      assert Pow2(5) == 2 * Pow2(4);
    } else if i == 5 {
      assert Pow2(6) == 2 * Pow2(5);
    } else if i == 6 {
      assert Pow2(7) == 2 * Pow2(6);
    } else if i == 7 {
      assert Pow2(8) == 2 * Pow2(7);
    } else if i == 8 {
      assert Pow2(9) == 2 * Pow2(8);
    } else if i == 9 {
      assert Pow2(10) == 2 * Pow2(9);
    } else {
      assert Pow2(11) == 2 * Pow2(10);
    }
  }

  /** The Black Hole is the last rank, and the only one with that name. */
  lemma BlackHoleIsLast(i: nat)
    requires i < |PLANETS|
    ensures PLANETS[i].name == BLACK_HOLE <==> i == |PLANETS| - 1
  {
  }

  /** Only Saturn is drawn with a ring. */
  lemma OnlySaturnHasRing(i: nat)
    requires i < |PLANETS|
    ensures PLANETS[i].hasRing <==> i == 4
  {
  }

  /**
   * The drop clamp interval is non-empty, the dead line lies inside the
   * playfield, and every rank a drop can choose exists in the table.
   */
  lemma Geometry()
    ensures WALL_THICKNESS < GAME_WIDTH - WALL_THICKNESS
    ensures 0 < DEAD_LINE_Y < GAME_HEIGHT
    ensures MAX_SPAWN_INDEX < |PLANETS|
  {
  }
}
