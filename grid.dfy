/** The level buttons of the screen: the colour rule of `gui_level` and the
    order in which `start_enter` lays the 25 slots out. */
module LevelGrid {
  import opened Wrappers
  import opened Tokens
  import opened Game

  const ROWS: nat := 5
  const COLUMNS: nat := 5

  datatype Colour = Grey | Green | White | Yellow

  /** One slot of the grid: a blank spacer, or a label with its foreground
      and background colour and the token the screen dispatches on a click. */
  datatype Cell = Spacer | Button(fore: Colour, back: Colour, token: int)

  /** The widget `gui_level` makes for level `i` with status `l`. */
  function LevelCell(l: LevelStatus, i: nat): (c: Cell)
    ensures c.Spacer? <==> !l.present
    ensures c.Button? ==> Decode(c.token) == Some(Level(i))
    ensures c.Button? && l.locked ==> c.fore == Grey && c.back == Grey
    ensures c.Button? ==> (c.fore == Green <==> !l.locked && l.bonus)
    ensures c.Button? ==> (c.fore == White <==> !l.locked && !l.bonus)
    ensures c.Button? ==> (c.back == c.fore <==> l.locked || l.completed)
    ensures c.Button? ==> (c.back == Yellow <==> !l.locked && !l.completed)
  {
    if !l.present then Spacer
    else if !l.locked then
      var fore := if l.bonus then Green else White;
      var back := if l.completed then fore else Yellow;
      Button(fore, back, Encode(Level(i)))
    else
      Button(Grey, Grey, Encode(Level(i)))
  }

  /** A locked level looks the same whatever its bonus and completed flags. */
  lemma LockedLooksAlike(a: LevelStatus, b: LevelStatus, i: nat)
    requires a.present && b.present && a.locked && b.locked
    ensures LevelCell(a, i) == LevelCell(b, i)
  {
  }

  /** The level shown in row `r` at position `k`, counted from the left:
      each row lists its five indices from the highest down. */
  function GridIndex(r: nat, k: nat): (n: nat)
    requires r < ROWS && k < COLUMNS
    ensures r * COLUMNS <= n < (r + 1) * COLUMNS
    ensures n < ROWS * COLUMNS
  {
    r * COLUMNS + (COLUMNS - 1 - k)
  }

  function RowOf(n: nat): nat { n / COLUMNS }

  function ColumnOf(n: nat): nat { COLUMNS - 1 - n % COLUMNS }

  /** Every slot 0..24 is shown at exactly one position of the grid. */
  lemma GridIndexIsBijective()
    ensures forall n: nat :: n < ROWS * COLUMNS ==>
      RowOf(n) < ROWS && ColumnOf(n) < COLUMNS && GridIndex(RowOf(n), ColumnOf(n)) == n
    ensures forall r1: nat, k1: nat, r2: nat, k2: nat ::
      (r1 < ROWS && k1 < COLUMNS && r2 < ROWS && k2 < COLUMNS &&
       GridIndex(r1, k1) == GridIndex(r2, k2)) ==> r1 == r2 && k1 == k2
  {
  }

  /** The slots in the order the nested loops visit them, row by row. */
  function GridOrder(): (s: seq<nat>)
    ensures |s| == ROWS * COLUMNS
  {
    seq(ROWS * COLUMNS, p requires 0 <= p < ROWS * COLUMNS => GridIndex(p / COLUMNS, p % COLUMNS))
  }

  /** The visiting order is a permutation of 0..24: no slot twice, none missed. */
  lemma GridOrderIsPermutation()
    ensures forall p, q :: 0 <= p < q < |GridOrder()| ==> GridOrder()[p] != GridOrder()[q]
    ensures forall n: nat :: n in GridOrder() <==> n < ROWS * COLUMNS
  {
    var s := GridOrder();
    GridIndexIsBijective();
    forall p, q | 0 <= p < q < |s| ensures s[p] != s[q] {
      if p / COLUMNS == q / COLUMNS {
        assert p % COLUMNS != q % COLUMNS;
      }
    }
    forall n: nat ensures n in s <==> n < ROWS * COLUMNS {
      if n < ROWS * COLUMNS {
        var p := RowOf(n) * COLUMNS + ColumnOf(n);
        assert p / COLUMNS == RowOf(n) && p % COLUMNS == ColumnOf(n);
        assert s[p] == n;
      }
    }
  }
}
