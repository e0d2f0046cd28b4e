/** Stock optional-value datatype used for "no change" and "not a known token". */
module Wrappers {
  datatype Option<+T> = None | Some(value: T)
}

/** The widget tokens of the level-select screen.
    Four negative control tokens share one `int` with the non-negative level
    indices (ball/st_start.c:32-35); `Token` is the tagged view of that int. */
module Tokens {
  import opened Wrappers

  const START_BACK: int := -1
  const START_PRACTICE: int := -2
  const START_NORMAL: int := -3
  const START_CHALLENGE: int := -4

  datatype Token = Back | Practice | Normal | Challenge | Level(index: nat)

  /** The int a widget carries for `t`: a control token is negative, a level
      is its own index. */
  function Encode(t: Token): (n: int)
    ensures n < 0 <==> !t.Level?
    ensures t.Level? ==> n == t.index
    ensures Decode(n) == Some(t)
  {
    match t
    case Back => START_BACK
    case Practice => START_PRACTICE
    case Normal => START_NORMAL
    case Challenge => START_CHALLENGE
    case Level(i) => i
  }

  /** How the screen reads a widget's int: any non-negative value is a level,
      the four control values are their tokens, and every other negative
      value matches nothing. */
  function Decode(n: int): (t: Option<Token>)
    ensures n >= 0 ==> t == Some(Level(n))
    ensures t.None? <==> n < START_CHALLENGE
    ensures t.Some? ==> (t.value.Level? <==> n >= 0)
  {
    if n == START_BACK then Some(Back)
    else if n == START_PRACTICE then Some(Practice)
    else if n == START_NORMAL then Some(Normal)
    else if n == START_CHALLENGE then Some(Challenge)
    else if n >= 0 then Some(Level(n))
    else None
  }

  /** Decoding is a left inverse of encoding on everything it accepts. */
  lemma EncodeDecode(n: int)
    requires Decode(n).Some?
    ensures Encode(Decode(n).value) == n
  {
  }

  /** Distinct tokens never share an int: in particular no control token
      equals any level index. */
  lemma EncodeInjective(s: Token, t: Token)
    requires Encode(s) == Encode(t)
    ensures s == t
  {
  }

  /** A control token can never be mistaken for a level index. */
  lemma ControlTokensAreNotLevels(t: Token, i: nat)
    requires !t.Level?
    ensures Encode(t) < 0 && Encode(t) != Encode(Level(i))
  {
  }
}
