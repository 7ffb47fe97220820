/**
 * The actions a host can trigger on a signature pad, and the placement of the
 * action buttons: `SignatureAction.kt` of the `sain` library.
 */
module SainActions {
  import opened Wrappers
  import opened Alignments

  /** `enum class SignatureAction { CLEAR, COMPLETE }`, in declaration order. */
  datatype SignatureAction = Clear | Complete

  /** The position of `a` in the declaration: `a.ordinal`. */
  function Ordinal(a: SignatureAction): (n: nat)
    ensures n == 0 <==> a == Clear
    ensures n == 1 <==> a == Complete
  {
    match a
    case Clear => 0
    case Complete => 1
  }

  /** The declared name of `a`: `a.name`. */
  function Name(a: SignatureAction): (s: string)
    ensures s == "CLEAR" <==> a == Clear
    ensures s == "COMPLETE" <==> a == Complete
  {
    match a
    case Clear => "CLEAR"
    case Complete => "COMPLETE"
  }

  /**
   * `SignatureAction.valueOf(s)`; `None` where Kotlin throws
   * `IllegalArgumentException` because no value has that name.
   */
  function ValueOf(s: string): (r: Option<SignatureAction>)
    ensures forall a: SignatureAction :: r == Some(a) <==> Name(a) == s
  {
    if s == "CLEAR" then Some(Clear)
    else if s == "COMPLETE" then Some(Complete)
    else None
  }

  /**
   * `SignatureAction.entries`: the two values, each at the position its
   * ordinal gives, so every value occurs exactly once.
   */
  function Entries(): (r: seq<SignatureAction>)
    ensures |r| == 2
    ensures forall a: SignatureAction :: Ordinal(a) < |r| && r[Ordinal(a)] == a
  {
    [Clear, Complete]
  }

  /** Distinct values have distinct ordinals: `Ordinal` is a bijection onto `Entries()`. */
  lemma OrdinalIsInjective(a: SignatureAction, b: SignatureAction)
    ensures Ordinal(a) == Ordinal(b) <==> a == b
  {
  }

  /** `enum class ActionsAlignment { TOP, BOTTOM, LEFT, RIGHT }`. */
  datatype ActionsAlignment = Top | Bottom | Left | Right

  /** The position of `a` in the declaration: `a.ordinal`. */
  function AlignmentOrdinal(a: ActionsAlignment): (n: nat)
    ensures n == 0 <==> a == Top
    ensures n == 1 <==> a == Bottom
    ensures n == 2 <==> a == Left
    ensures n == 3 <==> a == Right
  {
    match a
    case Top => 0
    case Bottom => 1
    case Left => 2
    case Right => 3
  }

  /**
   * `ActionsAlignment.entries`: the four values, each at the position its
   * ordinal gives, so every value occurs exactly once.
   */
  function AlignmentEntries(): (r: seq<ActionsAlignment>)
    ensures |r| == 4
    ensures forall a: ActionsAlignment :: AlignmentOrdinal(a) < |r| && r[AlignmentOrdinal(a)] == a
  {
    [Top, Bottom, Left, Right]
  }

  /** `ActionsAlignment.toAlignment()`: where the action buttons are placed. */
  function ToAlignment(a: ActionsAlignment): (r: Alignment)
    ensures r in {TopStart, BottomStart, TopEnd}
    ensures r == TopStart <==> a == Top || a == Left
    ensures r == BottomStart <==> a == Bottom
    ensures r == TopEnd <==> a == Right
  {
    match a
    case Top => TopStart
    case Bottom => BottomStart
    case Left => TopStart
    case Right => TopEnd
  }

  /** `toAlignment` is not injective: two distinct values share an alignment. */
  lemma ToAlignmentIsNotInjective()
    ensures exists a, b :: a != b && ToAlignment(a) == ToAlignment(b)
  {
    assert Top != Left && ToAlignment(Top) == ToAlignment(Left);
  }
}
