/**
 * `SignatureAction.kt` of the older `composesignature` module: the same two
 * enums and the same `toAlignment` as the `sain` library, declared again as
 * types of their own.  The last lemma shows that the two copies agree.
 */
module LegacyActions {
  import opened Wrappers
  import opened Alignments
  import SainActions

  /** `enum class SignatureAction { CLEAR, COMPLETE }`, in declaration order. */
  datatype SignatureAction = Clear | Complete

  /** `a.ordinal`. */
  function Ordinal(a: SignatureAction): (n: nat)
    ensures n == 0 <==> a == Clear
    ensures n == 1 <==> a == Complete
  {
    match a
    case Clear => 0
    case Complete => 1
  }

  /** `a.name`. */
  function Name(a: SignatureAction): (s: string)
    ensures s == "CLEAR" <==> a == Clear
    ensures s == "COMPLETE" <==> a == Complete
  {
    match a
    case Clear => "CLEAR"
    case Complete => "COMPLETE"
  }

  /** `SignatureAction.entries`: each value at the position its ordinal gives. */
  function Entries(): (r: seq<SignatureAction>)
    ensures |r| == 2
    ensures forall a: SignatureAction :: Ordinal(a) < |r| && r[Ordinal(a)] == a
  {
    [Clear, Complete]
  }

  /** `enum class ActionsAlignment { TOP, BOTTOM, LEFT, RIGHT }`. */
  datatype ActionsAlignment = Top | Bottom | Left | Right

  /** `a.ordinal`. */
  function AlignmentOrdinal(a: ActionsAlignment): (n: nat)
    ensures n == 0 <==> a == Top
    ensures n == 1 <==> a == Bottom
    ensures n == 2 <==> a == Left
    ensures n == 3 <==> a == Right
  {
    match a
    case Top => 0
    case Bottom => 1
    case Left => 2
    case Right => 3
  }

  /** `ActionsAlignment.entries`: each value at the position its ordinal gives. */
  function AlignmentEntries(): (r: seq<ActionsAlignment>)
    ensures |r| == 4
    ensures forall a: ActionsAlignment :: AlignmentOrdinal(a) < |r| && r[AlignmentOrdinal(a)] == a
  {
    [Top, Bottom, Left, Right]
  }

  /** `ActionsAlignment.toAlignment()`. */
  function ToAlignment(a: ActionsAlignment): (r: Alignment)
    ensures r in {TopStart, BottomStart, TopEnd}
    ensures r == TopStart <==> a == Top || a == Left
    ensures r == BottomStart <==> a == Bottom
    ensures r == TopEnd <==> a == Right
  {
    match a
    case Top => TopStart
    case Bottom => BottomStart
    case Left => TopStart
    case Right => TopEnd
  }

  /** `toAlignment` is not injective here either. */
  lemma ToAlignmentIsNotInjective()
    ensures exists a, b :: a != b && ToAlignment(a) == ToAlignment(b)
  {
    assert Top != Left && ToAlignment(Top) == ToAlignment(Left);
  }

  /** The `sain` value declared at the same position as legacy action `a`. */
  function AsSain(a: SignatureAction): SainActions.SignatureAction
  {
    SainActions.Entries()[Ordinal(a)]
  }

  /** The `sain` value declared at the same position as legacy alignment `a`. */
  function AlignmentAsSain(a: ActionsAlignment): SainActions.ActionsAlignment
  {
    SainActions.AlignmentEntries()[AlignmentOrdinal(a)]
  }

  /**
   * The two copies of the file agree: values at the same position carry the
   * same name, and `toAlignment` sends them to the same alignment.
   */
  lemma CopiesAgree(a: SignatureAction, b: ActionsAlignment)
    ensures SainActions.Name(AsSain(a)) == Name(a)
    ensures SainActions.Ordinal(AsSain(a)) == Ordinal(a)
    ensures SainActions.ValueOf(Name(a)) == Some(AsSain(a))
    ensures SainActions.AlignmentOrdinal(AlignmentAsSain(b)) == AlignmentOrdinal(b)
    ensures SainActions.ToAlignment(AlignmentAsSain(b)) == ToAlignment(b)
  {
  }
}
