/** The two decay curves of the equipment-loss aspect and the configuration switch that picks one. */
module LossCurves {
  import opened U64

  /** Loss value of a pristine asset. */
  const MaxLoss: u64 := 100
  /** Floor of the loss value; reaching it means the asset is worn out. */
  const MinLoss: u64 := 0

  /** calLineLoss: ten points per recorded transfer, regardless of the current loss.
      `MaxLoss - 10 * transferTimes` is evaluated in u64, so it wraps instead of going
      negative, and the comparison with MinLoss that follows can never clamp anything. */
  function LineLoss(transferTimes: u64, currentLoss: u64): (r: u64)
    ensures transferTimes <= 10 ==> r == MaxLoss - 10 * transferTimes
    ensures transferTimes <= 10 ==> r <= MaxLoss
    ensures transferTimes <= 10 ==> (r == MinLoss <==> transferTimes == 10)
  {
    var result := Wrap(MaxLoss - 10 * transferTimes);
    if result > MinLoss then result else MinLoss
  }

  /** calStepLoss: ninety percent of the current loss, truncated, regardless of the transfer count. */
  function StepLoss(transferTimes: u64, currentLoss: u64): (r: u64)
    ensures 10 * r <= 9 * currentLoss < 10 * r + 10
    ensures currentLoss > 0 ==> r < currentLoss
    ensures currentLoss == 1 ==> r == 0
  {
    currentLoss * 9 / 10
  }

  /** The decay function chosen by the `calFuncType` property. */
  datatype Curve = Linear | Step

  /** getSelectLossFunc: 1 selects the linear curve, 2 the stepwise one, and any other
      value (including an unset property, which reads as 0) falls back to linear. */
  function SelectLossFunc(calFuncType: u64): (c: Curve)
    ensures c == Step <==> calFuncType == 2
    ensures c == Linear <==> calFuncType != 2
  {
    match calFuncType
    case 1 => Linear
    case 2 => Step
    case _ => Linear
  }

  /** Invokes the selected curve on `(transferTimes, currentLoss)`. */
  function Apply(c: Curve, transferTimes: u64, currentLoss: u64): u64 {
    match c
    case Linear => LineLoss(transferTimes, currentLoss)
    case Step => StepLoss(transferTimes, currentLoss)
  }

  /** The linear curve never looks at the current loss. */
  lemma LineLossIgnoresCurrentLoss(transferTimes: u64, a: u64, b: u64)
    ensures LineLoss(transferTimes, a) == LineLoss(transferTimes, b)
  {
  }

  /** The stepwise curve never looks at the transfer count. */
  lemma StepLossIgnoresTransferTimes(a: u64, b: u64, currentLoss: u64)
    ensures StepLoss(a, currentLoss) == StepLoss(b, currentLoss)
  {
  }

  /** Past ten transfers the u64 subtraction wraps: the linear curve returns a value far
      above MaxLoss instead of the floor. */
  lemma LineLossWrapsPastTen(transferTimes: u64, currentLoss: u64)
    requires 10 < transferTimes
    requires 10 * transferTimes < Modulus
    ensures LineLoss(transferTimes, currentLoss) == Modulus + MaxLoss - 10 * transferTimes
    ensures LineLoss(transferTimes, currentLoss) > MaxLoss
  {
  }
}
