/**
 * The progress indicator above the tunnel: a bar whose width follows the current step and one
 * button per step, marked completed, current or pending. Only a step already passed can be
 * clicked, so the indicator never jumps forward.
 */
module TunnelProgress {
  import opened Wrappers

  const StepLabels: seq<string> :=
    ["Mode", "Formule", "Compte", "Situation", "Projet", "Documents", "Validation"]

  datatype StepState = Completed | Current | Pending

  /** The state of step `step` while the tunnel is at `current`. */
  function StateOf(step: int, current: int): (s: StepState)
    ensures s == Completed <==> step < current
    ensures s == Current <==> step == current
    ensures s == Pending <==> step > current
  {
    if step < current then Completed
    else if step == current then Current
    else Pending
  }

  /** `canNavigate`: a step already passed, with a click handler given. */
  predicate CanNavigate(step: int, current: int, hasCallback: bool) {
    step < current && hasCallback
  }

  /** The step a click on `step`'s button asks the handler to go to, if any. */
  function Click(step: int, current: int, hasCallback: bool): (target: Option<int>)
    ensures target.Some? <==> CanNavigate(step, current, hasCallback)
    ensures target.Some? ==> target.value == step && target.value < current
  {
    if CanNavigate(step, current, hasCallback) then Some(step) else None
  }

  /** A click never leads to the current step or one after it. */
  lemma NoForwardJump(step: int, current: int, hasCallback: bool)
    ensures Click(step, current, hasCallback).Some? ==> StateOf(step, current) == Completed
    ensures StateOf(step, current) != Completed ==> Click(step, current, hasCallback).None?
  {
  }

  /** The label under step `step`: `STEP_LABELS[step - 1]`, undefined past the seventh step. */
  function StepLabel(step: int): (r: Option<string>)
    ensures r.Some? <==> 1 <= step <= |StepLabels|
    ensures r.Some? ==> r.value in StepLabels
  {
    if 1 <= step <= |StepLabels| then Some(StepLabels[step - 1]) else None
  }

  /** The steps drawn: 1 to `total`, in order. */
  function Steps(total: nat): (r: seq<int>)
    ensures |r| == total
    ensures forall i :: 0 <= i < total ==> r[i] == i + 1
  {
    seq(total, i => i + 1)
  }

  /** Each of the seven tunnel steps has its own label. */
  lemma LabelsCoverTunnel(i: int)
    requires 0 <= i < |Steps(7)|
    ensures StepLabel(Steps(7)[i]) == Some(StepLabels[i])
  {
  }

  /**
   * The width of the bar in percent, `(current - 1) / (total - 1) * 100`; with a single step the
   * division has no value.
   */
  function ProgressWidth(current: int, total: int): (w: Option<real>)
    ensures w.Some? <==> total != 1
    ensures w.Some? ==> w.value * (total - 1) as real == (current - 1) as real * 100.0
  {
    if total == 1 then None else Some((current - 1) as real / (total - 1) as real * 100.0)
  }

  /** A positive factor cancels from both sides of an equation. */
  lemma CancelPositive(a: real, b: real, t: real)
    requires t > 0.0 && a * t == b * t
    ensures a == b
  {
    assert (a - b) * t == 0.0;
  }

  /**
   * With more than one step the bar is empty at the first step, full at the last, grows with the
   * step and stays between the two.
   */
  lemma ProgressBounds(current: int, later: int, total: int)
    requires total > 1
    ensures ProgressWidth(1, total) == Some(0.0)
    ensures ProgressWidth(total, total) == Some(100.0)
    ensures current <= later ==> ProgressWidth(current, total).value <= ProgressWidth(later, total).value
    ensures 1 <= current <= total ==> 0.0 <= ProgressWidth(current, total).value <= 100.0
  {
    var t := (total - 1) as real;
    var wc := ProgressWidth(current, total).value;
    var wl := ProgressWidth(later, total).value;
    CancelPositive(ProgressWidth(1, total).value, 0.0, t);
    CancelPositive(ProgressWidth(total, total).value, 100.0, t);
    if current <= later {
      assert (wl - wc) * t == (later - current) as real * 100.0;
    }
    if 1 <= current <= total {
      assert (100.0 - wc) * t == (total - current) as real * 100.0;
    }
  }
}
