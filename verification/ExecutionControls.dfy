/** The cancellation and pause token (src/financial_intelligence/domain/orchestration/execution_control.py). */
module ExecutionControls {
  import opened Outcomes
  import opened PlanExecution

  const MAX_REASON_LENGTH := 256

  datatype ControlError = ReasonOutOfBounds

  /** A reason, its whitespace already collapsed, is refused when it is empty or too long. */
  predicate AcceptsReason(reason: string) {
    0 < |reason| <= MAX_REASON_LENGTH
  }

  class ExecutionControl {
    var cancelled: bool
    var pause: bool
    var reason: Option<string>
    /** The requests accepted so far. */
    ghost var accepted: seq<(Control, string)>

    /** What the loop sees is the latest accepted request. */
    ghost predicate Valid()
      reads this
    {
      && (accepted == [] ==> Observed() == Go && reason == None)
      && (accepted != [] ==> var last := accepted[|accepted| - 1]; Observed() == last.0 != Go && reason == Some(last.1))
    }

    function Observed(): Control
      reads this
    {
      if !cancelled then Go else if pause then Pause else Cancel
    }

    constructor ()
      ensures Valid() && accepted == []
    {
      cancelled, pause, reason, accepted := false, false, None, [];
    }

    method RequestCancel(text: string) returns (r: Result<(), ControlError>)
      requires Valid()
      modifies this
      ensures Valid() && r.Ok? == AcceptsReason(text)
      ensures r.Ok? <==> 1 <= |text| <= 256
      ensures r.Ok? ==> cancelled && !pause && reason == Some(text) && Observed() == Cancel
      ensures r.Err? ==> cancelled == old(cancelled) && pause == old(pause) && reason == old(reason)
      ensures accepted == old(accepted) + (if AcceptsReason(text) then [(Cancel, text)] else [])
    {
      if !AcceptsReason(text) {
        return Err(ReasonOutOfBounds);
      }
      cancelled, pause, reason := true, false, Some(text);
      accepted := accepted + [(Cancel, text)];
      return Ok(());
    }

    method RequestPause(text: string) returns (r: Result<(), ControlError>)
      requires Valid()
      modifies this
      ensures Valid() && r.Ok? == AcceptsReason(text)
      ensures r.Ok? <==> 1 <= |text| <= 256
      ensures r.Ok? ==> cancelled && pause && reason == Some(text) && Observed() == Pause
      ensures r.Err? ==> cancelled == old(cancelled) && pause == old(pause) && reason == old(reason)
      ensures accepted == old(accepted) + (if AcceptsReason(text) then [(Pause, text)] else [])
    {
      if !AcceptsReason(text) {
        return Err(ReasonOutOfBounds);
      }
      cancelled, pause, reason := true, true, Some(text);
      accepted := accepted + [(Pause, text)];
      return Ok(());
    }
  }
}
