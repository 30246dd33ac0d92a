// The settlement state machine of src/domain/wallet/settlement.py.
module Settlement {
  import opened Basics

  datatype SettlementState = Pending | Processing | Completed | Failed | Reversed | ManualReview

  // Reading the wire value; an unknown one raises.
  function ParseState(s: string): Option<SettlementState> {
    if s == "pending" then Some(Pending)
    else if s == "processing" then Some(Processing)
    else if s == "completed" then Some(Completed)
    else if s == "failed" then Some(Failed)
    else if s == "reversed" then Some(Reversed)
    else if s == "manual_review" then Some(ManualReview)
    else None
  }

  function Successors(s: SettlementState): set<SettlementState> {
    match s
    case Pending => {Processing, Failed, ManualReview}
    case Processing => {Completed, Failed, ManualReview}
    case Completed => {Reversed}
    case Failed => {Pending, ManualReview}
    case Reversed => {}
    case ManualReview => {Pending, Completed, Failed, Reversed}
  }

  predicate LegalTransition(current: SettlementState, requested: SettlementState) {
    requested in Successors(current)
  }

  // A run of legal transitions.
  predicate IsSettlementRun(run: seq<SettlementState>) {
    forall i :: 0 < i < |run| ==> LegalTransition(run[i - 1], run[i])
  }

  // After COMPLETED only REVERSED can follow, and after REVERSED nothing.
  lemma {:induction false} AfterCompletion(run: seq<SettlementState>, i: nat, j: nat)
    requires IsSettlementRun(run) && i < j < |run|
    ensures run[i] != Reversed
    ensures run[i] == Completed ==> j == i + 1 && run[j] == Reversed
    decreases j - i
  {
    assert LegalTransition(run[(i + 1) - 1], run[i + 1]);
    if j > i + 1 {
      AfterCompletion(run, i + 1, j);
    }
  }

  // A settlement completes at most once, and a reversal is the end of it.
  lemma CompletesAtMostOnce(run: seq<SettlementState>)
    requires IsSettlementRun(run)
    ensures forall i, j :: 0 <= i < j < |run| ==> !(run[i] == Completed && run[j] == Completed)
    ensures forall i :: 0 <= i < |run| && run[i] == Reversed ==> i == |run| - 1
  {
    forall i, j | 0 <= i < j < |run| ensures !(run[i] == Completed && run[j] == Completed) {
      AfterCompletion(run, i, j);
    }
    forall i | 0 <= i < |run| && run[i] == Reversed ensures i == |run| - 1 {
      if i < |run| - 1 { AfterCompletion(run, i, |run| - 1); }
    }
  }
}
