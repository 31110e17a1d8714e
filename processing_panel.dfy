/** The processing panel's per-phase status: which of the three rendered
    phases (model download, inference, compositing) shows as done, running,
    waiting or failed, from the current phase and the error flag. */
module ProcessingPanel {
  import opened Base

  datatype Phase = Idle | DownloadPhase | Compute | Composite | Complete | ErrorPhase

  datatype PhaseStatus = Pending | Active | Done | Errored

  /** The phases the panel lists, in order. */
  const Shown: seq<Phase> := [DownloadPhase, Compute, Composite]

  /** `phaseOrder`; `error` is not in it. */
  const PhaseOrder: seq<Phase> := [Idle, DownloadPhase, Compute, Composite, Complete]

  /** `indexOf`: the first position of `x`, or -1. */
  function IndexOf<T(==)>(s: seq<T>, x: T): (r: int)
    ensures -1 <= r < |s|
    ensures r == -1 <==> x !in s
    ensures r >= 0 ==> s[r] == x && x !in s[..r]
    decreases |s|
  {
    if s == [] then -1
    else if s[0] == x then 0
    else
      var r := IndexOf(s[1..], x);
      assert s[1..][..if r < 0 then 0 else r] == s[1..if r < 0 then 1 else r + 1];
      if r == -1 then -1 else r + 1
  }

  /** The place of each phase in the pipeline; the error phase has none. */
  function Rank(p: Phase): int {
    match p
    case Idle => 0
    case DownloadPhase => 1
    case Compute => 2
    case Composite => 3
    case Complete => 4
    case ErrorPhase => -1
  }

  /** The position in `phaseOrder` is the rank. */
  lemma IndexOfIsRank(p: Phase)
    ensures IndexOf(PhaseOrder, p) == Rank(p)
  {
    if Rank(p) >= 0 {
      assert PhaseOrder[Rank(p)] == p;
    } else {
      assert p !in PhaseOrder;
    }
  }

  /** `getPhaseStatus`. */
  function GetPhaseStatus(phaseId: Phase, current: Phase, hasError: bool): PhaseStatus {
    if hasError && current == phaseId then Errored
    else
      var currentIdx := IndexOf(PhaseOrder, current);
      var phaseIdx := IndexOf(PhaseOrder, phaseId);
      if current == Complete || phaseIdx < currentIdx then Done
      else if phaseIdx == currentIdx then Active
      else Pending
  }

  /** The status of a listed phase, stated by ranks: failed if it is the
      current phase and there is an error; done once the pipeline is
      complete or past it; running while it is current; waiting before
      that, and waiting when the current phase is the error phase. */
  lemma ShownPhaseStatus(p: Phase, current: Phase, hasError: bool)
    requires p in Shown
    ensures hasError && current == p ==> GetPhaseStatus(p, current, hasError) == Errored
    ensures current == Complete ==> GetPhaseStatus(p, current, hasError) == Done
    ensures current != ErrorPhase && Rank(p) < Rank(current) ==> GetPhaseStatus(p, current, hasError) == Done
    ensures !hasError && current == p ==> GetPhaseStatus(p, current, hasError) == Active
    ensures current != ErrorPhase && Rank(current) < Rank(p) ==> GetPhaseStatus(p, current, hasError) == Pending
    ensures current == ErrorPhase ==> GetPhaseStatus(p, current, hasError) == Pending
  {
    StatusByRank(p, current, hasError);
  }

  /** `getPhaseStatus` with the positions replaced by ranks. */
  lemma StatusByRank(p: Phase, current: Phase, hasError: bool)
    ensures GetPhaseStatus(p, current, hasError)
      == if hasError && current == p then Errored
         else if current == Complete || Rank(p) < Rank(current) then Done
         else if p == current then Active
         else Pending
  {
    IndexOfIsRank(p);
    IndexOfIsRank(current);
  }

  /** How far along a status is. */
  function Level(s: PhaseStatus): nat {
    match s
    case Pending => 0
    case Active => 1
    case Done => 2
    case Errored => 0
  }

  /** Without an error, a listed phase only moves forward, from waiting to
      running to done, as the pipeline advances. */
  lemma StatusMonotone(p: Phase, c1: Phase, c2: Phase)
    requires p in Shown && c1 in PhaseOrder && c2 in PhaseOrder && Rank(c1) <= Rank(c2)
    ensures Level(GetPhaseStatus(p, c1, false)) <= Level(GetPhaseStatus(p, c2, false))
  {
    ShownPhaseStatus(p, c1, false);
    ShownPhaseStatus(p, c2, false);
  }

  /** At most one listed phase is running at a time. */
  lemma OneActive(current: Phase, hasError: bool, i: nat, j: nat)
    requires i < |Shown| && j < |Shown|
    requires GetPhaseStatus(Shown[i], current, hasError) == Active
    requires GetPhaseStatus(Shown[j], current, hasError) == Active
    ensures i == j
  {
    ShownPhaseStatus(Shown[i], current, hasError);
    ShownPhaseStatus(Shown[j], current, hasError);
  }

  /** `isActive`: the pipeline is in one of the listed phases. */
  function IsActive(phase: Phase): (r: bool)
    ensures r <==> phase in Shown
  {
    phase != Idle && phase != Complete && phase != ErrorPhase
  }

  /** `hasError`: the error phase, or a non-empty error message. */
  function HasError(phase: Phase, error: Option<string>): (r: bool)
    ensures phase == ErrorPhase ==> r
    ensures r && phase != ErrorPhase ==> error.Some? && |error.value| > 0
    ensures error.Some? && |error.value| > 0 ==> r
  {
    phase == ErrorPhase || (error.Some? && error.value != "")
  }
}
