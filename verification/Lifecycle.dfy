/** The Run lifecycle: sixteen states, the table of allowed transitions and
    the pure kernel that applies one transition (application/transitions.py),
    with the ordering facts every whole history of a Run obeys. */
module Lifecycle {
  import opened Wrappers

  datatype State =
    | Created | Planning | ContractValidating | AwaitingApproval
    | PreparingWorkspace | Executing | FreezingResult | HostValidating
    | Verifying | ReworkContracting | AwaitingManualReview
    | AwaitingFinalApproval | RecoveryRequired
    | ReadyForMerge | Failed | Cancelled

  predicate IsTerminal(s: State) {
    s in {ReadyForMerge, Failed, Cancelled}
  }

  /** The states entered only together with a pending action. */
  predicate IsWaiting(s: State) {
    s in {AwaitingApproval, AwaitingManualReview, AwaitingFinalApproval, RecoveryRequired}
  }

  /** Where a Run in RecoveryRequired may be resumed. */
  const RECOVERY_RESTART_TARGETS: set<State> :=
    {Created, Planning, ContractValidating, AwaitingApproval, AwaitingManualReview,
     AwaitingFinalApproval, PreparingWorkspace, FreezingResult, HostValidating,
     Verifying, ReworkContracting}

  function Successors(s: State): set<State> {
    match s
    case Created => {Planning, Cancelled}
    case Planning => {ContractValidating, Failed, Cancelled}
    case ContractValidating =>
      {AwaitingApproval, PreparingWorkspace, Planning, Failed, Cancelled}
    case AwaitingApproval => {PreparingWorkspace, Planning, Failed, Cancelled}
    case PreparingWorkspace => {Executing, RecoveryRequired, Failed, Cancelled}
    case Executing =>
      {FreezingResult, AwaitingApproval, RecoveryRequired, Failed, Cancelled}
    case FreezingResult => {HostValidating, RecoveryRequired, Failed, Cancelled}
    case HostValidating => {Verifying, RecoveryRequired, Failed, Cancelled}
    case Verifying =>
      {ReworkContracting, AwaitingManualReview, AwaitingFinalApproval, Failed, Cancelled}
    case ReworkContracting => {ContractValidating, Failed, Cancelled}
    case AwaitingManualReview =>
      {ReworkContracting, AwaitingFinalApproval, Failed, Cancelled}
    case AwaitingFinalApproval =>
      {ReadyForMerge, ReworkContracting, Failed, Cancelled}
    case RecoveryRequired => RECOVERY_RESTART_TARGETS + {Failed, Cancelled}
    case ReadyForMerge => {}
    case Failed => {}
    case Cancelled => {}
  }

  predicate CanTransition(current: State, target: State) {
    target in Successors(current)
  }

  const UNFINISHED: set<State> :=
    {Created, Planning, ContractValidating, AwaitingApproval, PreparingWorkspace, Executing, FreezingResult,
     HostValidating, Verifying, ReworkContracting, AwaitingManualReview, AwaitingFinalApproval, RecoveryRequired}

  /** The table read the other way: where each state is entered from. */
  function Predecessors(t: State): set<State> {
    match t
    case Created => {RecoveryRequired}
    case Planning => {Created, ContractValidating, AwaitingApproval, RecoveryRequired}
    case ContractValidating => {Planning, ReworkContracting, RecoveryRequired}
    case AwaitingApproval => {ContractValidating, Executing, RecoveryRequired}
    case PreparingWorkspace => {ContractValidating, AwaitingApproval, RecoveryRequired}
    case Executing => {PreparingWorkspace}
    case FreezingResult => {Executing, RecoveryRequired}
    case HostValidating => {FreezingResult, RecoveryRequired}
    case Verifying => {HostValidating, RecoveryRequired}
    case ReworkContracting => {Verifying, AwaitingManualReview, AwaitingFinalApproval, RecoveryRequired}
    case AwaitingManualReview => {Verifying, RecoveryRequired}
    case AwaitingFinalApproval => {Verifying, AwaitingManualReview, RecoveryRequired}
    case RecoveryRequired => {PreparingWorkspace, Executing, FreezingResult, HostValidating}
    case ReadyForMerge => {AwaitingFinalApproval}
    case Failed => UNFINISHED - {Created}
    case Cancelled => UNFINISHED
  }

  /** The two readings of the table agree. */
  lemma TableBothWays(s: State, t: State)
    ensures CanTransition(s, t) <==> s in Predecessors(t)
  {
  }

  /** A Run is finished exactly when no step leads on. */
  lemma TerminalMeans(s: State)
    ensures IsTerminal(s) <==> forall u :: !CanTransition(s, u)
    ensures IsTerminal(s) <==> s !in UNFINISHED
  {
    assert !IsTerminal(s) ==> CanTransition(s, Cancelled);
  }

  /* ---- Records ---------------------------------------------------------- */

  type Time = int

  datatype PendingKind = ApprovalPending | ManualReviewPending | FinalApprovalPending | RecoveryDecisionPending

  datatype PendingAction = PendingAction(kind: PendingKind, description: string, requestedAt: Time)

  datatype FailureCode =
    | PolicyHardDeny | PolicyDenied | SchemaInvalid | ExecutionFailed | TestFailed
    | ReworkExhausted | TimedOut | RunTimeout

  /** What a failure record names as the failing stage. */
  datatype Stage = During(state: State) | PolicyStage | ApprovalStage

  datatype FailureRecord = FailureRecord(
    failureId: string, runId: string, stage: Stage, code: FailureCode,
    retriable: bool, detail: string, occurredAt: Time)

  /** Usage so far. Costs are informational in the source and are left out. */
  datatype BudgetUsage = BudgetUsage(turnsUsed: nat, tokensUsed: nat, reworkUsed: nat)

  /** What may be spent on one Run or one contract. */
  datatype Budget = Budget(timeoutSeconds: nat, maxTurns: nat, maxReworkIterations: nat)

  datatype Run = Run(
    runId: string, repositoryId: string, state: State, stateVersion: nat,
    budgetUsed: BudgetUsage, disposition: Option<State>, createdAt: Time, updatedAt: Time)

  datatype Outcome = Outcome(run: Run, pending: Option<PendingAction>, failure: Option<FailureRecord>)

  datatype IllegalTransition =
    | FromTerminal | NotInTable
    | FailureMissing | FailureUnexpected
    | PendingMissing | PendingUnexpected

  /* ---- The kernel -------------------------------------------------------- */

  function ValidateTransition(current: State, target: State): (r: Result<(), IllegalTransition>)
    ensures r.Success? <==> CanTransition(current, target)
    ensures r == Failure(FromTerminal) <==> IsTerminal(current)
    ensures r == Failure(NotInTable) <==> !IsTerminal(current) && !CanTransition(current, target)
  {
    if IsTerminal(current) then Failure(FromTerminal)
    else if !CanTransition(current, target) then Failure(NotInTable)
    else Success(())
  }

  /** When the kernel accepts: the table allows the step, and the two side
      records are present exactly for the targets that need them. */
  predicate Accepts(current: State, target: State, hasFailure: bool, hasPending: bool) {
    && CanTransition(current, target)
    && (hasFailure <==> target == Failed)
    && (hasPending <==> IsWaiting(target))
  }

  function TransitionRun(
    run: Run, target: State, now: Time,
    failure: Option<FailureRecord>, pending: Option<PendingAction>
  ): (r: Result<Outcome, IllegalTransition>)
    ensures r.Success? <==> Accepts(run.state, target, failure.Some?, pending.Some?)
    ensures r.Success? ==>
              && r.value.run.stateVersion == run.stateVersion + 1
              && r.value.run.state == target
              && r.value.run.updatedAt == now
              && r.value.run.runId == run.runId
              && r.value.run.repositoryId == run.repositoryId
              && r.value.run.budgetUsed == run.budgetUsed
              && r.value.run.createdAt == run.createdAt
              && r.value.pending == pending && r.value.failure == failure
              && (IsTerminal(target) ==> r.value.run.disposition == Some(target))
              && (!IsTerminal(target) ==> r.value.run.disposition == run.disposition)
    ensures r.Failure? && CanTransition(run.state, target) ==>
              && (r.error == FailureMissing <==> target == Failed && failure.None?)
              && (r.error == FailureUnexpected <==> target != Failed && failure.Some?)
              && (r.error == PendingMissing <==> (failure.Some? <==> target == Failed) && IsWaiting(target))
              && (r.error == PendingUnexpected <==> (failure.Some? <==> target == Failed) && !IsWaiting(target))
    ensures !CanTransition(run.state, target) ==>
              r == Failure(if IsTerminal(run.state) then FromTerminal else NotInTable)
  {
    var _ :- ValidateTransition(run.state, target);
    if target == Failed && failure.None? then Failure(FailureMissing)
    else if target != Failed && failure.Some? then Failure(FailureUnexpected)
    else if IsWaiting(target) && pending.None? then Failure(PendingMissing)
    else if !IsWaiting(target) && pending.Some? then Failure(PendingUnexpected)
    else
      var moved := run.(state := target, stateVersion := run.stateVersion + 1, updatedAt := now);
      Success(Outcome(
        if IsTerminal(target) then moved.(disposition := Some(target)) else moved,
        pending, failure))
  }

  /* ---- Whole histories --------------------------------------------------- */

  /** A history is the list of states a Run goes through, oldest first. */
  ghost predicate Legal(h: seq<State>) {
    forall i, j :: 0 <= i < j < |h| && j == i + 1 ==> CanTransition(h[i], h[j])
  }

  /** The first `k` states of `chain` occur in `h[lo..hi]`, in that order. */
  predicate Visits(chain: seq<State>, k: nat, h: seq<State>, lo: nat, hi: nat)
    requires k <= |chain| && hi <= |h|
    decreases hi
  {
    if k == 0 then true
    else if hi <= lo then false
    else
      || (h[hi - 1] == chain[k - 1] && Visits(chain, k - 1, h, lo, hi - 1))
      || Visits(chain, k, h, lo, hi - 1)
  }

  ghost predicate RecoveredIn(h: seq<State>, lo: nat, hi: nat)
    requires hi <= |h|
  {
    exists k :: lo <= k < hi && h[k] == RecoveryRequired
  }

  /** Everything a Run has to go through, in order, to be mergeable. */
  const MERGE_CHAIN: seq<State> :=
    [ContractValidating, PreparingWorkspace, Executing, FreezingResult,
     HostValidating, Verifying, AwaitingFinalApproval, ReadyForMerge]

  lemma {:induction false} VisitsLater(chain: seq<State>, k: nat, h: seq<State>, lo: nat, hi: nat, later: nat)
    requires k <= |chain| && hi <= later <= |h| && Visits(chain, k, h, lo, hi)
    ensures Visits(chain, k, h, lo, later)
  {
    if hi < later {
      VisitsLater(chain, k, h, lo, hi, later - 1);
    }
  }

  lemma VisitsNext(chain: seq<State>, k: nat, h: seq<State>, lo: nat, hi: nat, j: nat)
    requires k < |chain| && lo <= hi <= j < |h| && Visits(chain, k, h, lo, hi)
    requires h[j] == chain[k]
    ensures Visits(chain, k + 1, h, lo, j + 1)
  {
    VisitsLater(chain, k, h, lo, hi, j);
  }

  /* ---- What a resumed Run may skip ----------------------------------------- */

  /** How many states of the chain a Run in state `s` has behind it, itself included. */
  function Behind(s: State): nat {
    match s
    case ContractValidating => 1
    case AwaitingApproval => 1
    case PreparingWorkspace => 2
    case Executing => 3
    case FreezingResult => 4
    case HostValidating => 5
    case Verifying => 6
    case AwaitingManualReview => 6
    case AwaitingFinalApproval => 7
    case ReadyForMerge => 8
    case _ => 0
  }

  /** Resuming a Run at `t` that was interrupted in `s` skips nothing: it goes back,
      or stays, or goes on to the very next state of the chain. */
  predicate Harmless(s: State, t: State) {
    Behind(t) <= Behind(s) || (Behind(t) == Behind(s) + 1 && t != AwaitingManualReview)
  }

  /** After index `i` the Run is interrupted and resumed at `h[i + 2]`. */
  predicate ResumedAfter(h: seq<State>, i: nat) {
    i + 2 < |h| && h[i + 1] == RecoveryRequired
  }

  predicate HarmedAfter(h: seq<State>, i: nat) {
    ResumedAfter(h, i) && !Harmless(h[i], h[i + 2])
  }

  lemma {:induction false} VisitsFewer(chain: seq<State>, k: nat, j: nat, h: seq<State>, lo: nat, hi: nat)
    requires j <= k <= |chain| && hi <= |h| && Visits(chain, k, h, lo, hi)
    ensures Visits(chain, j, h, lo, hi)
    decreases hi
  {
    if 0 < j < k {
      if h[hi - 1] == chain[k - 1] && Visits(chain, k - 1, h, lo, hi - 1) {
        VisitsFewer(chain, k - 1, j, h, lo, hi - 1);
      } else {
        VisitsFewer(chain, k, j, h, lo, hi - 1);
      }
      VisitsLater(chain, j, h, lo, hi - 1, hi);
    }
  }

  /** One step to a state with at most one more state of the chain behind it. */
  lemma BehindStep(h: seq<State>, lo: nat, i: nat, j: nat)
    requires lo <= i + 1 <= j < |h| && Visits(MERGE_CHAIN, Behind(h[i]), h, lo, i + 1)
    requires Behind(h[j]) <= Behind(h[i])
             || (Behind(h[i]) < |MERGE_CHAIN| && h[j] == MERGE_CHAIN[Behind(h[i])] && Behind(h[j]) == Behind(h[i]) + 1)
    ensures Visits(MERGE_CHAIN, Behind(h[j]), h, lo, j + 1)
  {
    hide Visits;
    if Behind(h[j]) <= Behind(h[i]) {
      VisitsFewer(MERGE_CHAIN, Behind(h[i]), Behind(h[j]), h, lo, i + 1);
      VisitsLater(MERGE_CHAIN, Behind(h[j]), h, lo, i + 1, j + 1);
    } else {
      VisitsNext(MERGE_CHAIN, Behind(h[i]), h, lo, i + 1, j);
    }
  }

  /** A listed step, or a harmless resumption, gains at most the next state. */
  lemma StepGainsOne(s: State, t: State)
    requires CanTransition(s, t) && s != RecoveryRequired && t != RecoveryRequired
    ensures Behind(t) <= Behind(s)
            || (Behind(s) < |MERGE_CHAIN| && t == MERGE_CHAIN[Behind(s)] && Behind(t) == Behind(s) + 1)
  {
  }

  lemma ResumptionGainsOne(s: State, t: State)
    requires CanTransition(s, RecoveryRequired) && CanTransition(RecoveryRequired, t) && Harmless(s, t)
    ensures Behind(t) <= Behind(s)
            || (Behind(s) < |MERGE_CHAIN| && t == MERGE_CHAIN[Behind(s)] && Behind(t) == Behind(s) + 1)
  {
  }

  /** Without a harmful resumption every state has its part of the chain behind it. */
  lemma {:induction false} BehindIsVisited(h: seq<State>, r: nat, i: nat)
    requires Legal(h) && r <= i < |h| && h[r] in {Created, Planning, ReworkContracting}
    requires h[i] != RecoveryRequired && forall j: nat :: r <= j <= i - 2 ==> !HarmedAfter(h, j)
    ensures Visits(MERGE_CHAIN, Behind(h[i]), h, r + 1, i + 1)
  {
    hide Visits, Behind, Harmless;
    if i == r {
      NothingBehind(h, r);
    } else if h[i - 1] != RecoveryRequired {
      assert CanTransition(h[i - 1], h[i]);
      BehindIsVisited(h, r, i - 1);
      StepGainsOne(h[i - 1], h[i]);
      BehindStep(h, r + 1, i - 1, i);
    } else {
      assert CanTransition(h[i - 1], h[i]) && CanTransition(h[i - 2], h[i - 1]);
      BehindIsVisited(h, r, i - 2);
      assert !HarmedAfter(h, i - 2);
      ResumptionGainsOne(h[i - 2], h[i]);
      BehindStep(h, r + 1, i - 2, i);
    }
  }

  lemma NothingBehind(h: seq<State>, r: nat)
    requires r < |h| && h[r] in {Created, Planning, ReworkContracting}
    ensures Visits(MERGE_CHAIN, Behind(h[r]), h, r + 1, r + 1)
  {
  }

  lemma NeverHarmed(h: seq<State>, r: nat, i: nat)
    requires r <= i < |h| && !RecoveredIn(h, r, i)
    ensures forall j: nat :: r <= j <= i - 2 ==> !HarmedAfter(h, j)
  {
  }

  /** Without recovery, a prepared workspace always comes after a contract
      validation since the point `r` the walk set out from. */
  lemma PreparedOnlyAfterValidation(h: seq<State>, r: nat, i: nat)
    requires Legal(h) && r < i < |h|
    requires h[r] in {Created, Planning, ReworkContracting}
    requires !RecoveredIn(h, r, i)
    requires h[i] == PreparingWorkspace
    ensures Visits(MERGE_CHAIN, 2, h, r + 1, i + 1)
  {
    hide Visits, Legal;
    NeverHarmed(h, r, i);
    BehindIsVisited(h, r, i);
  }

  lemma WorkBeforeFinalApproval(h: seq<State>, r: nat, a: nat)
    requires Legal(h) && r < a < |h| && h[a] == AwaitingFinalApproval
    requires h[r] in {Created, Planning, ReworkContracting}
    requires !RecoveredIn(h, r, a)
    ensures Visits(MERGE_CHAIN, 7, h, r + 1, a + 1)
  {
    hide Visits, Legal;
    NeverHarmed(h, r, a);
    BehindIsVisited(h, r, a);
  }

  /** A history ends merged, its Run is (re)contracted at index `r`, and it is
      resumed only as `allowed` lists: where it was interrupted, and where to. */
  ghost predicate MergedFrom(h: seq<State>, r: nat, allowed: set<(State, State)>) {
    && Legal(h) && r < |h| - 1 && h[|h| - 1] == ReadyForMerge && h[r] in {Created, Planning, ReworkContracting}
    && forall i: nat :: ResumedAfter(h, i) ==> (h[i], h[i + 2]) in allowed
  }

  /** Every merge re-does the work: whatever happened before, a Run that is
      (re)contracted at index `r` reaches ReadyForMerge only by validating the
      contract, preparing, executing, freezing, validating on the host,
      verifying and asking for final approval again, in that order, unless an
      operator resumed it further on in the chain than it had come. */
  lemma MergeRepeatsTheChain(h: seq<State>, r: nat)
    requires Legal(h) && r < |h| - 1 && h[|h| - 1] == ReadyForMerge
    requires h[r] in {Created, Planning, ReworkContracting}
    ensures Visits(MERGE_CHAIN, |MERGE_CHAIN|, h, r + 1, |h|) || exists i: nat :: r <= i && HarmedAfter(h, i)
  {
    if forall i: nat :: r <= i ==> !HarmedAfter(h, i) {
      BehindIsVisited(h, r, |h| - 1);
    }
  }

  /** Straight from the start to the state a Run is interrupted in. */
  function WayIn(s: State): seq<State> {
    match s
    case Executing => [Created, Planning, ContractValidating, PreparingWorkspace, Executing]
    case FreezingResult => [Created, Planning, ContractValidating, PreparingWorkspace, Executing, FreezingResult]
    case HostValidating =>
      [Created, Planning, ContractValidating, PreparingWorkspace, Executing, FreezingResult, HostValidating]
    case _ => [Created, Planning, ContractValidating, PreparingWorkspace]
  }

  /** Straight from the state it is resumed in to the merge. */
  function WayOn(t: State): seq<State> {
    match t
    case FreezingResult => [FreezingResult, HostValidating, Verifying, AwaitingFinalApproval, ReadyForMerge]
    case HostValidating => [HostValidating, Verifying, AwaitingFinalApproval, ReadyForMerge]
    case Verifying => [Verifying, AwaitingFinalApproval, ReadyForMerge]
    case AwaitingManualReview => [AwaitingManualReview, AwaitingFinalApproval, ReadyForMerge]
    case _ => [AwaitingFinalApproval, ReadyForMerge]
  }

  function ShortCut(s: State, t: State): seq<State> {
    WayIn(s) + [RecoveryRequired] + WayOn(t)
  }

  lemma LegalJoin(a: seq<State>, b: seq<State>)
    requires Legal(a) && Legal(b) && a != [] && b != [] && CanTransition(a[|a| - 1], b[0])
    ensures Legal(a + b)
  {
    var h := a + b;
    forall i, j | 0 <= i < j < |h| && j == i + 1 ensures CanTransition(h[i], h[j]) {
      if j < |a| {
        assert h[i] == a[i] && h[j] == a[j];
      } else if i >= |a| {
        assert h[i] == b[i - |a|] && h[j] == b[j - |a|];
      }
    }
  }

  lemma WayInFits(s: State)
    requires CanTransition(s, RecoveryRequired)
    ensures var a := WayIn(s);
            && a != [] && Legal(a) && a[0] == Created && a[|a| - 1] == s && RecoveryRequired !in a
            && Behind(s) < |MERGE_CHAIN| && MERGE_CHAIN[Behind(s)] !in a
  {
  }

  lemma WayOnFits(s: State, t: State)
    requires CanTransition(s, RecoveryRequired) && t in RECOVERY_RESTART_TARGETS && !Harmless(s, t)
    ensures var b := WayOn(t);
            && b != [] && Legal(b) && b[0] == t && b[|b| - 1] == ReadyForMerge && RecoveryRequired !in b
            && MERGE_CHAIN[Behind(s)] !in b
  {
  }

  lemma {:induction false} VisitsNeeds(chain: seq<State>, k: nat, j: nat, h: seq<State>, lo: nat, hi: nat)
    requires j < k <= |chain| && hi <= |h| && Visits(chain, k, h, lo, hi)
    ensures chain[j] in h
    decreases hi
  {
    if h[hi - 1] == chain[k - 1] && Visits(chain, k - 1, h, lo, hi - 1) {
      if j < k - 1 {
        VisitsNeeds(chain, k - 1, j, h, lo, hi - 1);
      }
    } else {
      VisitsNeeds(chain, k, j, h, lo, hi - 1);
    }
  }

  lemma ResumesOnce(a: seq<State>, b: seq<State>, i: nat)
    requires a != [] && b != [] && RecoveryRequired !in a && RecoveryRequired !in b
    requires ResumedAfter(a + [RecoveryRequired] + b, i)
    ensures i == |a| - 1
  {
    var h := a + [RecoveryRequired] + b;
    forall k | 0 <= k < |h| ensures h[k] == RecoveryRequired ==> k == |a| {
    }
  }

  lemma ShortCutMerges(s: State, t: State)
    requires CanTransition(s, RecoveryRequired) && t in RECOVERY_RESTART_TARGETS && !Harmless(s, t)
    ensures MergedFrom(ShortCut(s, t), 0, {(s, t)}) && ShortCut(s, t)[0] == Created
  {
    hide Legal, WayIn, WayOn, Behind, Harmless;
    var a, b, h := WayIn(s), WayOn(t), ShortCut(s, t);
    WayInFits(s);
    WayOnFits(s, t);
    OneIsLegal(RecoveryRequired);
    LegalJoin(a, [RecoveryRequired]);
    LegalJoin(a + [RecoveryRequired], b);
    forall i: nat | ResumedAfter(h, i) ensures (h[i], h[i + 2]) == (s, t) {
      ResumesOnce(a, b, i);
    }
  }

  /** A harmful resumption gives a history that ends merged and never was in the
      state of the chain that came next. */
  lemma ShortCutSkips(s: State, t: State)
    requires CanTransition(s, RecoveryRequired) && t in RECOVERY_RESTART_TARGETS && !Harmless(s, t)
    ensures MergedFrom(ShortCut(s, t), 0, {(s, t)}) && ShortCut(s, t)[0] == Created
    ensures Behind(s) < |MERGE_CHAIN| && MERGE_CHAIN[Behind(s)] !in ShortCut(s, t)
    ensures !Visits(MERGE_CHAIN, |MERGE_CHAIN|, ShortCut(s, t), 1, |ShortCut(s, t)|)
  {
    hide Visits, MergedFrom, WayIn, WayOn, Behind, Harmless, Legal;
    ShortCutMerges(s, t);
    WayInFits(s);
    WayOnFits(s, t);
    var h := ShortCut(s, t);
    if Visits(MERGE_CHAIN, |MERGE_CHAIN|, h, 1, |h|) {
      VisitsNeeds(MERGE_CHAIN, |MERGE_CHAIN|, Behind(s), h, 1, |h|);
    }
  }

  lemma OneIsLegal(s: State)
    ensures Legal([s])
  {
  }

  /** Whatever resumptions are allowed, every merged history repeats the whole
      chain after every (re)contracting if and only if each of them is harmless. */
  lemma ChainRepeatsExactly(allowed: set<(State, State)>)
    requires forall p <- allowed :: CanTransition(p.0, RecoveryRequired) && p.1 in RECOVERY_RESTART_TARGETS
    ensures (forall h, r: nat :: MergedFrom(h, r, allowed) ==> Visits(MERGE_CHAIN, |MERGE_CHAIN|, h, r + 1, |h|))
            <==> forall p <- allowed :: Harmless(p.0, p.1)
  {
    hide Visits, Legal, Behind, Harmless, ShortCut;
    if forall p <- allowed :: Harmless(p.0, p.1) {
      forall h, r: nat | MergedFrom(h, r, allowed) ensures Visits(MERGE_CHAIN, |MERGE_CHAIN|, h, r + 1, |h|) {
        MergeRepeatsTheChain(h, r);
        assert forall i: nat :: HarmedAfter(h, i) ==> ResumedAfter(h, i);
      }
    } else {
      var p :| p in allowed && !Harmless(p.0, p.1);
      ShortCutSkips(p.0, p.1);
      assert MergedFrom(ShortCut(p.0, p.1), 0, allowed);
    }
  }

  /** The worst of them: resumed at final approval, a Run is merged that never
      executes, freezes, validates or verifies anything. */
  lemma RecoveryCanSkipTheChain() returns (h: seq<State>)
    ensures MergedFrom(h, 0, {(PreparingWorkspace, AwaitingFinalApproval)}) && h[0] == Created
    ensures Executing !in h && Verifying !in h
    ensures !Visits(MERGE_CHAIN, |MERGE_CHAIN|, h, 1, |h|)
  {
    h := ShortCut(PreparingWorkspace, AwaitingFinalApproval);
    ShortCutSkips(PreparingWorkspace, AwaitingFinalApproval);
  }

  /** With recovery allowed too: execution is entered only from a prepared
      workspace, a finished Run is finished for good, a Run is never failed
      straight out of Created, and the only ways into RecoveryRequired are the
      four states that hold a host-side resource. */
  lemma EntriesOfAHistory(h: seq<State>, i: nat)
    requires Legal(h) && 0 < i < |h|
    ensures h[i] == Executing ==> h[i - 1] == PreparingWorkspace
    ensures h[i] == ReadyForMerge ==> h[i - 1] == AwaitingFinalApproval
    ensures h[i] == RecoveryRequired ==>
              h[i - 1] in {PreparingWorkspace, Executing, FreezingResult, HostValidating}
    ensures h[i] == Failed ==> h[i - 1] != Created
    ensures IsTerminal(h[i]) ==> i == |h| - 1
  {
    assert CanTransition(h[i - 1], h[i]);
    if i < |h| - 1 {
      assert CanTransition(h[i], h[i + 1]);
    }
  }
}
