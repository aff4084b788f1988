/** The policy engine: what a request is granted under the administrator's ceiling
    (policy/evaluator.py, policy/commands.py), which approvals can settle it
    (policy/approvals.py), and how requests merge across rework rounds
    (application/orchestrator.py). */
module Policy {
  import opened Wrappers
  import opened Lifecycle
  import opened Scope

  datatype Access = NoAccess | ReadOnly | ReadWrite

  function AccessRank(a: Access): nat {
    match a
    case NoAccess => 0
    case ReadOnly => 1
    case ReadWrite => 2
  }

  datatype Capabilities = Capabilities(
    access: Access, commands: set<string>, rawShell: bool, domains: set<string>,
    packageInstall: bool, external: set<string>, mcpTools: set<string>, databases: set<string>)

  datatype Ceiling = Ceiling(
    scope: ScopeRules, commands: set<string>, rawShell: bool, domains: set<string>,
    packageInstall: bool, external: set<string>, mcpTools: set<string>, databases: set<string>,
    budget: Budget)

  /** Link-local metadata endpoints, denied in code whatever the ceiling says. */
  const HARD_DENIED_DOMAINS: set<string> :=
    {"169.254.169.254", "metadata.google.internal", "metadata.azure.com", "fd00:ec2::254"}

  /** The kinds of denial, each with the items at fault. */
  datatype Denials = Denials(
    metadataEndpoints: set<string>, commands: set<string>, domains: set<string>, mcpTools: set<string>,
    external: set<string>, databases: set<string>, rawShell: bool, packageInstall: bool)

  const NO_DENIALS := Denials({}, {}, {}, {}, {}, {}, false, false)

  /** The approval-gated capabilities. */
  datatype Gate = NetworkGate | PackageGate | ShellGate | McpGate | ExternalGate | DatabaseGate

  datatype PolicyOutcome = Allow | RequireApproval | Deny

  datatype Grants = Grants(
    pathRules: ScopeRules, commands: set<string>, access: Access, domains: set<string>,
    packages: set<string>, mcpTools: set<string>, external: set<string>, budget: Budget)

  /** What a decision is about. */
  datatype Subject =
    | ContractSubject(id: string, digest: string)
    | ReworkSubject(id: string, digest: string)

  datatype DecisionBody = DecisionBody(
    decisionId: string, subject: Subject, outcome: PolicyOutcome, grants: Grants,
    denials: Denials, requirements: seq<Gate>, evaluatedAt: Time)

  /** A decision sealed with the digest of its body. */
  datatype Decision = Decision(body: DecisionBody, digest: string)

  type Sealer = DecisionBody -> string

  /* ---- evaluate_policy ------------------------------------------------------------------ */

  /** A requested set of items splits, without overlap, into those granted and
      those named by denials. */
  predicate Splits(requested: set<string>, granted: set<string>, denied: set<string>) {
    requested == granted + denied && granted !! denied
  }

  /** The request asks for nothing the ceiling or the hard-coded list refuses. */
  predicate WithinCeiling(c: Capabilities, ceiling: Ceiling) {
    && c.commands <= ceiling.commands
    && c.domains <= ceiling.domains - HARD_DENIED_DOMAINS
    && c.mcpTools <= ceiling.mcpTools
    && c.external <= ceiling.external
    && c.databases <= ceiling.databases
    && (c.rawShell ==> ceiling.rawShell)
    && (c.packageInstall ==> ceiling.packageInstall)
  }

  /** The request uses a capability that a human has to approve. */
  predicate Uses(c: Capabilities, gate: Gate) {
    match gate
    case NetworkGate => c.domains != {}
    case PackageGate => c.packageInstall
    case ShellGate => c.rawShell
    case McpGate => c.mcpTools != {}
    case ExternalGate => c.external != {}
    case DatabaseGate => c.databases != {}
  }

  /** The fixed order of the gates. */
  function GateRank(gate: Gate): nat {
    match gate
    case NetworkGate => 0
    case PackageGate => 1
    case ShellGate => 2
    case McpGate => 3
    case ExternalGate => 4
    case DatabaseGate => 5
  }

  ghost predicate InGateOrder(gates: seq<Gate>) {
    forall i, j :: 0 <= i < j < |gates| ==> GateRank(gates[i]) < GateRank(gates[j])
  }

  predicate NeedsApproval(c: Capabilities) {
    || Uses(c, NetworkGate) || Uses(c, PackageGate) || Uses(c, ShellGate)
    || Uses(c, McpGate) || Uses(c, ExternalGate) || Uses(c, DatabaseGate)
  }

  function OutcomeOf(c: Capabilities, ceiling: Ceiling): PolicyOutcome {
    if !WithinCeiling(c, ceiling) then Deny else if NeedsApproval(c) then RequireApproval else Allow
  }

  /** Nothing above the ceiling is ever granted, denied request or not. */
  predicate GrantsBounded(g: Grants, scope: ScopeRules, ceiling: Ceiling) {
    && g.pathRules == IntersectScope(scope, ceiling.scope)
    && g.commands <= ceiling.commands
    && g.domains <= ceiling.domains - HARD_DENIED_DOMAINS
    && g.mcpTools <= ceiling.mcpTools
    && g.external <= ceiling.external
    && (g.packages != {} ==> ceiling.packageInstall) && g.packages <= {"package_install"}
    && g.budget == ceiling.budget
  }

  /** Exactly what was asked for. */
  predicate GrantsExactly(g: Grants, c: Capabilities) {
    && g.commands == c.commands && g.domains == c.domains
    && g.mcpTools == c.mcpTools && g.external == c.external && g.access == c.access
    && (g.packages != {} <==> c.packageInstall)
  }

  /** What the engine promises about a decision: every requested item is granted
      or named in a denial, never both; the outcome is DENY exactly for a request
      above the ceiling, and then for a stated reason; anything else grants
      exactly what was asked. */
  ghost predicate Decided(b: DecisionBody, c: Capabilities, scope: ScopeRules, ceiling: Ceiling) {
    && b.outcome == OutcomeOf(c, ceiling)
    && (b.outcome == Deny <==> b.denials != NO_DENIALS)
    && RequirementsFit(b, c)
    && GrantsBounded(b.grants, scope, ceiling)
    && (b.outcome != Deny ==> GrantsExactly(b.grants, c))
    && ItemsSplit(b, c, ceiling)
    && b.grants.access == c.access
    && b.denials.rawShell == (c.rawShell && !ceiling.rawShell)
    && b.denials.packageInstall == (c.packageInstall && !ceiling.packageInstall)
  }

  /** A human is asked about exactly the gated capabilities in use, each once and in
      the fixed order. */
  ghost predicate RequirementsFit(b: DecisionBody, c: Capabilities) {
    && InGateOrder(b.requirements)
    && (b.outcome == RequireApproval <==> b.requirements != [])
    && (forall gate :: gate in b.requirements <==> b.outcome != Deny && Uses(c, gate))
  }

  predicate ItemsSplit(b: DecisionBody, c: Capabilities, ceiling: Ceiling) {
    && Splits(c.commands, b.grants.commands, b.denials.commands)
    && Splits(c.mcpTools, b.grants.mcpTools, b.denials.mcpTools)
    && Splits(c.external, b.grants.external, b.denials.external)
    && Splits(c.domains, b.grants.domains, b.denials.domains + b.denials.metadataEndpoints)
    && Splits(c.domains - b.grants.domains, b.denials.domains, b.denials.metadataEndpoints)
    && b.denials.metadataEndpoints <= HARD_DENIED_DOMAINS
    && b.denials.databases == c.databases - ceiling.databases
  }

  lemma DeniedExactlyAboveCeiling(c: Capabilities, ceiling: Ceiling, d: Denials)
    requires d == Denials(
               c.domains * HARD_DENIED_DOMAINS, c.commands - ceiling.commands,
               c.domains - HARD_DENIED_DOMAINS - ceiling.domains, c.mcpTools - ceiling.mcpTools,
               c.external - ceiling.external, c.databases - ceiling.databases,
               c.rawShell && !ceiling.rawShell, c.packageInstall && !ceiling.packageInstall)
    ensures d == NO_DENIALS <==> WithinCeiling(c, ceiling)
  {
    NothingLeft(c.commands, ceiling.commands);
    NothingLeft(c.mcpTools, ceiling.mcpTools);
    NothingLeft(c.external, ceiling.external);
    NothingLeft(c.databases, ceiling.databases);
    NothingLeft(c.domains, ceiling.domains - HARD_DENIED_DOMAINS);
    assert c.domains - (ceiling.domains - HARD_DENIED_DOMAINS) == d.metadataEndpoints + d.domains;
  }

  lemma NothingLeft(requested: set<string>, allowed: set<string>)
    ensures requested - allowed == {} <==> requested <= allowed
  {
    forall x <- requested ensures x in requested - allowed <==> x !in allowed {
    }
  }

  /** The denials, grants and requirements the engine computes make a decision
      that keeps its promises. */
  lemma ThusDecided(b: DecisionBody, c: Capabilities, scope: ScopeRules, ceiling: Ceiling)
    requires b.denials == Denials(
               c.domains * HARD_DENIED_DOMAINS, c.commands - ceiling.commands,
               c.domains - HARD_DENIED_DOMAINS - ceiling.domains, c.mcpTools - ceiling.mcpTools,
               c.external - ceiling.external, c.databases - ceiling.databases,
               c.rawShell && !ceiling.rawShell, c.packageInstall && !ceiling.packageInstall)
    requires b.grants == Grants(
               IntersectScope(scope, ceiling.scope), c.commands * ceiling.commands, c.access,
               (c.domains - HARD_DENIED_DOMAINS) * ceiling.domains,
               if c.packageInstall && ceiling.packageInstall then {"package_install"} else {},
               c.mcpTools * ceiling.mcpTools, c.external * ceiling.external, ceiling.budget)
    requires if b.denials == NO_DENIALS
             then && b.requirements == ActiveGates(c, ceiling, b.grants, 0)
                  && b.outcome == if b.requirements != [] then RequireApproval else Allow
             else b.requirements == [] && b.outcome == Deny
    ensures Decided(b, c, scope, ceiling)
  {
    hide ItemsSplit, GrantsBounded, GrantsExactly, ActiveGates, RequirementsFit, OutcomeOf;
    DeniedExactlyAboveCeiling(c, ceiling, b.denials);
    BoundedGrants(c, scope, ceiling, b.grants);
    ItemsAreSplit(b, c, ceiling);
    RequirementsAreRight(b, c, ceiling);
  }

  lemma RequirementsAreRight(b: DecisionBody, c: Capabilities, ceiling: Ceiling)
    requires b.denials == NO_DENIALS <==> WithinCeiling(c, ceiling)
    requires b.denials == NO_DENIALS ==> GrantsExactly(b.grants, c)
    requires if b.denials == NO_DENIALS
             then && b.requirements == ActiveGates(c, ceiling, b.grants, 0)
                  && b.outcome == if b.requirements != [] then RequireApproval else Allow
             else b.requirements == [] && b.outcome == Deny
    ensures RequirementsFit(b, c) && b.outcome == OutcomeOf(c, ceiling)
    ensures b.outcome == Deny <==> b.denials != NO_DENIALS
  {
    hide NO_DENIALS, ActiveGates;
    assert c.databases <= ceiling.databases ==> c.databases * ceiling.databases == c.databases;
    NonEmpty(b.requirements);
  }

  lemma ItemsAreSplit(b: DecisionBody, c: Capabilities, ceiling: Ceiling)
    requires b.grants.commands == c.commands * ceiling.commands && b.denials.commands == c.commands - ceiling.commands
    requires b.grants.mcpTools == c.mcpTools * ceiling.mcpTools && b.denials.mcpTools == c.mcpTools - ceiling.mcpTools
    requires b.grants.external == c.external * ceiling.external && b.denials.external == c.external - ceiling.external
    requires b.grants.domains == (c.domains - HARD_DENIED_DOMAINS) * ceiling.domains
    requires b.denials.domains == c.domains - HARD_DENIED_DOMAINS - ceiling.domains
    requires b.denials.metadataEndpoints == c.domains * HARD_DENIED_DOMAINS
    requires b.denials.databases == c.databases - ceiling.databases
    ensures ItemsSplit(b, c, ceiling)
  {
    hide HARD_DENIED_DOMAINS;
  }

  /** A list of gates is empty exactly when it has none of the six. */
  lemma NonEmpty(gates: seq<Gate>)
    ensures gates != [] <==> || NetworkGate in gates || PackageGate in gates || ShellGate in gates
                             || McpGate in gates || ExternalGate in gates || DatabaseGate in gates
  {
    if gates != [] {
      var g := gates[0];
      assert g in gates;
      match g
      case NetworkGate => assert NetworkGate in gates;
      case PackageGate => assert PackageGate in gates;
      case ShellGate => assert ShellGate in gates;
      case McpGate => assert McpGate in gates;
      case ExternalGate => assert ExternalGate in gates;
      case DatabaseGate => assert DatabaseGate in gates;
    }
  }

  /** `evaluate_policy` */
  method EvaluatePolicy(decisionId: string, subject: Subject, c: Capabilities, scope: ScopeRules,
                        ceiling: Ceiling, now: Time, seal: Sealer)
    returns (d: Decision)
    ensures Decided(d.body, c, scope, ceiling)
    ensures d.digest == seal(d.body) && d.body.subject == subject && d.body.decisionId == decisionId
    ensures d.body.evaluatedAt == now
  {
    hide Decided, GrantsBounded, GrantsExactly, WithinCeiling, Uses, IntersectScope;
    var denials := NO_DENIALS;
    denials := denials.(metadataEndpoints := c.domains * HARD_DENIED_DOMAINS);
    if c.rawShell && !ceiling.rawShell {
      denials := denials.(rawShell := true);
    }
    var effectiveScope := IntersectScope(scope, ceiling.scope);
    denials := denials.(commands := c.commands - ceiling.commands);
    var grantable := c.domains - HARD_DENIED_DOMAINS;
    denials := denials.(domains := grantable - ceiling.domains);
    denials := denials.(mcpTools := c.mcpTools - ceiling.mcpTools);
    denials := denials.(external := c.external - ceiling.external);
    denials := denials.(databases := c.databases - ceiling.databases);
    var packageInstallGranted := c.packageInstall && ceiling.packageInstall;
    if c.packageInstall && !ceiling.packageInstall {
      denials := denials.(packageInstall := true);
    }
    var grants := Grants(
      effectiveScope, c.commands * ceiling.commands, c.access, grantable * ceiling.domains,
      if packageInstallGranted then {"package_install"} else {},
      c.mcpTools * ceiling.mcpTools, c.external * ceiling.external, ceiling.budget);

    var requirements := [];
    var outcome := Deny;
    if denials == NO_DENIALS {
      requirements := ActiveGates(c, ceiling, grants, 0);
      outcome := if requirements != [] then RequireApproval else Allow;
    }
    var body := DecisionBody(decisionId, subject, outcome, grants, denials, requirements, now);
    ThusDecided(body, c, scope, ceiling);
    d := Decision(body, seal(body));
  }

  const GATES: seq<Gate> := [NetworkGate, PackageGate, ShellGate, McpGate, ExternalGate, DatabaseGate]

  /** The flag of a gate, from what has been granted. */
  predicate IsActive(gate: Gate, c: Capabilities, ceiling: Ceiling, g: Grants) {
    match gate
    case NetworkGate => g.domains != {}
    case PackageGate => c.packageInstall && ceiling.packageInstall
    case ShellGate => c.rawShell
    case McpGate => g.mcpTools != {}
    case ExternalGate => g.external != {}
    case DatabaseGate => c.databases * ceiling.databases != {}
  }

  /** The gates whose flag is set, from number `k` on. */
  function ActiveGates(c: Capabilities, ceiling: Ceiling, g: Grants, k: nat): (gates: seq<Gate>)
    requires k <= |GATES|
    ensures forall gate :: gate in gates <==> k <= GateRank(gate) && IsActive(gate, c, ceiling, g)
    ensures InGateOrder(gates)
    decreases |GATES| - k
  {
    if k == |GATES| then []
    else if IsActive(GATES[k], c, ceiling, g) then
      var later := ActiveGates(c, ceiling, g, k + 1);
      assert forall i :: 0 <= i < |later| ==> later[i] in later;
      [GATES[k]] + later
    else ActiveGates(c, ceiling, g, k + 1)
  }

  /** Granting the requested part of the ceiling stays below the ceiling, and
      grants all of a request that does. */
  lemma BoundedGrants(c: Capabilities, scope: ScopeRules, ceiling: Ceiling, g: Grants)
    requires g == Grants(
               IntersectScope(scope, ceiling.scope), c.commands * ceiling.commands, c.access,
               (c.domains - HARD_DENIED_DOMAINS) * ceiling.domains,
               if c.packageInstall && ceiling.packageInstall then {"package_install"} else {},
               c.mcpTools * ceiling.mcpTools, c.external * ceiling.external, ceiling.budget)
    ensures GrantsBounded(g, scope, ceiling)
    ensures WithinCeiling(c, ceiling) ==> GrantsExactly(g, c)
    ensures c.domains - g.domains
            == c.domains * HARD_DENIED_DOMAINS + (c.domains - HARD_DENIED_DOMAINS - ceiling.domains)
  {
    var none: set<string> := {};
    assert "package_install" in {"package_install"} && {"package_install"} != none;
  }

  /* ---- Merging requests across rework rounds ------------------------------------------------ */

  /** `_merge_requested_capabilities` */
  function MergeCapabilities(base: Capabilities, additional: Capabilities): Capabilities {
    Capabilities(
      if AccessRank(additional.access) > AccessRank(base.access) then additional.access else base.access,
      base.commands + additional.commands, base.rawShell || additional.rawShell,
      base.domains + additional.domains, base.packageInstall || additional.packageInstall,
      base.external + additional.external, base.mcpTools + additional.mcpTools,
      base.databases + additional.databases)
  }

  predicate AsksNoMore(a: Capabilities, b: Capabilities) {
    && AccessRank(a.access) <= AccessRank(b.access)
    && a.commands <= b.commands && a.domains <= b.domains && a.external <= b.external
    && a.mcpTools <= b.mcpTools && a.databases <= b.databases
    && (a.rawShell ==> b.rawShell) && (a.packageInstall ==> b.packageInstall)
  }

  /** The merge asks for no more than is needed to cover both requests. */
  lemma MergeIsJoin(a: Capabilities, b: Capabilities, c: Capabilities)
    ensures AsksNoMore(MergeCapabilities(a, b), c) <==> AsksNoMore(a, c) && AsksNoMore(b, c)
  {
  }

  /** Of two accesses the wider is kept: writing over reading over none. */
  lemma WiderAccessIsKept(a: Capabilities, b: Capabilities)
    ensures var m := MergeCapabilities(a, b).access;
            && (m == ReadWrite <==> a.access == ReadWrite || b.access == ReadWrite)
            && (m == NoAccess <==> a.access == NoAccess && b.access == NoAccess)
  {
  }

  /** A metadata endpoint is denied whatever the ceiling says. */
  lemma MetadataIsDenied(c: Capabilities, ceiling: Ceiling)
    ensures "169.254.169.254" in c.domains || "metadata.google.internal" in c.domains
            || "metadata.azure.com" in c.domains || "fd00:ec2::254" in c.domains
            ==> OutcomeOf(c, ceiling) == Deny
  {
  }

  function Severity(o: PolicyOutcome): nat {
    match o
    case Allow => 0
    case RequireApproval => 1
    case Deny => 2
  }

  /** Asking for more never gets a milder outcome, whatever the ceiling. */
  lemma OutcomeIsMonotone(a: Capabilities, b: Capabilities, ceiling: Ceiling)
    requires AsksNoMore(a, b)
    ensures Severity(OutcomeOf(a, ceiling)) <= Severity(OutcomeOf(b, ceiling))
    ensures OutcomeOf(a, ceiling) == Deny ==> OutcomeOf(b, ceiling) == Deny
    ensures OutcomeOf(b, ceiling) == Allow ==> OutcomeOf(a, ceiling) == Allow
  {
    assert NeedsApproval(a) ==> NeedsApproval(b);
  }

  /** The request in force after the first `k` of a series of extra requests. */
  function Accumulated(base: Capabilities, extras: seq<Capabilities>, k: nat): Capabilities
    requires k <= |extras|
  {
    if k == 0 then base else MergeCapabilities(Accumulated(base, extras, k - 1), extras[k - 1])
  }

  lemma {:induction false} AccumulatedGrows(base: Capabilities, extras: seq<Capabilities>, i: nat, j: nat)
    requires i <= j <= |extras|
    ensures AsksNoMore(Accumulated(base, extras, i), Accumulated(base, extras, j))
    decreases j
  {
    if i < j {
      AccumulatedGrows(base, extras, i, j - 1);
      MergeIsJoin(Accumulated(base, extras, j - 1), extras[j - 1], Accumulated(base, extras, j));
    }
  }

  /** Over any number of rounds the outcome never gets milder, the grants of
      accepted rounds only grow, and they never hold anything above the ceiling. */
  lemma GrantsOnlyGrow(base: Capabilities, extras: seq<Capabilities>, i: nat, j: nat,
                       scope: ScopeRules, ceiling: Ceiling, di: DecisionBody, dj: DecisionBody)
    requires i <= j <= |extras|
    requires Decided(di, Accumulated(base, extras, i), scope, ceiling)
    requires Decided(dj, Accumulated(base, extras, j), scope, ceiling)
    ensures Severity(di.outcome) <= Severity(dj.outcome)
    ensures dj.outcome != Deny ==>
              && di.grants.commands <= dj.grants.commands && di.grants.domains <= dj.grants.domains
              && di.grants.mcpTools <= dj.grants.mcpTools && di.grants.external <= dj.grants.external
              && (di.grants.packages != {} ==> dj.grants.packages != {})
              && di.grants.pathRules == dj.grants.pathRules
    ensures dj.grants.domains !! HARD_DENIED_DOMAINS && dj.grants.domains <= ceiling.domains
  {
    AccumulatedGrows(base, extras, i, j);
    OutcomeIsMonotone(Accumulated(base, extras, i), Accumulated(base, extras, j), ceiling);
  }

  /* ---- Approvals ------------------------------------------------------------------------------ */

  datatype Approval = Approval(
    subject: Subject, decisionDigest: string, approved: bool, decidedAt: Time, expiresAt: Option<Time>)

  datatype ApprovalError = NotOverridable | BoundElsewhere | Expired

  /** `create_approval` */
  function CreateApproval(d: Decision, approved: bool, now: Time,
                          expiresAt: Option<Time>): Result<Approval, ApprovalError> {
    if d.body.outcome == Deny then Failure(NotOverridable)
    else Success(Approval(d.body.subject, d.digest, approved, now, expiresAt))
  }

  /** `resolve_decision_with_approval` */
  function ResolveDecision(d: Decision, a: Approval, now: Time): Result<PolicyOutcome, ApprovalError> {
    if d.body.outcome == Deny then Failure(NotOverridable)
    else if a.subject.digest != d.body.subject.digest || a.decisionDigest != d.digest then Failure(BoundElsewhere)
    else if a.expiresAt.Some? && now > a.expiresAt.value then Failure(Expired)
    else if !a.approved then Success(Deny)
    else Success(Allow)
  }

  /** Why an approval cannot be made or used, the first reason first. */
  lemma ApprovalFailsExactly(d: Decision, a: Approval, now: Time, approved: bool, expiresAt: Option<Time>)
    ensures CreateApproval(d, approved, now, expiresAt)
            == if d.body.outcome == Deny then Failure(NotOverridable)
               else Success(Approval(d.body.subject, d.digest, approved, now, expiresAt))
    ensures var r := ResolveDecision(d, a, now);
            var bound := a.subject.digest == d.body.subject.digest && a.decisionDigest == d.digest;
            && (r == Failure(NotOverridable) <==> d.body.outcome == Deny)
            && (r == Failure(BoundElsewhere) <==> d.body.outcome != Deny && !bound)
            && (r == Failure(Expired) <==>
                  d.body.outcome != Deny && bound && a.expiresAt.Some? && now > a.expiresAt.value)
            && (r == Success(Deny) <==>
                  d.body.outcome != Deny && bound && (a.expiresAt.Some? ==> now <= a.expiresAt.value) && !a.approved)
  {
  }

  /** An approval settles only the very decision it was made for: if it opens a
      second one, the two have one body, or their bodies collide under the seal.
      A denied decision is never opened, and none after the approval expires. */
  lemma ApprovalOpensOnlyItsDecision(made: Decision, other: Decision, approved: bool, at: Time,
                                     expiresAt: Option<Time>, now: Time, seal: Sealer)
    requires made.digest == seal(made.body) && other.digest == seal(other.body)
    requires CreateApproval(made, approved, at, expiresAt).Success?
    ensures var r := ResolveDecision(other, CreateApproval(made, approved, at, expiresAt).value, now);
            && (r == Success(Allow) ==>
                  && approved && other.body.outcome != Deny
                  && (expiresAt.Some? ==> now <= expiresAt.value)
                  && (made == other || (made.body != other.body && seal(made.body) == seal(other.body))))
            && (made == other && (expiresAt.Some? ==> now <= expiresAt.value) ==>
                  r == Success(if approved then Allow else Deny))
  {
  }
}
