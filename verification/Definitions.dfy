/** Immutable workflow definitions, their validation and the compiled registry. */
module Definitions {
  import opened Basics

  datatype ExecutionMode = Orchestration | Choreography | UnknownMode

  datatype StepKind =
    | StepActivity | StepSignal | StepTimer | StepChild
    | StepParallel | StepJoin | StepRace | StepApproval
    | UnknownStep

  datatype RetryPolicy = RetryPolicy(maxAttempts: Uint32, initialDelay: Duration, maxDelay: Duration)

  datatype CompensationSpec = CompensationSpec(
    target: string, timeout: Duration, resultLimit: Uint32, retry: RetryPolicy)

  /** A digest is represented by the content it was computed from. */
  datatype Fingerprint = NoDigest | DigestOf(definition: Definition) | OtherDigest(hex: string)

  datatype DefinitionRef = DefinitionRef(name: string, version: string, fingerprint: Fingerprint)

  const NO_REFERENCE: DefinitionRef := DefinitionRef("", "", NoDigest)

  datatype StepSpec = StepSpec(
    name: string, kind: StepKind, target: string, childDefinition: DefinitionRef,
    branches: seq<string>, timeout: Duration, inputLimit: Uint32, resultLimit: Uint32,
    retry: RetryPolicy, fanOutLimit: Uint32, compensation: Option<CompensationSpec>)

  datatype Definition = Definition(
    name: string, version: string, mode: ExecutionMode, deprecated: bool, steps: seq<StepSpec>)
  {
    function Reference(): DefinitionRef {
      DefinitionRef(name, version, DigestOf(this))
    }
  }

  const MAX_FAN_OUT: int := 10_000

  predicate HexDigest(s: string) {
    |s| == 64 && forall i | 0 <= i < |s| :: '0' <= s[i] <= '9' || 'a' <= s[i] <= 'f'
  }

  predicate ValidReference(r: DefinitionRef) {
    && StableName(r.name) && StableName(r.version)
    && match r.fingerprint
       case NoDigest => false
       case DigestOf(_) => true
       case OtherDigest(hex) => HexDigest(hex)
  }

  predicate ValidPayloadLimit(limit: Uint32) {
    0 < limit <= MAX_PAYLOAD_BYTES
  }

  predicate ValidRetry(policy: RetryPolicy) {
    policy.maxAttempts > 0 && policy.initialDelay > 0 && policy.maxDelay >= policy.initialDelay
  }

  predicate IsControl(kind: StepKind) {
    kind == StepParallel || kind == StepJoin || kind == StepRace
  }

  predicate Distinct(names: seq<string>) {
    forall i, j | 0 <= i < j < |names| :: names[i] != names[j]
  }

  predicate WellNamedBranches(branches: seq<string>) {
    (forall i | 0 <= i < |branches| :: StableName(branches[i])) && Distinct(branches)
  }

  predicate ValidStep(step: StepSpec) {
    && (match step.kind
        case StepActivity =>
          StableName(step.target) && step.timeout > 0 && ValidPayloadLimit(step.inputLimit) &&
          ValidPayloadLimit(step.resultLimit) && ValidRetry(step.retry)
        case StepChild =>
          StableName(step.target) && ValidReference(step.childDefinition) &&
          step.childDefinition.name == step.target && step.timeout > 0 &&
          ValidPayloadLimit(step.inputLimit) && ValidPayloadLimit(step.resultLimit) && ValidRetry(step.retry)
        case StepSignal | StepApproval =>
          StableName(step.target) && step.timeout > 0 && ValidPayloadLimit(step.inputLimit)
        case StepTimer => step.timeout > 0
        case StepParallel | StepJoin | StepRace =>
          0 < step.fanOutLimit <= MAX_FAN_OUT && 0 < |step.branches| <= step.fanOutLimit &&
          WellNamedBranches(step.branches)
        case UnknownStep => false)
    && (!IsControl(step.kind) ==> step.branches == [])
    && (step.kind != StepChild ==> step.childDefinition == NO_REFERENCE)
    && (step.compensation.Some? ==>
          var compensation := step.compensation.value;
          step.kind == StepActivity && StableName(compensation.target) && compensation.timeout > 0 &&
          ValidPayloadLimit(compensation.resultLimit) && ValidRetry(compensation.retry))
  }

  predicate UniqueNames(steps: seq<StepSpec>) {
    forall i, j | 0 <= i < j < |steps| :: steps[i].name != steps[j].name
  }

  /** Some step other than `self` is called `branch` and is not itself a control step. */
  predicate BranchResolves(steps: seq<StepSpec>, self: string, branch: string) {
    branch != self && exists j | 0 <= j < |steps| :: steps[j].name == branch && !IsControl(steps[j].kind)
  }

  predicate BranchesResolve(steps: seq<StepSpec>) {
    forall i, b | 0 <= i < |steps| && b in steps[i].branches :: BranchResolves(steps, steps[i].name, b)
  }

  predicate NamesKind(steps: seq<StepSpec>, name: string, kinds: set<StepKind>) {
    exists j | 0 <= j < |steps| :: steps[j].name == name && steps[j].kind in kinds
  }

  /** Parallel and race steps own their branches; joins only observe them. */
  predicate Owns(step: StepSpec) {
    step.kind == StepParallel || step.kind == StepRace
  }

  predicate BranchKinds(steps: seq<StepSpec>, i: nat)
    requires i < |steps|
  {
    && (steps[i].kind == StepParallel ==> forall b | b in steps[i].branches :: NamesKind(steps, b, {StepActivity}))
    && (steps[i].kind == StepRace ==>
          forall b | b in steps[i].branches :: NamesKind(steps, b, {StepSignal, StepApproval}))
  }

  predicate Disjoint(steps: seq<StepSpec>, i: nat, j: nat)
    requires i < |steps| && j < |steps|
  {
    Owns(steps[i]) && Owns(steps[j]) ==> forall b | b in steps[i].branches :: b !in steps[j].branches
  }

  /** Join `j` names only branches of the earlier parallel `p`, and as many of them. */
  predicate JoinsParallel(steps: seq<StepSpec>, j: nat, p: nat)
    requires p < |steps| && j < |steps|
  {
    && p < j && steps[j].kind == StepJoin && steps[p].kind == StepParallel
    && |steps[j].branches| == |steps[p].branches|
    && forall b | b in steps[j].branches :: b in steps[p].branches
  }

  predicate ValidControlFlow(steps: seq<StepSpec>) {
    && (forall i | 0 <= i < |steps| :: BranchKinds(steps, i))
    && (forall i, j | 0 <= i < j < |steps| :: Disjoint(steps, i, j))
    && (forall j | 0 <= j < |steps| && steps[j].kind == StepJoin ::
          exists p | 0 <= p < j :: JoinsParallel(steps, j, p))
    && (forall j, k, p | 0 <= p < j < k < |steps| :: JoinsParallel(steps, j, p) ==> !JoinsParallel(steps, k, p))
  }

  /** What a constructed definition satisfies, stated without the validator's bookkeeping. */
  predicate ValidDefinition(d: Definition) {
    && StableName(d.name) && StableName(d.version) && d.mode != UnknownMode
    && 0 < |d.steps| <= MAX_FAN_OUT
    && UniqueNames(d.steps)
    && (forall i | 0 <= i < |d.steps| :: StableName(d.steps[i].name) && ValidStep(d.steps[i]))
    && BranchesResolve(d.steps)
    && (d.mode == Orchestration ==> ValidControlFlow(d.steps))
  }

  /** First step with this name and kind. */
  function FindStep(steps: seq<StepSpec>, name: string, kind: StepKind): (found: Option<StepSpec>)
    ensures found.Some? ==> found.value in steps && found.value.name == name && found.value.kind == kind
    ensures found.None? ==> forall s | s in steps :: s.name != name || s.kind != kind
  {
    if steps == [] then None
    else if steps[0].name == name && steps[0].kind == kind then Some(steps[0])
    else FindStep(steps[1..], name, kind)
  }

  /** With unique names, looking a step up by its own name and kind finds that very step. */
  lemma {:induction false} FindStepUnique(steps: seq<StepSpec>, i: nat)
    requires UniqueNames(steps) && i < |steps|
    ensures FindStep(steps, steps[i].name, steps[i].kind) == Some(steps[i])
  {
    if i > 0 {
      assert steps[0].name != steps[i].name;
      FindStepUnique(steps[1..], i - 1);
    }
  }

  // --- validation ---------------------------------------------------------

  method ValidBranchNames(branches: seq<string>) returns (valid: bool)
    ensures valid <==> WellNamedBranches(branches)
  {
    var seen: set<string> := {};
    for i := 0 to |branches|
      invariant seen == set k | 0 <= k < i :: branches[k]
      invariant forall k | 0 <= k < i :: StableName(branches[k])
      invariant Distinct(branches[..i])
    {
      if !StableName(branches[i]) {
        return false;
      }
      if branches[i] in seen {
        var k :| 0 <= k < i && branches[k] == branches[i];
        assert !Distinct(branches);
        return false;
      }
      seen := seen + {branches[i]};
    }
    assert branches[..|branches|] == branches;
    valid := true;
  }

  method ValidateStep(step: StepSpec) returns (valid: bool)
    ensures valid <==> ValidStep(step)
  {
    match step.kind {
      case StepActivity =>
        if !StableName(step.target) || step.timeout <= 0 || !ValidPayloadLimit(step.inputLimit) ||
           !ValidPayloadLimit(step.resultLimit) || !ValidRetry(step.retry) {
          return false;
        }
      case StepChild =>
        if !StableName(step.target) || !ValidReference(step.childDefinition) ||
           step.childDefinition.name != step.target || step.timeout <= 0 ||
           !ValidPayloadLimit(step.inputLimit) || !ValidPayloadLimit(step.resultLimit) || !ValidRetry(step.retry) {
          return false;
        }
      case StepSignal | StepApproval =>
        if !StableName(step.target) || step.timeout <= 0 || !ValidPayloadLimit(step.inputLimit) {
          return false;
        }
      case StepTimer =>
        if step.timeout <= 0 {
          return false;
        }
      case StepParallel | StepJoin | StepRace =>
        if step.fanOutLimit == 0 || step.fanOutLimit > MAX_FAN_OUT || |step.branches| == 0 ||
           |step.branches| > step.fanOutLimit {
          return false;
        }
        var named := ValidBranchNames(step.branches);
        if !named {
          return false;
        }
      case UnknownStep =>
        return false;
    }
    if !IsControl(step.kind) && |step.branches| != 0 {
      return false;
    }
    if step.kind != StepChild && step.childDefinition != NO_REFERENCE {
      return false;
    }
    if step.compensation.Some? {
      var compensation := step.compensation.value;
      if step.kind != StepActivity || !StableName(compensation.target) || compensation.timeout <= 0 ||
         !ValidPayloadLimit(compensation.resultLimit) || !ValidRetry(compensation.retry) {
        return false;
      }
    }
    valid := true;
  }

  /** `kinds` is the name index of `steps`. */
  ghost predicate Indexes(kinds: map<string, StepKind>, steps: seq<StepSpec>) {
    && (forall i | 0 <= i < |steps| :: steps[i].name in kinds && kinds[steps[i].name] == steps[i].kind)
    && (forall n | n in kinds :: exists i | 0 <= i < |steps| :: steps[i].name == n)
  }

  lemma IndexedKind(kinds: map<string, StepKind>, steps: seq<StepSpec>, name: string, wanted: set<StepKind>)
    requires Indexes(kinds, steps)
    ensures NamesKind(steps, name, wanted) <==> name in kinds && kinds[name] in wanted
  {
  }

  /** The owner bookkeeping after the first `k` steps: each owned branch maps to its owning step. */
  ghost predicate OwnersUpTo(steps: seq<StepSpec>, k: nat, owners: map<string, string>)
    requires k <= |steps|
  {
    && (forall i, b | 0 <= i < k && Owns(steps[i]) && b in steps[i].branches ::
          b in owners && owners[b] == steps[i].name)
    && (forall b | b in owners :: exists i | 0 <= i < k :: Owns(steps[i]) && b in steps[i].branches)
  }

  ghost predicate CountsUpTo(steps: seq<StepSpec>, k: nat, counts: map<string, nat>)
    requires k <= |steps|
  {
    && (forall i | 0 <= i < k && steps[i].kind == StepParallel ::
          steps[i].name in counts && counts[steps[i].name] == |steps[i].branches|)
    && (forall n | n in counts :: exists i | 0 <= i < k :: steps[i].kind == StepParallel && steps[i].name == n)
  }

  ghost predicate JoinedUpTo(steps: seq<StepSpec>, k: nat, joined: set<string>)
    requires k <= |steps|
  {
    && (forall j, p | 0 <= p < j < k && JoinsParallel(steps, j, p) :: steps[p].name in joined)
    && (forall n | n in joined :: exists j, p | 0 <= p < j < k :: JoinsParallel(steps, j, p) && steps[p].name == n)
  }

  /** Adds the branches of one owning step, refusing wrong kinds and second owners. */
  method ClaimBranches(step: StepSpec, kinds: map<string, StepKind>, wanted: set<StepKind>,
                       owners: map<string, string>)
    returns (ok: bool, claimed: map<string, string>)
    requires Distinct(step.branches)
    ensures ok <==> forall b | b in step.branches :: b in kinds && kinds[b] in wanted && b !in owners
    ensures ok ==> claimed == owners + map b | b in step.branches :: step.name
  {
    claimed := owners;
    var branches := step.branches;
    for n := 0 to |branches|
      invariant forall m | 0 <= m < n ::
                  branches[m] in kinds && kinds[branches[m]] in wanted && branches[m] !in owners
      invariant forall m | 0 <= m < n :: branches[m] in claimed && claimed[branches[m]] == step.name
      invariant forall b | b in owners :: b in claimed && claimed[b] == owners[b]
      invariant forall b | b in claimed :: b in owners || exists m | 0 <= m < n :: branches[m] == b
    {
      if branches[n] !in kinds || kinds[branches[n]] !in wanted || branches[n] in claimed {
        return false, claimed;
      }
      claimed := claimed[branches[n] := step.name];
    }
    ok := true;
  }

  function WantedBranches(kind: StepKind): set<StepKind> {
    if kind == StepParallel then {StepActivity} else {StepSignal, StepApproval}
  }

  /** What one claim decides, and the owner map it leaves. */
  lemma ClaimDecides(steps: seq<StepSpec>, k: nat, kinds: map<string, StepKind>, owners: map<string, string>)
    requires k < |steps| && Owns(steps[k]) && Indexes(kinds, steps) && OwnersUpTo(steps, k, owners)
    ensures (forall b | b in steps[k].branches ::
               b in kinds && kinds[b] in WantedBranches(steps[k].kind) && b !in owners)
            <==> BranchKinds(steps, k) && forall i | 0 <= i < k :: Disjoint(steps, i, k)
    ensures BranchKinds(steps, k) && (forall i | 0 <= i < k :: Disjoint(steps, i, k)) ==>
              OwnersUpTo(steps, k + 1, owners + map b | b in steps[k].branches :: steps[k].name)
  {
    OwnedMeansShared(steps, k, owners);
    forall b ensures NamesKind(steps, b, WantedBranches(steps[k].kind)) <==>
                     b in kinds && kinds[b] in WantedBranches(steps[k].kind) {
      IndexedKind(kinds, steps, b, WantedBranches(steps[k].kind));
    }
    if forall i | 0 <= i < k :: Disjoint(steps, i, k) {
      ExtendOwners(steps, k, owners);
    }
  }

  lemma ExtendOwners(steps: seq<StepSpec>, k: nat, owners: map<string, string>)
    requires k < |steps| && Owns(steps[k]) && OwnersUpTo(steps, k, owners)
    requires forall i | 0 <= i < k :: Disjoint(steps, i, k)
    ensures OwnersUpTo(steps, k + 1, owners + map b | b in steps[k].branches :: steps[k].name)
  {
    var claimed := owners + map b | b in steps[k].branches :: steps[k].name;
    forall b | b in claimed ensures exists i | 0 <= i < k + 1 :: Owns(steps[i]) && b in steps[i].branches {
      if b !in steps[k].branches {
        var i :| 0 <= i < k && Owns(steps[i]) && b in steps[i].branches;
      }
    }
    forall i, b | 0 <= i < k && Owns(steps[i]) && b in steps[i].branches ensures claimed[b] == steps[i].name {
      assert Disjoint(steps, i, k);
    }
  }

  /** An already owned branch is exactly a branch shared with an earlier owning step. */
  lemma OwnedMeansShared(steps: seq<StepSpec>, k: nat, owners: map<string, string>)
    requires k < |steps| && Owns(steps[k]) && OwnersUpTo(steps, k, owners)
    ensures (forall b | b in steps[k].branches :: b !in owners) <==> (forall i | 0 <= i < k :: Disjoint(steps, i, k))
  {
    if b :| b in steps[k].branches && b in owners {
      var i :| 0 <= i < k && Owns(steps[i]) && b in steps[i].branches;
      assert !Disjoint(steps, i, k);
    }
  }

  /** The owner a join looks up is the only parallel it could be joining. */
  lemma JoinOwner(steps: seq<StepSpec>, j: nat, p: nat, owners: map<string, string>)
    requires j < |steps| && p < j && UniqueNames(steps) && OwnersUpTo(steps, j, owners)
    requires steps[j].branches != [] && JoinsParallel(steps, j, p)
    ensures steps[j].branches[0] in owners && owners[steps[j].branches[0]] == steps[p].name
  {
    assert steps[j].branches[0] in steps[p].branches;
  }

  method SameOwner(branches: seq<string>, owners: map<string, string>, owner: string) returns (same: bool)
    requires branches != [] && branches[0] in owners && owners[branches[0]] == owner
    ensures same <==> forall b | b in branches :: b in owners && owners[b] == owner
  {
    for n := 1 to |branches|
      invariant forall m | 0 <= m < n :: branches[m] in owners && owners[branches[m]] == owner
    {
      if branches[n] !in owners || owners[branches[n]] != owner {
        return false;
      }
    }
    same := true;
  }

  /** What the recorded owner and count say about a join. */
  predicate RecordedMatch(step: StepSpec, owners: map<string, string>, counts: map<string, nat>, owner: string) {
    owner in counts && counts[owner] == |step.branches| &&
    forall b | b in step.branches :: b in owners && owners[b] == owner
  }

  lemma MatchJoinsParallel(steps: seq<StepSpec>, j: nat, owners: map<string, string>, counts: map<string, nat>,
                           owner: string)
    requires j < |steps| && steps[j].kind == StepJoin && UniqueNames(steps)
    requires OwnersUpTo(steps, j, owners) && CountsUpTo(steps, j, counts)
    requires RecordedMatch(steps[j], owners, counts, owner)
    ensures exists p | 0 <= p < j :: JoinsParallel(steps, j, p) && steps[p].name == owner
  {
    hide OwnersUpTo;
    var p :| 0 <= p < j && steps[p].kind == StepParallel && steps[p].name == owner;
    forall b | b in steps[j].branches ensures b in steps[p].branches {
      OwnedBranch(steps, j, p, b, owners);
    }
    assert JoinsParallel(steps, j, p);
  }

  /** A branch recorded under a step's name is that step's. */
  lemma OwnedBranch(steps: seq<StepSpec>, j: nat, p: nat, b: string, owners: map<string, string>)
    requires p < j <= |steps| && UniqueNames(steps) && OwnersUpTo(steps, j, owners)
    requires b in owners && owners[b] == steps[p].name
    ensures b in steps[p].branches
  {
    var i :| 0 <= i < j && Owns(steps[i]) && b in steps[i].branches;
    assert steps[i].name == steps[p].name;
  }

  lemma JoinIsRecorded(steps: seq<StepSpec>, j: nat, p: nat, owners: map<string, string>, counts: map<string, nat>)
    requires j < |steps| && p < j && JoinsParallel(steps, j, p)
    requires OwnersUpTo(steps, j, owners) && CountsUpTo(steps, j, counts)
    ensures RecordedMatch(steps[j], owners, counts, steps[p].name)
  {
    forall b | b in steps[j].branches ensures b in owners && owners[b] == steps[p].name {
      assert b in steps[p].branches;
    }
  }

  /** The recorded owner and count agree exactly with the declarative matching. */
  lemma JoinDecides(steps: seq<StepSpec>, j: nat, owners: map<string, string>, counts: map<string, nat>, owner: string)
    requires j < |steps| && steps[j].kind == StepJoin && UniqueNames(steps)
    requires OwnersUpTo(steps, j, owners) && CountsUpTo(steps, j, counts)
    ensures RecordedMatch(steps[j], owners, counts, owner)
            <==> exists p | 0 <= p < j :: JoinsParallel(steps, j, p) && steps[p].name == owner
  {
    hide OwnersUpTo, CountsUpTo, RecordedMatch, JoinsParallel;
    if RecordedMatch(steps[j], owners, counts, owner) {
      MatchJoinsParallel(steps, j, owners, counts, owner);
    }
    if p :| 0 <= p < j && JoinsParallel(steps, j, p) && steps[p].name == owner {
      JoinIsRecorded(steps, j, p, owners, counts);
    }
  }

  method CheckJoin(ghost steps: seq<StepSpec>, ghost j: nat, step: StepSpec, owners: map<string, string>,
                   counts: map<string, nat>, joined: set<string>)
    returns (ok: bool, owner: string)
    requires j < |steps| && step == steps[j] && step.kind == StepJoin && step.branches != []
    requires UniqueNames(steps)
    requires OwnersUpTo(steps, j, owners) && CountsUpTo(steps, j, counts)
    ensures ok <==> exists p | 0 <= p < j :: JoinsParallel(steps, j, p) && steps[p].name !in joined
    ensures ok ==> forall p | 0 <= p < j && JoinsParallel(steps, j, p) :: steps[p].name == owner
  {
    hide CountsUpTo, JoinsParallel;
    forall p | 0 <= p < j && JoinsParallel(steps, j, p)
      ensures step.branches[0] in owners && owners[step.branches[0]] == steps[p].name
    {
      JoinOwner(steps, j, p, owners);
    }
    if step.branches[0] !in owners {
      return false, "";
    }
    owner := owners[step.branches[0]];
    JoinDecides(steps, j, owners, counts, owner);
    var count := if owner in counts then counts[owner] else 0;
    if count != |step.branches| || owner in joined {
      return false, owner;
    }
    ok := SameOwner(step.branches, owners, owner);
  }

  /** Every invariant of the control-flow pass after `k` steps. */
  ghost predicate FlowUpTo(steps: seq<StepSpec>, k: nat)
    requires k <= |steps|
  {
    && (forall i | 0 <= i < k :: BranchKinds(steps, i))
    && (forall i, j | 0 <= i < j < k :: Disjoint(steps, i, j))
    && (forall j | 0 <= j < k && steps[j].kind == StepJoin :: exists p | 0 <= p < j :: JoinsParallel(steps, j, p))
    && (forall j, l, p | 0 <= p < j < l < k :: JoinsParallel(steps, j, p) ==> !JoinsParallel(steps, l, p))
  }

  lemma ExtendFlow(steps: seq<StepSpec>, k: nat)
    requires k < |steps| && FlowUpTo(steps, k) && BranchKinds(steps, k)
    requires forall i | 0 <= i < k :: Disjoint(steps, i, k)
    requires steps[k].kind == StepJoin ==>
               exists p | 0 <= p < k :: JoinsParallel(steps, k, p) && forall j | p < j < k :: !JoinsParallel(steps, j, p)
    requires UniqueNames(steps) && (steps[k].kind == StepJoin ==> steps[k].branches != [])
    ensures FlowUpTo(steps, k + 1)
  {
    forall j, p | 0 <= p < j < k && JoinsParallel(steps, j, p)
      ensures !JoinsParallel(steps, k, p)
    {
      if JoinsParallel(steps, k, p) {
        var q :| 0 <= q < k && JoinsParallel(steps, k, q) && forall i | q < i < k :: !JoinsParallel(steps, i, q);
        SameParallel(steps, k, p, q);
      }
    }
  }

  /** Disjoint ownership: a join cannot match two different parallels. */
  lemma SameParallel(steps: seq<StepSpec>, k: nat, p: nat, q: nat)
    requires k < |steps| && p < k && q < k && steps[k].branches != []
    requires JoinsParallel(steps, k, p) && JoinsParallel(steps, k, q)
    requires forall i, j | 0 <= i < j < k :: Disjoint(steps, i, j)
    ensures p == q
  {
    var b := steps[k].branches[0];
    assert b in steps[p].branches && b in steps[q].branches;
    assert p < q ==> Disjoint(steps, p, q);
    assert q < p ==> Disjoint(steps, q, p);
  }

  lemma ExtendJoined(steps: seq<StepSpec>, k: nat, joined: set<string>, owner: string)
    requires k < |steps| && steps[k].kind == StepJoin && UniqueNames(steps) && JoinedUpTo(steps, k, joined)
    requires exists p | 0 <= p < k :: JoinsParallel(steps, k, p) && steps[p].name !in joined
    requires forall p | 0 <= p < k && JoinsParallel(steps, k, p) :: steps[p].name == owner
    ensures JoinedUpTo(steps, k + 1, joined + {owner})
    ensures exists p | 0 <= p < k :: JoinsParallel(steps, k, p) && forall j | p < j < k :: !JoinsParallel(steps, j, p)
  {
    var p :| 0 <= p < k && JoinsParallel(steps, k, p) && steps[p].name !in joined;
    forall n | n in joined + {owner}
      ensures exists j, q | 0 <= q < j < k + 1 :: JoinsParallel(steps, j, q) && steps[q].name == n
    {
      if n in joined {
        var j, q :| 0 <= q < j < k && JoinsParallel(steps, j, q) && steps[q].name == n;
      }
    }
  }

  lemma UnchangedBookkeeping(steps: seq<StepSpec>, k: nat, owners: map<string, string>,
                             counts: map<string, nat>, joined: set<string>)
    requires k < |steps|
    ensures OwnersUpTo(steps, k, owners) && !Owns(steps[k]) ==> OwnersUpTo(steps, k + 1, owners)
    ensures CountsUpTo(steps, k, counts) && steps[k].kind != StepParallel ==> CountsUpTo(steps, k + 1, counts)
    ensures JoinedUpTo(steps, k, joined) && steps[k].kind != StepJoin ==> JoinedUpTo(steps, k + 1, joined)
  {
    if JoinedUpTo(steps, k, joined) && steps[k].kind != StepJoin {
      forall n | n in joined
        ensures exists j, q | 0 <= q < j < k + 1 :: JoinsParallel(steps, j, q) && steps[q].name == n
      {
        var j, q :| 0 <= q < j < k && JoinsParallel(steps, j, q) && steps[q].name == n;
      }
    }
    if OwnersUpTo(steps, k, owners) && !Owns(steps[k]) {
      forall b | b in owners ensures exists i | 0 <= i < k + 1 :: Owns(steps[i]) && b in steps[i].branches {
        var i :| 0 <= i < k && Owns(steps[i]) && b in steps[i].branches;
      }
    }
  }

  lemma ExtendCounts(steps: seq<StepSpec>, k: nat, counts: map<string, nat>)
    requires k < |steps| && steps[k].kind == StepParallel && UniqueNames(steps) && CountsUpTo(steps, k, counts)
    ensures CountsUpTo(steps, k + 1, counts[steps[k].name := |steps[k].branches|])
  {
  }

  method ValidateOrchestrationControlFlow(steps: seq<StepSpec>, kinds: map<string, StepKind>)
    returns (valid: bool)
    requires UniqueNames(steps) && Indexes(kinds, steps)
    requires forall i | 0 <= i < |steps| :: ValidStep(steps[i])
    ensures valid <==> ValidControlFlow(steps)
  {
    hide OwnersUpTo, CountsUpTo, JoinedUpTo, JoinsParallel, Disjoint, StableName, BranchKinds, Indexes;
    var owners: map<string, string> := map[];
    var counts: map<string, nat> := map[];
    var joined: set<string> := {};
    EmptyBookkeeping(steps);
    for k := 0 to |steps|
      invariant FlowUpTo(steps, k)
      invariant OwnersUpTo(steps, k, owners) && CountsUpTo(steps, k, counts) && JoinedUpTo(steps, k, joined)
    {
      var step := steps[k];
      assert ValidStep(step);
      UnchangedBookkeeping(steps, k, owners, counts, joined);
      match step.kind {
        case StepParallel =>
          ClaimDecides(steps, k, kinds, owners);
          var ok, claimed := ClaimBranches(step, kinds, {StepActivity}, owners);
          if !ok {
            return false;
          }
          ExtendCounts(steps, k, counts);
          owners := claimed;
          counts := counts[step.name := |step.branches|];
        case StepRace =>
          ClaimDecides(steps, k, kinds, owners);
          var ok, claimed := ClaimBranches(step, kinds, {StepSignal, StepApproval}, owners);
          if !ok {
            return false;
          }
          owners := claimed;
        case StepJoin =>
          NotOwning(steps, k);
          var ok, owner := CheckJoin(steps, k, step, owners, counts, joined);
          if !ok {
            if ValidControlFlow(steps) {
              AcceptedJoin(steps, k, joined);
            }
            return false;
          }
          ExtendJoined(steps, k, joined, owner);
          joined := joined + {owner};
        case _ =>
          NotOwning(steps, k);
      }
      ExtendFlow(steps, k);
    }
    valid := true;
  }

  lemma EmptyBookkeeping(steps: seq<StepSpec>)
    ensures OwnersUpTo(steps, 0, map[]) && CountsUpTo(steps, 0, map[]) && JoinedUpTo(steps, 0, {})
  {
  }

  lemma NotOwning(steps: seq<StepSpec>, k: nat)
    requires k < |steps| && !Owns(steps[k])
    ensures forall i | 0 <= i < k :: Disjoint(steps, i, k)
  {
  }

  /** A join of a well-formed flow joins a parallel that no earlier join has taken. */
  lemma AcceptedJoin(steps: seq<StepSpec>, k: nat, joined: set<string>)
    requires k < |steps| && steps[k].kind == StepJoin && UniqueNames(steps) && JoinedUpTo(steps, k, joined)
    requires ValidControlFlow(steps)
    ensures exists p | 0 <= p < k :: JoinsParallel(steps, k, p) && steps[p].name !in joined
  {
    hide JoinsParallel, BranchKinds, Disjoint;
    var p :| 0 <= p < k && JoinsParallel(steps, k, p);
    forall j, q | 0 <= q < j < k && JoinsParallel(steps, j, q) ensures steps[q].name != steps[p].name {
      assert q != p;
    }
  }

  /** Indexes step names, refusing duplicates and malformed steps. */
  method IndexSteps(steps: seq<StepSpec>) returns (ok: bool, names: map<string, StepKind>)
    ensures ok <==> UniqueNames(steps) && forall i | 0 <= i < |steps| :: StableName(steps[i].name) && ValidStep(steps[i])
    ensures ok ==> Indexes(names, steps)
  {
    hide ValidStep, StableName;
    names := map[];
    for i := 0 to |steps|
      invariant forall k | 0 <= k < i :: steps[k].name in names && names[steps[k].name] == steps[k].kind
      invariant forall n | n in names :: exists k | 0 <= k < i :: steps[k].name == n
      invariant forall j, k | 0 <= j < k < i :: steps[j].name != steps[k].name
      invariant forall k | 0 <= k < i :: StableName(steps[k].name) && ValidStep(steps[k])
    {
      if !StableName(steps[i].name) || steps[i].name in names {
        return false, names;
      }
      names := names[steps[i].name := steps[i].kind];
      var valid := ValidateStep(steps[i]);
      if !valid {
        return false, names;
      }
    }
    ok := true;
  }

  lemma IndexedBranch(names: map<string, StepKind>, steps: seq<StepSpec>, self: string, branch: string)
    requires UniqueNames(steps) && Indexes(names, steps)
    ensures BranchResolves(steps, self, branch) <==> branch in names && branch != self && !IsControl(names[branch])
  {
  }

  method CheckBranches(steps: seq<StepSpec>, names: map<string, StepKind>) returns (ok: bool)
    requires UniqueNames(steps) && Indexes(names, steps)
    ensures ok <==> BranchesResolve(steps)
  {
    for i := 0 to |steps|
      invariant forall k, b | 0 <= k < i && b in steps[k].branches :: BranchResolves(steps, steps[k].name, b)
    {
      var step := steps[i];
      for n := 0 to |step.branches|
        invariant forall m | 0 <= m < n :: BranchResolves(steps, step.name, step.branches[m])
      {
        var branch := step.branches[n];
        IndexedBranch(names, steps, step.name, branch);
        if branch !in names || branch == step.name || IsControl(names[branch]) {
          assert branch in steps[i].branches;
          return false;
        }
      }
    }
    ok := true;
  }

  method ValidateDefinition(d: Definition) returns (valid: bool)
    ensures valid <==> ValidDefinition(d)
  {
    if !StableName(d.name) || !StableName(d.version) || d.mode == UnknownMode {
      return false;
    }
    if |d.steps| == 0 || |d.steps| > MAX_FAN_OUT {
      return false;
    }
    var indexed, names := IndexSteps(d.steps);
    if !indexed {
      return false;
    }
    var resolved := CheckBranches(d.steps, names);
    if !resolved {
      return false;
    }
    if d.mode == Orchestration {
      valid := ValidateOrchestrationControlFlow(d.steps, names);
    } else {
      valid := true;
    }
  }

  // --- joins --------------------------------------------------------------

  /** Distinct names drawn from equally many names exhaust them. */
  lemma {:induction false} DistinctSubsetIsAll(inner: seq<string>, outer: seq<string>)
    requires Distinct(inner) && |inner| == |outer|
    requires forall b | b in inner :: b in outer
    ensures forall b | b in outer :: b in inner
  {
    var innerSet, outerSet := set b | b in inner, set b | b in outer;
    DistinctCardinality(inner);
    SetCardinality(outer);
    assert innerSet <= outerSet;
    if innerSet != outerSet {
      assert innerSet < outerSet;
      ProperSubsetSmaller(innerSet, outerSet);
    }
    forall b | b in outer ensures b in inner {
      assert b in outerSet;
    }
  }

  lemma ProperSubsetSmaller<T>(a: set<T>, b: set<T>)
    requires a < b
    ensures |a| < |b|
  {
    assert b == a + (b - a);
    assert |b| == |a| + |b - a|;
    assert b - a != {};
  }

  lemma SubsetSize<T>(a: set<T>, b: set<T>)
    requires a <= b
    ensures |a| <= |b|
  {
    if a != b {
      ProperSubsetSmaller(a, b);
    }
  }

  lemma {:induction false} DistinctCardinality(names: seq<string>)
    requires Distinct(names)
    ensures |set b | b in names| == |names|
  {
    if names != [] {
      var rest := names[1..];
      assert Distinct(rest);
      DistinctCardinality(rest);
      assert (set b | b in names) == {names[0]} + (set b | b in rest);
      assert names[0] !in rest;
    }
  }

  lemma {:induction false} SetCardinality(names: seq<string>)
    ensures |set b | b in names| <= |names|
  {
    if names != [] {
      var rest := names[1..];
      SetCardinality(rest);
      assert (set b | b in names) == {names[0]} + (set b | b in rest);
    }
  }

  /**
   * Validation's counting argument: every join of a validated orchestration
   * observes exactly the branches of one earlier parallel step.
   */
  lemma JoinBranchesEqualParallel(d: Definition, j: nat) returns (p: nat)
    requires ValidDefinition(d) && d.mode == Orchestration
    requires j < |d.steps| && d.steps[j].kind == StepJoin
    ensures p < j && d.steps[p].kind == StepParallel
    ensures forall b :: b in d.steps[j].branches <==> b in d.steps[p].branches
  {
    p :| 0 <= p < j && JoinsParallel(d.steps, j, p);
    assert ValidStep(d.steps[j]);
    DistinctSubsetIsAll(d.steps[j].branches, d.steps[p].branches);
  }

  // --- registry -----------------------------------------------------------

  datatype DefinitionKey = DefinitionKey(name: string, version: string)
  datatype MigrationKey = MigrationKey(name: string, source: string, target: string)
  datatype Registry = Registry(definitions: map<DefinitionKey, Definition>, migrations: set<MigrationKey>)

  /** A declared migration edge; `hasApply` records whether it carries a callback. */
  datatype Migration = Migration(name: string, source: string, target: string, hasApply: bool)

  predicate Resolves(registry: Registry, r: DefinitionRef) {
    && DefinitionKey(r.name, r.version) in registry.definitions
    && r.fingerprint == DigestOf(registry.definitions[DefinitionKey(r.name, r.version)])
  }

  predicate ChildPinsResolve(registry: Registry, d: Definition) {
    forall s | s in d.steps && s.kind == StepChild :: Resolves(registry, s.childDefinition)
  }

  /** Guarantees of a compiled registry that replay and the planners rely on. */
  predicate ValidRegistry(registry: Registry) {
    && (forall k | k in registry.definitions ::
          var d := registry.definitions[k];
          d.name == k.name && d.version == k.version && ValidDefinition(d) && ChildPinsResolve(registry, d))
    && (forall m | m in registry.migrations ::
          && m.source != m.target
          && DefinitionKey(m.name, m.source) in registry.definitions
          && DefinitionKey(m.name, m.target) in registry.definitions)
  }

  function KeyOf(d: Definition): DefinitionKey {
    DefinitionKey(d.name, d.version)
  }

  function EdgeOf(m: Migration): MigrationKey {
    MigrationKey(m.name, m.source, m.target)
  }

  predicate UniqueKeys(definitions: seq<Definition>) {
    forall i, j | 0 <= i < j < |definitions| :: KeyOf(definitions[i]) != KeyOf(definitions[j])
  }

  predicate ValidEdge(registry: Registry, m: Migration) {
    && m.hasApply && m.source != m.target
    && DefinitionKey(m.name, m.source) in registry.definitions
    && DefinitionKey(m.name, m.target) in registry.definitions
  }

  predicate UniqueEdges(migrations: seq<Migration>) {
    forall i, j | 0 <= i < j < |migrations| :: EdgeOf(migrations[i]) != EdgeOf(migrations[j])
  }

  ghost predicate HoldsExactly(index: map<DefinitionKey, Definition>, definitions: seq<Definition>) {
    && (forall i | 0 <= i < |definitions| ::
          KeyOf(definitions[i]) in index && index[KeyOf(definitions[i])] == definitions[i])
    && (forall k | k in index :: exists i | 0 <= i < |definitions| :: k == KeyOf(definitions[i]))
  }

  method IndexDefinitions(definitions: seq<Definition>) returns (ok: bool, index: map<DefinitionKey, Definition>)
    ensures ok <==> UniqueKeys(definitions)
    ensures ok ==> HoldsExactly(index, definitions)
  {
    index := map[];
    for i := 0 to |definitions|
      invariant forall j | 0 <= j < i :: KeyOf(definitions[j]) in index && index[KeyOf(definitions[j])] == definitions[j]
      invariant forall k | k in index :: exists j | 0 <= j < i :: k == KeyOf(definitions[j])
      invariant forall j, k | 0 <= j < k < i :: KeyOf(definitions[j]) != KeyOf(definitions[k])
    {
      var key := KeyOf(definitions[i]);
      if key in index {
        return false, index;
      }
      index := index[key := definitions[i]];
    }
    ok := true;
  }

  method CheckChildPins(registry: Registry, definition: Definition) returns (failure: Option<Error>)
    requires forall k | k in registry.definitions :: KeyOf(registry.definitions[k]) == k
    ensures failure.None? <==> ChildPinsResolve(registry, definition)
    ensures failure.Some? ==> failure.value == DefinitionNotFound || failure.value == DefinitionMismatch
  {
    var steps := definition.steps;
    for n := 0 to |steps|
      invariant forall m | 0 <= m < n && steps[m].kind == StepChild :: Resolves(registry, steps[m].childDefinition)
    {
      if steps[n].kind == StepChild {
        var pin := steps[n].childDefinition;
        var key := DefinitionKey(pin.name, pin.version);
        assert steps[n] in definition.steps;
        if key !in registry.definitions {
          return Some(DefinitionNotFound);
        }
        if registry.definitions[key].Reference() != pin {
          return Some(DefinitionMismatch);
        }
      }
    }
    failure := None;
  }

  method CollectEdges(registry: Registry, migrations: seq<Migration>)
    returns (failure: Option<Error>, edges: set<MigrationKey>)
    ensures failure.None? <==> UniqueEdges(migrations) && forall m | m in migrations :: ValidEdge(registry, m)
    ensures failure.None? ==> edges == set m | m in migrations :: EdgeOf(m)
    ensures failure.Some? ==> failure.value == InvalidMigration || failure.value == DuplicateMigration
  {
    edges := {};
    for i := 0 to |migrations|
      invariant edges == set k | 0 <= k < i :: EdgeOf(migrations[k])
      invariant forall k | 0 <= k < i :: ValidEdge(registry, migrations[k])
      invariant forall j, k | 0 <= j < k < i :: EdgeOf(migrations[j]) != EdgeOf(migrations[k])
    {
      assert migrations[i] in migrations;
      if !ValidEdge(registry, migrations[i]) {
        return Some(InvalidMigration), edges;
      }
      if EdgeOf(migrations[i]) in edges {
        return Some(DuplicateMigration), edges;
      }
      edges := edges + {EdgeOf(migrations[i])};
    }
    failure := None;
  }

  /**
   * Compiles validated definitions and migration edges. It succeeds exactly
   * when keys are unique, every child pin names a registered definition with
   * that digest, and every edge is complete, registered and declared once.
   */
  method CompileRegistry(definitions: seq<Definition>, migrations: seq<Migration>)
    returns (result: Result<Registry>)
    requires forall d | d in definitions :: ValidDefinition(d)
    ensures result.Ok? ==>
              && ValidRegistry(result.value) && HoldsExactly(result.value.definitions, definitions)
              && result.value.migrations == set m | m in migrations :: EdgeOf(m)
    ensures result.Err? ==>
              || !UniqueKeys(definitions)
              || exists index :: HoldsExactly(index, definitions) &&
                   (var registry := Registry(index, {});
                    || (exists d | d in definitions :: !ChildPinsResolve(registry, d))
                    || !UniqueEdges(migrations)
                    || (exists m | m in migrations :: !ValidEdge(registry, m)))
    ensures !UniqueKeys(definitions) ==> result == Err(DuplicateDefinition)
  {
    var unique, index := IndexDefinitions(definitions);
    if !unique {
      return Err(DuplicateDefinition);
    }
    var registry := Registry(index, {});
    for i := 0 to |definitions|
      invariant forall k | 0 <= k < i :: ChildPinsResolve(registry, definitions[k])
    {
      var failure := CheckChildPins(registry, definitions[i]);
      if failure.Some? {
        assert definitions[i] in definitions;
        return Err(failure.value);
      }
    }
    var failure, edges := CollectEdges(registry, migrations);
    if failure.Some? {
      return Err(failure.value);
    }
    CompiledIsValid(definitions, index, edges, migrations);
    result := Ok(Registry(index, edges));
  }

  lemma CompiledIsValid(definitions: seq<Definition>, index: map<DefinitionKey, Definition>,
                        edges: set<MigrationKey>, migrations: seq<Migration>)
    requires forall d | d in definitions :: ValidDefinition(d)
    requires HoldsExactly(index, definitions)
    requires forall k | 0 <= k < |definitions| :: ChildPinsResolve(Registry(index, {}), definitions[k])
    requires edges == set m | m in migrations :: EdgeOf(m)
    requires forall m | m in migrations :: ValidEdge(Registry(index, {}), m)
    ensures ValidRegistry(Registry(index, edges))
  {
    var registry := Registry(index, edges);
    forall k | k in index
      ensures index[k].name == k.name && index[k].version == k.version && ValidDefinition(index[k]) &&
              ChildPinsResolve(registry, index[k])
    {
      var i :| 0 <= i < |definitions| && k == KeyOf(definitions[i]);
      forall s | s in index[k].steps && s.kind == StepChild ensures Resolves(registry, s.childDefinition) {
        assert Resolves(Registry(index, {}), s.childDefinition);
      }
    }
  }
}
