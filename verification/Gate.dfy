/** The safety gate: whether an operator step is shown, must be confirmed, or is refused. */
module Gates {
  import opened Common
  import opened Events
  import opened Knowledge
  import opened Matrix

  /** A declared risk is never HALT. */
  type DeclaredRisk = r: Risk | r != HALT witness LOW

  datatype Actor = Operator | Guild

  /** The parsed arguments of a step; `rest` stands for every field the gate does not read. */
  datatype Args = Args(
    voltageV: Option<real>, currentLimitA: Option<real>, target: Option<string>, net: Option<string>,
    hasBaud: bool, payload: Option<string>, rest: string)

  /** `args` is what the argument text parses to, or nothing when it does not parse. */
  datatype Action = Action(
    actor: Actor, tool: string, argsText: string, args: Args, rationale: string, risk: DeclaredRisk,
    instruction: Option<string>, documentedLimitRef: Option<string>)

  /** The skip list is keyed on the tool and its arguments. */
  datatype Signature = Signature(tool: string, args: Args)

  datatype Decision = Allow | ToConfirm | Deny | HaltBypass | Queued | Suppressed

  datatype Reason =
    | ReadOnly | UnknownInvoker | OutOfScope | AlreadySkipped | OrderingDisabled | NoDocumentedSource
    | ExceedsLimit | WithinLowBand | PsuConfirm | DangerousSerial | SerialOk | PsuMustBeOff | FlashConfirm
    | PowerDownFirst | ReflowConfirm | AutoShown | ConfirmRequired | DefaultConfirm | HaltCoalesced | SentinelHalt
    | PendingLimit

  /** The operator card; `documentedMaxV` is the limit its text quotes. */
  datatype Card = Card(body: string, risk: Risk, documentedMaxV: Option<real>)

  datatype GateDecision = GateDecision(
    decision: Decision, risk: Risk, reason: Reason, needsConfirmation: bool, emitWarn: bool,
    limit: Option<DocumentedLimit>, card: Option<Card>)

  datatype GateState = GateState(
    psuOutputOn: bool, pendingCount: nat, skipCounts: map<Signature, nat>, lastHaltTs: Option<real>)

  datatype Config = Config(lib: Library, roster: set<string>, defaultMaxV: real, defaultMaxI: real)

  const MAX_PENDING: nat := 3

  // ---------------------------------------------------------------- evaluation

  predicate HasSetpoint(tool: string, args: Args) {
    (tool == "set_psu" && (args.voltageV.Some? || args.currentLimitA.Some?)) || (tool == "serial_send" && args.hasBaud)
  }

  predicate Cited(a: Action) {
    a.documentedLimitRef.Some? && a.documentedLimitRef.value != ""
  }

  function Settled(d: Decision, risk: Risk, reason: Reason, warn: bool): GateDecision {
    GateDecision(d, risk, reason, false, warn, None, None)
  }

  function Confirmed(
      s: GateState, risk: Risk, reason: Reason, limit: Option<DocumentedLimit>, card: Option<Card>)
    : (GateDecision, GateState)
  {
    if s.pendingCount >= MAX_PENDING then
      (GateDecision(Queued, risk, PendingLimit, false, false, limit, card), s)
    else
      (GateDecision(ToConfirm, risk, reason, true, false, limit, card), s.(pendingCount := s.pendingCount + 1))
  }

  function Halted(s: GateState, now: real): (GateDecision, GateState) {
    if s.lastHaltTs.Some? && now - s.lastHaltTs.value < 60.0 then (Settled(Suppressed, HALT, HaltCoalesced, false), s)
    else (Settled(HaltBypass, HALT, SentinelHalt, false), s.(lastHaltTs := Some(now)))
  }

  function Target(args: Args): string {
    OrElse(args.target, OrElse(args.net, ""))
  }

  function PsuLimit(cfg: Config, p: Profile, args: Args): DocumentedLimit {
    if Target(args) != "" then Resolve(cfg.lib, p, Target(args), "net") else NotFound("")
  }

  function MaxV(cfg: Config, limit: DocumentedLimit): real {
    if limit.found then limit.maxVoltageV.GetOr(cfg.defaultMaxV) else cfg.defaultMaxV
  }

  function MaxI(cfg: Config, limit: DocumentedLimit): real {
    if limit.found then limit.maxCurrentA.GetOr(cfg.defaultMaxI) else cfg.defaultMaxI
  }

  function Instructions(a: Action): string {
    OrElse(a.instruction, a.rationale)
  }

  function CardFor(a: Action, risk: Risk, limit: DocumentedLimit): Card {
    Card(Instructions(a), if risk == HALT then HIGH else risk, if limit.found then limit.maxVoltageV else None)
  }

  function PsuBand(v: real, i: real): Risk {
    if v > 12.0 || i > 1.0 then HIGH else if v > 5.0 || i > 0.5 then MEDIUM else LOW
  }

  function SetPsu(cfg: Config, p: Profile, a: Action, s: GateState): (GateDecision, GateState) {
    var v, i := a.args.voltageV.GetOr(0.0), a.args.currentLimitA.GetOr(0.0);
    var limit := PsuLimit(cfg, p, a.args);
    if v > MaxV(cfg, limit) || i > MaxI(cfg, limit) then
      (Settled(Deny, HIGH, ExceedsLimit, true).(limit := Some(limit)), s)
    else
      var base := PsuBand(v, i);
      var floored := if limit.found then base else RiskMax(base, MEDIUM);
      var risk := RiskMax(floored, a.risk);
      if risk == LOW then (Settled(Allow, LOW, WithinLowBand, false).(limit := Some(limit)), s)
      else Confirmed(s, risk, PsuConfirm, Some(limit), Some(CardFor(a, risk, limit)))
  }

  function Lower(t: string): string {
    seq(|t|, i requires 0 <= i < |t| => if 'A' <= t[i] <= 'Z' then t[i] + 32 as char else t[i])
  }

  predicate Contains(t: string, pattern: string) {
    exists i :: 0 <= i <= |t| && pattern <= t[i..]
  }

  predicate Dangerous(payload: string) {
    exists p :: p in DANGEROUS_SERIAL_PATTERNS && Contains(Lower(payload), p)
  }

  function SerialSend(a: Action, s: GateState): (GateDecision, GateState) {
    if Dangerous(a.args.payload.GetOr("")) then Confirmed(s, RiskMax(HIGH, a.risk), DangerousSerial, None, None)
    else (Settled(Allow, RiskMax(LOW, a.risk), SerialOk, false), s)
  }

  function FlashMcu(p: Profile, a: Action, s: GateState): (GateDecision, GateState) {
    if p.flashRequiresPsuOff && s.psuOutputOn then (Settled(Deny, HIGH, PsuMustBeOff, true), s)
    else Confirmed(s, RiskMax(HIGH, a.risk), FlashConfirm, None, None)
  }

  function Reflow(a: Action, s: GateState): (GateDecision, GateState) {
    if s.psuOutputOn then (Settled(Deny, HIGH, PowerDownFirst, true), s)
    else Confirmed(s, RiskMax(HIGH, a.risk), ReflowConfirm, None, None)
  }

  /** The provenance rule comes first: an uncited setpoint is confirmed before any limit is looked at. */
  function Classify(cfg: Config, p: Profile, a: Action, s: GateState): (GateDecision, GateState) {
    if a.tool in VALUE_BEARING && HasSetpoint(a.tool, a.args) && !Cited(a) then
      Confirmed(s, RiskMax(MEDIUM, a.risk), NoDocumentedSource, None, None)
    else if a.tool == "set_psu" then SetPsu(cfg, p, a, s)
    else if a.tool == "serial_send" then SerialSend(a, s)
    else if a.tool == "flash_mcu" then FlashMcu(p, a, s)
    else if a.tool == "reflow_pin" then Reflow(a, s)
    else if a.tool in AUTO_ALLOW then (Settled(Allow, RiskMax(LOW, a.risk), AutoShown, false), s)
    else if a.tool in ALWAYS_CONFIRM then Confirmed(s, RiskMax(MEDIUM, a.risk), ConfirmRequired, None, None)
    else Confirmed(s, RiskMax(MEDIUM, a.risk), DefaultConfirm, None, None)
  }

  predicate IsHaltBypass(a: Action, invoker: string, sentinelHalt: bool) {
    sentinelHalt && invoker == "@sentinel" && a.tool == "disable_psu_output"
  }

  predicate IsReadOnly(a: Action) {
    a.actor == Guild || a.tool in READ_ONLY
  }

  predicate SkipListed(s: GateState, a: Action) {
    var sig := Signature(a.tool, a.args);
    sig in s.skipCounts && s.skipCounts[sig] >= 2
  }

  function Evaluate(
      cfg: Config, p: Profile, a: Action, invoker: string, s: GateState, sentinelHalt: bool, now: real)
    : (GateDecision, GateState)
  {
    if IsHaltBypass(a, invoker, sentinelHalt) then Halted(s, now)
    else if IsReadOnly(a) then (Settled(Allow, LOW, ReadOnly, false), s)
    else if invoker !in cfg.roster then (Settled(Deny, a.risk, UnknownInvoker, true), s)
    else if !InvokerAllowed(a.tool, invoker) then (Settled(Deny, a.risk, OutOfScope, true), s)
    else if SkipListed(s, a) then (Settled(Suppressed, a.risk, AlreadySkipped, false), s)
    else if a.tool in DENY_TOOLS then Confirmed(s, MEDIUM, OrderingDisabled, None, None)
    else Classify(cfg, p, a, s)
  }

  function SkipRecorded(s: GateState, a: Action): GateState {
    var sig := Signature(a.tool, a.args);
    s.(skipCounts := s.skipCounts[sig := (if sig in s.skipCounts then s.skipCounts[sig] else 0) + 1],
       pendingCount := if s.pendingCount > 0 then s.pendingCount - 1 else 0)
  }

  // ---------------------------------------------------------------- what an evaluation does to the session

  /** Only a `confirm` takes a slot, only a HALT bypass moves the halt window, and no slot beyond the third is taken. */
  ghost predicate Effect(s: GateState, d: GateDecision, r: GateState, now: real) {
    && r == s.(pendingCount := r.pendingCount, lastHaltTs := r.lastHaltTs)
    && r.pendingCount == s.pendingCount + (if d.decision == ToConfirm then 1 else 0)
    && (d.decision == ToConfirm ==> s.pendingCount < MAX_PENDING)
    && (d.decision == Queued ==> s.pendingCount >= MAX_PENDING)
    && (d.needsConfirmation <==> d.decision == ToConfirm)
    && r.lastHaltTs == (if d.decision == HaltBypass then Some(now) else s.lastHaltTs)
  }

  lemma ClassifyEffect(cfg: Config, p: Profile, a: Action, s: GateState, now: real)
    ensures var (d, r) := Classify(cfg, p, a, s); Effect(s, d, r, now)
  {
    hide Dangerous;
    hide PsuLimit;
  }

  lemma EvaluationEffect(
      cfg: Config, p: Profile, a: Action, invoker: string, s: GateState, sentinelHalt: bool, now: real)
    ensures var (d, r) := Evaluate(cfg, p, a, invoker, s, sentinelHalt, now); Effect(s, d, r, now)
  {
    ClassifyEffect(cfg, p, a, s, now);
    hide Classify;
    hide InvokerAllowed;
    hide SkipListed;
  }

  /** What `evaluate` decides and does is independent of ingested schematics. */
  lemma GateIgnoresIngest(
      cfg: Config, p: Profile, schs: seq<Schematic>, a: Action, invoker: string, s: GateState, sentinelHalt: bool,
      now: real)
    ensures Evaluate(cfg, MergedAll(cfg.lib, p, schs), a, invoker, s, sentinelHalt, now)
            == Evaluate(cfg, p, a, invoker, s, sentinelHalt, now)
  {
    AnyIngestsAreNonInterfering(cfg.lib, p, schs, Target(a.args), "net");
  }

  // ---------------------------------------------------------------- the set_psu verdict, exactly

  /** The step gets as far as the numeric rules. */
  predicate ReachesPsuRules(cfg: Config, a: Action, invoker: string, s: GateState) {
    a.tool == "set_psu" && a.actor == Operator && invoker in cfg.roster && invoker == "@power" && !SkipListed(s, a)
  }

  predicate OverLimit(cfg: Config, p: Profile, args: Args) {
    var limit := PsuLimit(cfg, p, args);
    args.voltageV.GetOr(0.0) > MaxV(cfg, limit) || args.currentLimitA.GetOr(0.0) > MaxI(cfg, limit)
  }

  /**
   * Denied exactly when over the limit and cited (or without any setpoint): an uncited over-limit
   * setpoint is only confirmed. Allowed exactly when nothing is uncited, a limit is documented, the
   * values are inside it and inside the low band, and the declared risk is LOW.
   */
  lemma PsuVerdict(cfg: Config, p: Profile, a: Action, invoker: string, s: GateState, sentinelHalt: bool, now: real)
    requires ReachesPsuRules(cfg, a, invoker, s)
    ensures var (d, _) := Evaluate(cfg, p, a, invoker, s, sentinelHalt, now);
            var v, i := a.args.voltageV.GetOr(0.0), a.args.currentLimitA.GetOr(0.0);
            var sourced := Cited(a) || !HasSetpoint(a.tool, a.args);
            && (d.decision == Deny <==> sourced && OverLimit(cfg, p, a.args))
            && (d.decision == Allow <==>
                  && sourced && !OverLimit(cfg, p, a.args) && PsuLimit(cfg, p, a.args).found
                  && v <= 5.0 && i <= 0.5 && a.risk == LOW)
            && (d.decision == Deny || d.decision == Allow || d.decision == ToConfirm || d.decision == Queued)
  {
  }

  /**
   * A set_psu of any actor is allowed exactly when the guild itself is the actor, whatever the values, or when it
   * reaches the numeric rules and passes all of them.
   */
  lemma AllowedSetpointIff(
      cfg: Config, p: Profile, a: Action, invoker: string, s: GateState, sentinelHalt: bool, now: real)
    requires a.tool == "set_psu"
    ensures Evaluate(cfg, p, a, invoker, s, sentinelHalt, now).0.decision == Allow
            <==> a.actor == Guild
                 || (&& ReachesPsuRules(cfg, a, invoker, s) && (Cited(a) || !HasSetpoint(a.tool, a.args))
                     && !OverLimit(cfg, p, a.args) && PsuLimit(cfg, p, a.args).found
                     && a.args.voltageV.GetOr(0.0) <= 5.0 && a.args.currentLimitA.GetOr(0.0) <= 0.5 && a.risk == LOW)
  {
    hide SkipListed;
    hide PsuLimit;
    hide HasSetpoint;
  }

  /** An allowed setpoint of the operator's is cited, documented, and within the documented limit and the low band. */
  lemma AllowedSetpointIsSafe(
      cfg: Config, p: Profile, a: Action, invoker: string, s: GateState, sentinelHalt: bool, now: real)
    requires a.tool == "set_psu" && HasSetpoint(a.tool, a.args)
    requires Evaluate(cfg, p, a, invoker, s, sentinelHalt, now).0.decision == Allow
    ensures var limit := PsuLimit(cfg, p, a.args);
            a.actor == Operator ==>
              && Cited(a) && limit.found && limit.source != ""
              && a.args.voltageV.GetOr(0.0) <= limit.maxVoltageV.GetOr(cfg.defaultMaxV)
              && a.args.voltageV.GetOr(0.0) <= 5.0
              && a.args.currentLimitA.GetOr(0.0) <= limit.maxCurrentA.GetOr(cfg.defaultMaxI)
              && a.args.currentLimitA.GetOr(0.0) <= 0.5
  {
    AllowedSetpointIff(cfg, p, a, invoker, s, sentinelHalt, now);
    FoundLimitIsCited(cfg.lib, p, Target(a.args), "net");
    hide Evaluate;
  }

  /** A step marked as the guild's own is allowed at any voltage, uncited and from anyone. */
  lemma GuildSetpointIsAllowed(cfg: Config, p: Profile, voltageV: real, invoker: string, now: real)
    ensures var a := PsuStep(Some(voltageV), None).(actor := Guild);
            Evaluate(cfg, p, a, invoker, NEW_SESSION, false, now).0.decision == Allow
  {
  }

  // ---------------------------------------------------------------- monotonicity

  /** How permissive a decision on a step is: shown, then confirmed (now or later), then refused. */
  function Strictness(d: Decision): nat {
    match d
    case Allow => 0
    case HaltBypass => 0
    case ToConfirm => 1
    case Queued => 1
    case Suppressed => 1
    case Deny => 2
  }

  ghost predicate SameButSetpoint(a: Action, b: Action) {
    && b == a.(args := b.args, argsText := b.argsText)
    && b.args == a.args.(voltageV := b.args.voltageV, currentLimitA := b.args.currentLimitA)
  }

  ghost predicate NoMorePermissive(d: GateDecision, e: GateDecision) {
    Strictness(d.decision) <= Strictness(e.decision) && Rank(d.risk) <= Rank(e.risk)
  }

  lemma SetPsuMonotone(cfg: Config, p: Profile, a: Action, b: Action, s: GateState)
    requires SameButSetpoint(a, b)
    requires a.args.voltageV.GetOr(0.0) <= b.args.voltageV.GetOr(0.0)
    requires a.args.currentLimitA.GetOr(0.0) <= b.args.currentLimitA.GetOr(0.0)
    ensures NoMorePermissive(SetPsu(cfg, p, a, s).0, SetPsu(cfg, p, b, s).0)
  {
    assert PsuLimit(cfg, p, a.args) == PsuLimit(cfg, p, b.args);
    hide PsuLimit;
  }

  /**
   * An uncited step gains or loses its setpoint fields, which switches the provenance rule on or off:
   * a confirmed explicit value at or below zero becomes an allowed absent one, or an absent one that
   * exceeds a negative limit becomes a confirmed explicit one.
   */
  ghost predicate ProvenanceFlips(cfg: Config, p: Profile, a: Action, b: Action) {
    !Cited(a) &&
    if HasSetpoint(a.tool, a.args) then
      !HasSetpoint(b.tool, b.args) && !OverLimit(cfg, p, b.args) && PsuLimit(cfg, p, b.args).found && b.risk == LOW
    else HasSetpoint(b.tool, b.args) && OverLimit(cfg, p, a.args)
  }

  lemma ClassifyMonotoneIff(cfg: Config, p: Profile, a: Action, b: Action, s: GateState)
    requires a.tool == "set_psu" && SameButSetpoint(a, b)
    requires a.args.voltageV.GetOr(0.0) <= b.args.voltageV.GetOr(0.0)
    requires a.args.currentLimitA.GetOr(0.0) <= b.args.currentLimitA.GetOr(0.0)
    ensures NoMorePermissive(Classify(cfg, p, a, s).0, Classify(cfg, p, b, s).0) <==> !ProvenanceFlips(cfg, p, a, b)
  {
    assert PsuLimit(cfg, p, a.args) == PsuLimit(cfg, p, b.args);
    hide PsuLimit;
    if Cited(a) || (HasSetpoint(a.tool, a.args) <==> HasSetpoint(b.tool, b.args)) {
      SetPsuMonotone(cfg, p, a, b, s);
      hide SetPsu;
    }
  }

  /**
   * Raising the voltage or the current of an operator's set_psu, all else equal, makes the decision no
   * more permissive and the risk no lower, if and only if the provenance rule is not switched on or off
   * by it; whenever the setpoint fields stay present or the step is cited, it is not.
   */
  lemma GateIsMonotoneIff(
      cfg: Config, p: Profile, a: Action, b: Action, invoker: string, s: GateState, sentinelHalt: bool, now: real)
    requires a.tool == "set_psu" && a.actor == Operator && SameButSetpoint(a, b)
    requires !SkipListed(s, a) && !SkipListed(s, b)
    requires a.args.voltageV.GetOr(0.0) <= b.args.voltageV.GetOr(0.0)
    requires a.args.currentLimitA.GetOr(0.0) <= b.args.currentLimitA.GetOr(0.0)
    ensures NoMorePermissive(Evaluate(cfg, p, a, invoker, s, sentinelHalt, now).0,
                             Evaluate(cfg, p, b, invoker, s, sentinelHalt, now).0)
            <==> !(ReachesPsuRules(cfg, a, invoker, s) && ProvenanceFlips(cfg, p, a, b))
  {
    ClassifyMonotoneIff(cfg, p, a, b, s);
    hide Classify;
    hide SkipListed;
    hide ProvenanceFlips;
  }

  /**
   * The gate reports a risk below the declared one in exactly two cases: read-only steps, which are
   * always LOW, and part orders, whose risk is fixed at MEDIUM.
   */
  lemma RiskLoweredIff(
      cfg: Config, p: Profile, a: Action, invoker: string, s: GateState, sentinelHalt: bool, now: real)
    ensures Rank(Evaluate(cfg, p, a, invoker, s, sentinelHalt, now).0.risk) < Rank(a.risk)
            <==> !IsHaltBypass(a, invoker, sentinelHalt)
                 && if IsReadOnly(a) then a.risk != LOW
                    else a.tool in DENY_TOOLS && invoker in cfg.roster && InvokerAllowed(a.tool, invoker)
                         && !SkipListed(s, a) && a.risk == HIGH
  {
    ClassifiedRisk(cfg, p, a, s);
    hide Classify;
    hide SkipListed;
  }

  lemma ClassifiedRisk(cfg: Config, p: Profile, a: Action, s: GateState)
    ensures Rank(Classify(cfg, p, a, s).0.risk) >= Rank(a.risk)
  {
    hide Dangerous;
    hide PsuLimit;
  }

  // ---------------------------------------------------------------- concrete calls

  const NO_ARGS := Args(None, None, None, None, false, None, "")
  const NEW_SESSION := GateState(false, 0, map[], None)

  function PsuStep(voltageV: Option<real>, target: Option<string>): Action {
    Action(Operator, "set_psu", "", NO_ARGS.(voltageV := voltageV, target := target), "", LOW, None, None)
  }

  /** An uncited setpoint one volt over the limit in force is confirmed where a cited one is denied. */
  lemma UncitedOverLimitIsConfirmed(cfg: Config, p: Profile, now: real)
    requires "@power" in cfg.roster
    ensures var a := PsuStep(Some(cfg.defaultMaxV + 1.0), None);
            && OverLimit(cfg, p, a.args)
            && Evaluate(cfg, p, a, "@power", NEW_SESSION, false, now).0.decision == ToConfirm
            && var b := a.(documentedLimitRef := Some("a source"));
            Evaluate(cfg, p, b, "@power", NEW_SESSION, false, now).0.decision == Deny
  {
  }

  const NET_5V := Profile([], [], [Net("N", None, Some(5.0), None, None)], true)

  /** Dropping an explicit zero from an uncited setpoint on a documented net turns a confirmation into a green light. */
  lemma ProvenanceFlipConcretely(cfg: Config, now: real)
    requires "@power" in cfg.roster && cfg.defaultMaxI >= 0.0
    ensures var a, b := PsuStep(Some(0.0), Some("N")), PsuStep(None, Some("N"));
            && ProvenanceFlips(cfg, NET_5V, a, b)
            && Evaluate(cfg, NET_5V, a, "@power", NEW_SESSION, false, now).0.decision == ToConfirm
            && Evaluate(cfg, NET_5V, b, "@power", NEW_SESSION, false, now).0.decision == Allow
  {
  }

  // ---------------------------------------------------------------- HALT coalescing

  datatype Query = Query(action: Action, invoker: string, sentinelHalt: bool, now: real)

  function RunGate(cfg: Config, p: Profile, s: GateState, qs: seq<Query>): (seq<GateDecision>, GateState) {
    if qs == [] then ([], s)
    else
      var (ds, mid) := RunGate(cfg, p, s, qs[..|qs| - 1]);
      var q := qs[|qs| - 1];
      var (d, r) := Evaluate(cfg, p, q.action, q.invoker, mid, q.sentinelHalt, q.now);
      (ds + [d], r)
  }

  /** Two HALT bypasses are never less than 60 seconds apart, provided the clock does not go back. */
  lemma {:induction false} HaltsAreRateLimited(cfg: Config, p: Profile, s: GateState, qs: seq<Query>)
    requires forall i, j :: 0 <= i < j < |qs| ==> qs[i].now <= qs[j].now
    ensures var (ds, r) := RunGate(cfg, p, s, qs);
            && |ds| == |qs|
            && (forall i, j :: 0 <= i < j < |qs| && ds[i].decision == HaltBypass && ds[j].decision == HaltBypass ==>
                qs[j].now - qs[i].now >= 60.0)
            && (forall i :: 0 <= i < |qs| && ds[i].decision == HaltBypass ==>
                r.lastHaltTs.Some? && qs[i].now <= r.lastHaltTs.value)
  {
    if qs != [] {
      var front, q := qs[..|qs| - 1], qs[|qs| - 1];
      HaltsAreRateLimited(cfg, p, s, front);
      var (ds, mid) := RunGate(cfg, p, s, front);
      EvaluationEffect(cfg, p, q.action, q.invoker, mid, q.sentinelHalt, q.now);
      BypassOnlyAfterWindow(cfg, p, q.action, q.invoker, mid, q.sentinelHalt, q.now);
    }
  }

  lemma BypassOnlyAfterWindow(
      cfg: Config, p: Profile, a: Action, invoker: string, s: GateState, sentinelHalt: bool, now: real)
    ensures Evaluate(cfg, p, a, invoker, s, sentinelHalt, now).0.decision == HaltBypass && s.lastHaltTs.Some?
            ==> now - s.lastHaltTs.value >= 60.0
  {
  }

  // ---------------------------------------------------------------- the objects

  class GateSession {
    var psuOutputOn: bool
    var pendingCount: nat
    var skipCounts: map<Signature, nat>
    var lastHaltTs: Option<real>

    ghost function State(): GateState
      reads this
    {
      GateState(psuOutputOn, pendingCount, skipCounts, lastHaltTs)
    }

    constructor ()
      ensures State() == GateState(false, 0, map[], None)
    {
      psuOutputOn, pendingCount, skipCounts, lastHaltTs := false, 0, map[], None;
    }
  }

  class SafetyGate {
    const knowledge: KnowledgeAdapter
    const cfg: Config

    ghost predicate Valid()
      reads knowledge, knowledge.profile, knowledge.resolver
    {
      knowledge.Valid() && knowledge.profile.lib == cfg.lib
    }

    constructor (knowledge: KnowledgeAdapter, cfg: Config)
      requires knowledge.Valid() && knowledge.profile.lib == cfg.lib
      ensures Valid() && this.knowledge == knowledge && this.cfg == cfg
    {
      this.knowledge, this.cfg := knowledge, cfg;
    }

    method EvaluateAction(
        a: Action, invoker: string, session: GateSession, sentinelHalt: bool, now: real) returns (d: GateDecision)
      requires Valid()
      modifies session, knowledge.resolver
      ensures Valid()
      ensures (d, session.State())
          == Evaluate(cfg, knowledge.profile.State(), a, invoker, old(session.State()), sentinelHalt, now)
    {
      if sentinelHalt && invoker == "@sentinel" && a.tool == "disable_psu_output" {
        d := Halt(session, now);
        return;
      }
      if a.actor == Guild || a.tool in READ_ONLY {
        return Settled(Allow, LOW, ReadOnly, false);
      }
      if invoker !in cfg.roster {
        return Settled(Deny, a.risk, UnknownInvoker, true);
      }
      if !InvokerAllowed(a.tool, invoker) {
        return Settled(Deny, a.risk, OutOfScope, true);
      }
      var sig := Signature(a.tool, a.args);
      if sig in session.skipCounts && session.skipCounts[sig] >= 2 {
        return Settled(Suppressed, a.risk, AlreadySkipped, false);
      }
      if a.tool in DENY_TOOLS {
        d := AskToConfirm(session, MEDIUM, OrderingDisabled, None, None);
        return;
      }
      d := ClassifyAction(a, session);
    }

    method ClassifyAction(a: Action, session: GateSession) returns (d: GateDecision)
      requires Valid()
      modifies session, knowledge.resolver
      ensures Valid()
      ensures (d, session.State()) == Classify(cfg, knowledge.profile.State(), a, old(session.State()))
    {
      if a.tool in VALUE_BEARING && HasSetpoint(a.tool, a.args) && !Cited(a) {
        d := AskToConfirm(session, RiskMax(MEDIUM, a.risk), NoDocumentedSource, None, None);
      } else if a.tool == "set_psu" {
        d := SetPsuAction(a, session);
      } else if a.tool == "serial_send" {
        if Dangerous(a.args.payload.GetOr("")) {
          d := AskToConfirm(session, RiskMax(HIGH, a.risk), DangerousSerial, None, None);
        } else {
          d := Settled(Allow, RiskMax(LOW, a.risk), SerialOk, false);
        }
      } else if a.tool == "flash_mcu" {
        if knowledge.profile.flashRequiresPsuOff && session.psuOutputOn {
          d := Settled(Deny, HIGH, PsuMustBeOff, true);
        } else {
          d := AskToConfirm(session, RiskMax(HIGH, a.risk), FlashConfirm, None, None);
        }
      } else if a.tool == "reflow_pin" {
        if session.psuOutputOn {
          d := Settled(Deny, HIGH, PowerDownFirst, true);
        } else {
          d := AskToConfirm(session, RiskMax(HIGH, a.risk), ReflowConfirm, None, None);
        }
      } else if a.tool in AUTO_ALLOW {
        d := Settled(Allow, RiskMax(LOW, a.risk), AutoShown, false);
      } else if a.tool in ALWAYS_CONFIRM {
        d := AskToConfirm(session, RiskMax(MEDIUM, a.risk), ConfirmRequired, None, None);
      } else {
        d := AskToConfirm(session, RiskMax(MEDIUM, a.risk), DefaultConfirm, None, None);
      }
    }

    method SetPsuAction(a: Action, session: GateSession) returns (d: GateDecision)
      requires Valid()
      modifies session, knowledge.resolver
      ensures Valid()
      ensures (d, session.State()) == SetPsu(cfg, knowledge.profile.State(), a, old(session.State()))
    {
      var v, i := a.args.voltageV.GetOr(0.0), a.args.currentLimitA.GetOr(0.0);
      var target := Target(a.args);
      var limit := NotFound("");
      if target != "" {
        limit := knowledge.GetDocumentedLimit(target, "net");
      }
      if v > MaxV(cfg, limit) || i > MaxI(cfg, limit) {
        return Settled(Deny, HIGH, ExceedsLimit, true).(limit := Some(limit));
      }
      var base := PsuBand(v, i);
      if !limit.found {
        base := RiskMax(base, MEDIUM);
      }
      var risk := RiskMax(base, a.risk);
      if risk == LOW {
        return Settled(Allow, LOW, WithinLowBand, false).(limit := Some(limit));
      }
      d := AskToConfirm(session, risk, PsuConfirm, Some(limit), Some(CardFor(a, risk, limit)));
    }

    method AskToConfirm(
        session: GateSession, risk: Risk, reason: Reason, limit: Option<DocumentedLimit>, card: Option<Card>)
      returns (d: GateDecision)
      modifies session`pendingCount
      ensures (d, session.State()) == Confirmed(old(session.State()), risk, reason, limit, card)
    {
      if session.pendingCount >= MAX_PENDING {
        return GateDecision(Queued, risk, PendingLimit, false, false, limit, card);
      }
      session.pendingCount := session.pendingCount + 1;
      return GateDecision(ToConfirm, risk, reason, true, false, limit, card);
    }

    method Halt(session: GateSession, now: real) returns (d: GateDecision)
      modifies session`lastHaltTs
      ensures (d, session.State()) == Halted(old(session.State()), now)
    {
      if session.lastHaltTs.Some? && now - session.lastHaltTs.value < 60.0 {
        return Settled(Suppressed, HALT, HaltCoalesced, false);
      }
      session.lastHaltTs := Some(now);
      return Settled(HaltBypass, HALT, SentinelHalt, false);
    }

    method RecordSkip(session: GateSession, a: Action)
      modifies session`skipCounts, session`pendingCount
      ensures session.State() == SkipRecorded(old(session.State()), a)
    {
      var sig := Signature(a.tool, a.args);
      var count := if sig in session.skipCounts then session.skipCounts[sig] else 0;
      session.skipCounts := session.skipCounts[sig := count + 1];
      session.pendingCount := if session.pendingCount > 0 then session.pendingCount - 1 else 0;
    }
  }
}
