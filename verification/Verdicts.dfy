/** What the gate answers to every step, as the step matrix documents it: in the matrix's own words, not the code's. */
module Verdicts {
  import opened Common
  import opened Events
  import opened Knowledge
  import opened Matrix
  import opened Gates
  import opened Limits

  // ---------------------------------------------------------------- the words of the matrix

  /** Who may recommend which step. */
  predicate MayRecommend(tool: string, invoker: string) {
    || (tool == "probe_net" && invoker in ["@power", "@signal", "@firmware", "@sentinel"])
    || (tool == "inspect_closeup" && invoker in ["@reverse", "@signal", "@power"])
    || (tool in ["set_psu", "enable_psu_output"] && invoker == "@power")
    || (tool == "disable_psu_output" && invoker in ["@power", "@sentinel"])
    || (tool in ["serial_send", "flash_mcu"] && invoker == "@firmware")
    || (tool == "reflow_pin" && invoker in ["@reverse", "@signal"])
    || (tool == "summon_guild" && invoker == "LiveSpeaker")
    || tool in ["request_snapshot", "lookup_datasheet", "lookup_board_doc", "get_documented_limit", "web_fetch"]
    || tool == "request_human_confirmation"
    || (tool == "publish_report" && invoker in ["@scribe", "@user", "user"])
    || (tool == "sourcing.order_parts" && invoker == "@sourcing")
  }

  predicate Lookup(tool: string) {
    tool in ["lookup_datasheet", "lookup_board_doc", "get_documented_limit", "web_fetch", "summon_guild",
             "request_snapshot"]
  }

  /** The higher of two risks on the ladder LOW, MEDIUM, HIGH, HALT. */
  function Higher(a: Risk, b: Risk): Risk {
    if a == HALT || b == HALT then HALT
    else if a == HIGH || b == HIGH then HIGH
    else if a == MEDIUM || b == MEDIUM then MEDIUM
    else LOW
  }

  /** The character of a lower-case word, or its capital. */
  predicate SameLetter(c: char, w: char) {
    c == w || ('a' <= w <= 'z' && c as int + 32 == w as int)
  }

  /** The lower-case word occurs in the text, in whatever case. */
  ghost predicate OccursAnyCase(word: string, text: string) {
    exists i :: 0 <= i <= |text| - |word| && OccursAt(word, text, i)
  }

  ghost predicate OccursAt(word: string, text: string, i: nat)
    requires i + |word| <= |text|
  {
    forall k :: 0 <= k < |word| ==> SameLetter(text[i + k], word[k])
  }

  ghost predicate Harmful(payload: string) {
    || OccursAnyCase("reset", payload) || OccursAnyCase("calibrate", payload) || OccursAnyCase("format", payload)
    || OccursAnyCase("erase", payload) || OccursAnyCase("shutdown", payload)
  }

  // ---------------------------------------------------------------- how a decision looks

  predicate Shown(d: GateDecision, risk: Risk, reason: Reason) {
    d == GateDecision(Allow, risk, reason, false, false, None, None)
  }

  /** Refused, with a warning to the operator. */
  predicate Refused(d: GateDecision, risk: Risk, reason: Reason) {
    d == GateDecision(Deny, risk, reason, false, true, None, None)
  }

  /** Put to the operator, or queued when three requests are out. */
  predicate Put(
      d: GateDecision, s: GateState, risk: Risk, reason: Reason, limit: Option<DocumentedLimit>, card: Option<Card>)
  {
    if s.pendingCount < 3 then d == GateDecision(ToConfirm, risk, reason, true, false, limit, card)
    else d == GateDecision(Queued, risk, PendingLimit, false, false, limit, card)
  }

  /** How often the operator has skipped a step with this tool and these arguments. */
  function Skipped(s: GateState, a: Action): nat {
    var sig := Signature(a.tool, a.args);
    if sig in s.skipCounts then s.skipCounts[sig] else 0
  }

  /** The step carries a source for its numbers, or no number that needs one. */
  predicate Sourced(a: Action) {
    (a.documentedLimitRef.Some? && a.documentedLimitRef.value != "")
    || !((a.tool == "set_psu" && (a.args.voltageV.Some? || a.args.currentLimitA.Some?))
         || (a.tool == "serial_send" && a.args.hasBaud))
  }

  /** Neither the emergency path nor one of the cross-cutting rules decides the step. */
  predicate ReachesItsRule(cfg: Config, a: Action, invoker: string, s: GateState, sentinelHalt: bool) {
    && !(sentinelHalt && invoker == "@sentinel" && a.tool == "disable_psu_output")
    && a.actor == Operator && !Lookup(a.tool) && invoker in cfg.roster && MayRecommend(a.tool, invoker)
    && Skipped(s, a) < 2 && a.tool != "sourcing.order_parts"
  }

  // ---------------------------------------------------------------- words in a payload

  lemma LowerLetter(c: char, w: char)
    requires 'a' <= w <= 'z'
    ensures (if 'A' <= c <= 'Z' then c + 32 as char else c) == w <==> SameLetter(c, w)
  {
  }

  ghost predicate LowerCase(word: string) {
    forall k :: 0 <= k < |word| ==> 'a' <= word[k] <= 'z'
  }

  lemma ContainsIffOccurs(word: string, text: string)
    requires LowerCase(word)
    ensures Contains(Lower(text), word) <==> OccursAnyCase(word, text)
  {
    var low := Lower(text);
    forall i | 0 <= i <= |text| - |word|
      ensures word <= low[i..] <==> OccursAt(word, text, i)
    {
      forall k | 0 <= k < |word| ensures low[i..][k] == word[k] <==> SameLetter(text[i + k], word[k]) {
        LowerLetter(text[i + k], word[k]);
      }
      assert word <= low[i..] <==> forall k :: 0 <= k < |word| ==> low[i..][k] == word[k];
    }
    hide Lower;
    hide OccursAt;
    if Contains(low, word) {
      var i :| 0 <= i <= |low| && word <= low[i..];
      assert i <= |text| - |word|;
    }
  }

  /** The five words are exactly what makes a payload dangerous. */
  lemma DangerousIffHarmful(payload: string)
    ensures Dangerous(payload) <==> Harmful(payload)
  {
    ContainsIffOccurs("reset", payload);
    ContainsIffOccurs("calibrate", payload);
    ContainsIffOccurs("format", payload);
    ContainsIffOccurs("erase", payload);
    ContainsIffOccurs("shutdown", payload);
    hide Lower;
    hide Contains;
    hide OccursAnyCase;
    assert DANGEROUS_SERIAL_PATTERNS[0] == "reset" && DANGEROUS_SERIAL_PATTERNS[1] == "calibrate"
        && DANGEROUS_SERIAL_PATTERNS[2] == "format" && DANGEROUS_SERIAL_PATTERNS[3] == "erase"
        && DANGEROUS_SERIAL_PATTERNS[4] == "shutdown" && |DANGEROUS_SERIAL_PATTERNS| == 5;
    assert forall w :: w in DANGEROUS_SERIAL_PATTERNS <==> w in ["reset", "calibrate", "format", "erase", "shutdown"];
  }

  // ---------------------------------------------------------------- the cross-cutting rules

  /** The invokers are those of the matrix. */
  lemma ScopeIsDocumented(tool: string, invoker: string)
    ensures InvokerAllowed(tool, invoker) <==> MayRecommend(tool, invoker)
  {
  }

  lemma HigherIsMax(a: Risk, b: Risk)
    ensures RiskMax(a, b) == Higher(a, b)
  {
  }

  /**
   * What decides a step before its own rule: @sentinel's call to power down, once a minute; lookups and the guild's
   * own steps, always shown; then the roster, the matrix's invokers, two skips, and the ban on ordering.
   */
  lemma CrossCuttingVerdict(
      cfg: Config, p: Profile, a: Action, invoker: string, s: GateState, sentinelHalt: bool, now: real)
    ensures var (d, r) := Evaluate(cfg, p, a, invoker, s, sentinelHalt, now);
            if sentinelHalt && invoker == "@sentinel" && a.tool == "disable_psu_output" then
              if s.lastHaltTs.Some? && now - s.lastHaltTs.value < 60.0
              then d == GateDecision(Suppressed, HALT, HaltCoalesced, false, false, None, None) && r == s
              else d == GateDecision(HaltBypass, HALT, SentinelHalt, false, false, None, None)
                   && r == s.(lastHaltTs := Some(now))
            else if a.actor == Guild || Lookup(a.tool) then Shown(d, LOW, ReadOnly)
            else if invoker !in cfg.roster then Refused(d, a.risk, UnknownInvoker)
            else if !MayRecommend(a.tool, invoker) then Refused(d, a.risk, OutOfScope)
            else if Skipped(s, a) >= 2 then
              d == GateDecision(Suppressed, a.risk, AlreadySkipped, false, false, None, None)
            else if a.tool == "sourcing.order_parts" then Put(d, s, MEDIUM, OrderingDisabled, None, None)
            else ReachesItsRule(cfg, a, invoker, s, sentinelHalt)
  {
    ScopeIsDocumented(a.tool, invoker);
    hide InvokerAllowed;
    hide MayRecommend;
    hide Classify;
  }

  // ---------------------------------------------------------------- the rules of the steps

  lemma RuleDecides(cfg: Config, p: Profile, a: Action, invoker: string, s: GateState, sentinelHalt: bool, now: real)
    requires ReachesItsRule(cfg, a, invoker, s, sentinelHalt)
    ensures Evaluate(cfg, p, a, invoker, s, sentinelHalt, now) == Classify(cfg, p, a, s)
  {
    ScopeIsDocumented(a.tool, invoker);
    hide InvokerAllowed;
    hide MayRecommend;
    hide Classify;
  }

  /**
   * Every step but set_psu. An uncited baud rate is put to the operator; otherwise a payload with one of the five
   * words is, as HIGH, and any other is shown. Flashing is refused while the supply is on, if the board requires it
   * off; reflow while it is on. Probing, close-ups and powering down are shown. Everything else is put to the
   * operator, as MEDIUM or what the expert declared.
   */
  lemma StepVerdict(cfg: Config, p: Profile, a: Action, invoker: string, s: GateState, sentinelHalt: bool, now: real)
    requires ReachesItsRule(cfg, a, invoker, s, sentinelHalt) && a.tool != "set_psu"
    ensures var d := Evaluate(cfg, p, a, invoker, s, sentinelHalt, now).0;
            if a.tool == "serial_send" then
              if !Sourced(a) then Put(d, s, Higher(MEDIUM, a.risk), NoDocumentedSource, None, None)
              else if Harmful(a.args.payload.GetOr("")) then Put(d, s, HIGH, DangerousSerial, None, None)
              else Shown(d, a.risk, SerialOk)
            else if a.tool == "flash_mcu" then
              if p.flashRequiresPsuOff && s.psuOutputOn then Refused(d, HIGH, PsuMustBeOff)
              else Put(d, s, HIGH, FlashConfirm, None, None)
            else if a.tool == "reflow_pin" then
              if s.psuOutputOn then Refused(d, HIGH, PowerDownFirst) else Put(d, s, HIGH, ReflowConfirm, None, None)
            else if a.tool in ["probe_net", "inspect_closeup", "disable_psu_output"] then Shown(d, a.risk, AutoShown)
            else if a.tool in ["enable_psu_output", "request_human_confirmation"] then
              Put(d, s, Higher(MEDIUM, a.risk), ConfirmRequired, None, None)
            else Put(d, s, Higher(MEDIUM, a.risk), DefaultConfirm, None, None)
  {
    hide Evaluate;
    hide Dangerous;
    hide Harmful;
    hide MayRecommend;
    hide SetPsu;
    RuleDecides(cfg, p, a, invoker, s, sentinelHalt, now);
    DangerousIffHarmful(a.args.payload.GetOr(""));
  }

  /** The net a setpoint is for: its target, or else its net. */
  function NetOf(args: Args): string {
    if args.target.Some? && args.target.value != "" then args.target.value
    else if args.net.Some? then args.net.value
    else ""
  }

  /** The documented limit of the setpoint's net, if it has a net. */
  function LimitOf(cfg: Config, p: Profile, args: Args): DocumentedLimit {
    if NetOf(args) == "" then DocumentedLimit("", false, None, None, "", None)
    else Resolve(cfg.lib, p, NetOf(args), "net")
  }

  lemma LimitIsOfNet(cfg: Config, p: Profile, args: Args)
    ensures PsuLimit(cfg, p, args) == LimitOf(cfg, p, args)
  {
    hide Resolve;
  }

  /** The band of a setpoint: 12 V or 1 A, and 5 V or 0.5 A, are the steps of the ladder. */
  function Band(v: real, i: real): Risk {
    if v > 12.0 || i > 1.0 then HIGH else if v > 5.0 || i > 0.5 then MEDIUM else LOW
  }

  /**
   * A setpoint. Without a source it is put to the operator. Above the documented voltage or current of its net, or
   * above the default where the net documents none, it is refused. Otherwise its risk is the highest of its band,
   * MEDIUM if nothing is documented, and what the expert declared: at LOW it is shown, above it is put to the
   * operator with a card that states the risk and quotes the documented voltage.
   */
  lemma SetpointVerdict(
      cfg: Config, p: Profile, a: Action, invoker: string, s: GateState, sentinelHalt: bool, now: real)
    requires ReachesItsRule(cfg, a, invoker, s, sentinelHalt) && a.tool == "set_psu"
    ensures var d := Evaluate(cfg, p, a, invoker, s, sentinelHalt, now).0;
            var v, i, limit := a.args.voltageV.GetOr(0.0), a.args.currentLimitA.GetOr(0.0), LimitOf(cfg, p, a.args);
            var maxV := if limit.maxVoltageV.Some? then limit.maxVoltageV.value else cfg.defaultMaxV;
            var maxI := if limit.maxCurrentA.Some? then limit.maxCurrentA.value else cfg.defaultMaxI;
            var risk := Higher(Higher(Band(v, i), if limit.found then LOW else MEDIUM), a.risk);
            if !Sourced(a) then Put(d, s, Higher(MEDIUM, a.risk), NoDocumentedSource, None, None)
            else if v > maxV || i > maxI then
              d == GateDecision(Deny, HIGH, ExceedsLimit, false, true, Some(limit), None)
            else if risk == LOW then
              d == GateDecision(Allow, LOW, WithinLowBand, false, false, Some(limit), None)
            else
              var card := Card(OrElse(a.instruction, a.rationale), risk, limit.maxVoltageV);
              Put(d, s, risk, PsuConfirm, Some(limit), Some(card))
  {
    hide Evaluate;
    hide MayRecommend;
    hide Lookup;
    hide PsuLimit;
    hide Resolve;
    hide NetOf;
    hide FirstNet;
    RuleDecides(cfg, p, a, invoker, s, sentinelHalt, now);
    LimitIsOfNet(cfg, p, a.args);
    if NetOf(a.args) != "" { NetLimit(cfg.lib, p, NetOf(a.args)); }
  }
}
