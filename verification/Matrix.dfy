/** The safety matrix: the risk ladder and who may recommend which step. */
module Matrix {
  import opened Events

  datatype Invokers = Anyone | Only(who: set<string>)

  const INVOKABLE_BY: map<string, Invokers> := map[
    "probe_net" := Only({"@power", "@signal", "@firmware", "@sentinel"}),
    "inspect_closeup" := Only({"@reverse", "@signal", "@power"}),
    "set_psu" := Only({"@power"}),
    "enable_psu_output" := Only({"@power"}),
    "disable_psu_output" := Only({"@power", "@sentinel"}),
    "serial_send" := Only({"@firmware"}),
    "flash_mcu" := Only({"@firmware"}),
    "reflow_pin" := Only({"@reverse", "@signal"}),
    "summon_guild" := Only({"LiveSpeaker"}),
    "request_snapshot" := Anyone,
    "lookup_datasheet" := Anyone,
    "lookup_board_doc" := Anyone,
    "get_documented_limit" := Anyone,
    "web_fetch" := Anyone,
    "request_human_confirmation" := Anyone,
    "publish_report" := Only({"@scribe", "@user", "user"}),
    "sourcing.order_parts" := Only({"@sourcing"})]

  const AUTO_ALLOW: set<string> := {
    "probe_net", "inspect_closeup", "disable_psu_output", "summon_guild", "request_snapshot", "web_fetch",
    "lookup_datasheet", "lookup_board_doc", "get_documented_limit"}

  const ALWAYS_CONFIRM: set<string> := {"enable_psu_output", "request_human_confirmation"}
  const DENY_TOOLS: set<string> := {"sourcing.order_parts"}
  const VALUE_BEARING: set<string> := {"set_psu", "serial_send", "flash_mcu"}
  const READ_ONLY: set<string> := {
    "lookup_datasheet", "lookup_board_doc", "get_documented_limit", "web_fetch", "summon_guild", "request_snapshot"}
  const DANGEROUS_SERIAL_PATTERNS: seq<string> := ["reset", "calibrate", "format", "erase", "shutdown"]

  function Rank(r: Risk): nat {
    match r
    case LOW => 0
    case MEDIUM => 1
    case HIGH => 2
    case HALT => 3
  }

  function RiskMax(a: Risk, b: Risk): Risk {
    if Rank(a) >= Rank(b) then a else b
  }

  predicate InvokerAllowed(tool: string, invoker: string) {
    tool in INVOKABLE_BY && (INVOKABLE_BY[tool].Anyone? || invoker in INVOKABLE_BY[tool].who)
  }
}
