/** The payload records of c/include/radio_msg.h and the item tag of c/include/msg_queue.h. */
module Messages {
  import opened Decimal

  datatype MsgType = Telemetry | Alert | Unknown(tag: int)

  datatype Body =
    | RawTelemetry(battery: int, rssi: int)
    | RawAlert(code: string, antenna: nat)
    | TelemetryMsg(seqNo: nat, ts: int, battery: int, rssi: int)
    | AlertMsg(seqNo: nat, ts: int, code: string, antenna: nat)

  const UINT32: nat := 0x1_0000_0000

  /** Longest alert code: 31 characters and a NUL. */
  const CODE_MAX: nat := 31

  predicate NoSpaces(code: string) { forall i | 0 <= i < |code| :: !IsSpace(code[i]) }

  predicate WellFormedCode(code: string) { 1 <= |code| <= CODE_MAX && NoSpaces(code) }

  predicate GoodAlert(b: Body) {
    b.RawAlert? && WellFormedCode(b.code) && '\0' !in b.code && b.antenna < UINT32
  }

  /** The field widths of telemetry_msg_t and alert_msg_t. */
  predicate InRange(m: Body) {
    match m
    case TelemetryMsg(n, ts, battery, rssi) =>
      n < UINT32 && LONG_MIN <= ts <= LONG_MAX && 0 <= battery < UINT32 && INT_MIN <= rssi <= INT_MAX
    case AlertMsg(n, ts, code, antenna) =>
      n < UINT32 && LONG_MIN <= ts <= LONG_MAX && |code| <= CODE_MAX && antenna < UINT32
    case _ => false
  }

  /** In range, and no white space in an alert's code. */
  predicate Plain(m: Body) { InRange(m) && (m.AlertMsg? ==> NoSpaces(m.code)) }
}
