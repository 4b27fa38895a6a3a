/**
 * The RDM values the controller builds and receives. Their fields are those of
 * the RDM message structure of section 6.2 of ANSI E1.20; the binary encoding
 * is not part of this model.
 */
module Rdm {
  import opened BaseTypes

  /** A device identifier: a 16-bit manufacturer (ESTA) code and a 32-bit device id. */
  datatype Uid = Uid(manufacturerId: uint16, deviceId: uint32)

  /** Parameter identifiers (PIDs) are 16-bit values. */
  type Pid = uint16

  /** The root device is sub-device zero. */
  const ROOT_RDM_DEVICE: uint16 := 0

  /** The parameter ids the controller queries and sets (ANSI E1.20, table A-3). */
  const PID_DEVICE_INFO: Pid := 0x0060
  const PID_SOFTWARE_VERSION_LABEL: Pid := 0x00C0
  const PID_DMX_START_ADDRESS: Pid := 0x00F0

  /** The ESTA manufacturer code of the Open Lighting project. */
  const OPEN_LIGHTING_ESTA_CODE: uint16 := 0x7a70

  datatype CommandClass = GetCommand | SetCommand

  /** An outbound request, as built by RDMGetRequest / RDMSetRequest. */
  datatype RdmRequest = RdmRequest(
    commandClass: CommandClass,
    source: Uid,
    destination: Uid,
    transactionNumber: nat,
    portId: uint8,
    messageCount: uint8,
    subDevice: uint16,
    paramId: Pid,
    paramData: seq<uint8>)

  /** An inbound response as delivered to the completion callback. */
  datatype RdmResponse = RdmResponse(
    source: Uid,
    destination: Uid,
    transactionNumber: nat,
    messageCount: uint8,
    subDevice: uint16,
    paramId: Pid,
    paramData: seq<uint8>)

  /**
   * The outcome reported with a completion: RDM_COMPLETED_OK, or any other
   * rdm_response_code value (timeouts, failures to send, malformed responses, ...),
   * which the controller does not tell apart.
   */
  datatype ResponseCode = CompletedOk | OtherCode(value: nat)
}
