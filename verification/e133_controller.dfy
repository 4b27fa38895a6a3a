/**
 * The E1.33 controller tool: it sends RDM GET and SET requests to one device
 * through a universe controller, counts the requests still waiting for a
 * completion, and stops the node's event loop when the last one completes.
 */
module E133Controller {
  import opened BaseTypes
  import opened Wrappers
  import opened Rdm

  // ---------------------------------------------------------------------------
  // The --log-level option

  /** ola::log_level, least to most verbose. */
  datatype LogLevel = LogNone | LogFatal | LogWarn | LogInfo | LogDebug

  /** The level in effect when no usable --log-level is given. */
  const DEFAULT_LOG_LEVEL: LogLevel := LogWarn

  /** The --log-level argument that selects each level. */
  function LevelArgument(level: LogLevel): (n: int)
    ensures 0 <= n <= 4
  {
    match level
    case LogNone => 0
    case LogFatal => 1
    case LogWarn => 2
    case LogInfo => 3
    case LogDebug => 4
  }

  /**
   * The level after one --log-level option whose argument reads as `arg`,
   * starting from `current`: 0 to 4 select a level, anything else is ignored.
   */
  function ApplyLogLevelArgument(current: LogLevel, arg: int): (level: LogLevel)
    ensures 0 <= arg <= 4 ==> LevelArgument(level) == arg
    ensures !(0 <= arg <= 4) ==> level == current
  {
    if arg == 0 then LogNone
    else if arg == 1 then LogFatal
    else if arg == 2 then LogWarn
    else if arg == 3 then LogInfo
    else if arg == 4 then LogDebug
    else current
  }

  /** Every level is selected by its own argument, whatever the level before. */
  lemma LogLevelArgumentRoundTrip(current: LogLevel, level: LogLevel)
    ensures ApplyLogLevelArgument(current, LevelArgument(level)) == level
  {
  }

  /** The level after the --log-level options with arguments `args`, in command-line order. */
  function ApplyLogLevelArguments(current: LogLevel, args: seq<int>): LogLevel
    decreases |args|
  {
    if args == [] then current
    else ApplyLogLevelArguments(ApplyLogLevelArgument(current, args[0]), args[1..])
  }

  /** The level main configures logging with: its default, then every --log-level option. */
  function ConfiguredLogLevel(args: seq<int>): (level: LogLevel)
    ensures args == [] ==> level == DEFAULT_LOG_LEVEL
  {
    ApplyLogLevelArguments(DEFAULT_LOG_LEVEL, args)
  }

  /**
   * The last argument from 0 to 4 decides the level; if there is none, the
   * level before the options stays (for main, the default WARN).
   */
  lemma {:induction false} LastValidLogLevelWins(current: LogLevel, args: seq<int>)
    ensures (forall i :: 0 <= i < |args| ==> !(0 <= args[i] <= 4)) ==>
              ApplyLogLevelArguments(current, args) == current
    ensures forall i :: 0 <= i < |args| && 0 <= args[i] <= 4 &&
                        (forall j :: i < j < |args| ==> !(0 <= args[j] <= 4)) ==>
              LevelArgument(ApplyLogLevelArguments(current, args)) == args[i]
    decreases |args|
  {
    if args != [] {
      var next := ApplyLogLevelArgument(current, args[0]);
      var rest := args[1..];
      LastValidLogLevelWins(next, rest);
      forall i | 0 <= i < |args| && 0 <= args[i] <= 4 &&
                 (forall j :: i < j < |args| ==> !(0 <= args[j] <= 4))
        ensures LevelArgument(ApplyLogLevelArguments(current, args)) == args[i]
      {
        if i == 0 {
          assert forall k :: 0 <= k < |rest| ==> rest[k] == args[k + 1];
        } else {
          assert rest[i - 1] == args[i];
          assert forall j :: i - 1 < j < |rest| ==> rest[j] == args[j + 1];
        }
      }
      if forall i :: 0 <= i < |args| ==> !(0 <= args[i] <= 4) {
        assert !(0 <= args[0] <= 4);
        assert forall k :: 0 <= k < |rest| ==> rest[k] == args[k + 1];
      }
    }
  }

  // ---------------------------------------------------------------------------
  // Building requests

  /** The addressing every request of this tool carries: port 1, no queued messages, the root device. */
  predicate HasFixedAddressing(r: RdmRequest)
  {
    r.portId == 1 && r.messageCount == 0 && r.subDevice == ROOT_RDM_DEVICE
  }

  /** The GET request SendGetRequest builds. */
  function GetRequest(src: Uid, dst: Uid, transactionNumber: nat, pid: Pid): (r: RdmRequest)
    ensures r.commandClass == GetCommand && HasFixedAddressing(r)
    ensures r.source == src && r.destination == dst
    ensures r.transactionNumber == transactionNumber && r.paramId == pid
    ensures r.paramData == []
  {
    RdmRequest(GetCommand, src, dst, transactionNumber, 1, 0, ROOT_RDM_DEVICE, pid, [])
  }

  /** The SET request SendSetRequest builds; it carries the first `dataLength` bytes at `data`. */
  function SetRequest(src: Uid, dst: Uid, transactionNumber: nat, pid: Pid,
                      data: seq<uint8>, dataLength: uint32): (r: RdmRequest)
    requires dataLength <= |data|
    ensures r.commandClass == SetCommand && HasFixedAddressing(r)
    ensures r.source == src && r.destination == dst
    ensures r.transactionNumber == transactionNumber && r.paramId == pid
    ensures |r.paramData| == dataLength && r.paramData <= data
  {
    RdmRequest(SetCommand, src, dst, transactionNumber, 1, 0, ROOT_RDM_DEVICE, pid, data[..dataLength])
  }

  /** The bytes of a 16-bit value in network (big-endian) byte order. */
  function NetworkOrder16(value: uint16): (bytes: seq<uint8>)
    ensures |bytes| == 2 && (bytes[0] as int) * 0x100 + bytes[1] == value
  {
    [value / 0x100, value % 0x100]
  }

  // ---------------------------------------------------------------------------
  // Dispatch and completion

  /** One completion as the transport delivers it: the code and the response, if any. */
  datatype Completion = Completion(code: ResponseCode, response: Option<RdmResponse>)

  /** RequestCallback dereferences the response when the code is RDM_COMPLETED_OK. */
  predicate Deliverable(c: Completion)
  {
    c.code == CompletedOk ==> c.response.Some?
  }

  function ResponsesOf(cs: seq<Completion>): (rs: seq<Option<RdmResponse>>)
    ensures |rs| == |cs|
    ensures forall i :: 0 <= i < |cs| ==> rs[i] == cs[i].response
  {
    if cs == [] then [] else [cs[0].response] + ResponsesOf(cs[1..])
  }

  /** Requests numbered consecutively from `first`, in dispatch order. */
  ghost predicate NumberedFrom(requests: seq<RdmRequest>, first: nat)
  {
    forall i :: 0 <= i < |requests| ==> requests[i].transactionNumber == first + i
  }

  /** Consecutively numbered requests carry strictly increasing, hence distinct, numbers. */
  lemma NumberedRequestsIncrease(requests: seq<RdmRequest>, first: nat)
    requires NumberedFrom(requests, first)
    ensures forall i, j :: 0 <= i < j < |requests| ==>
              requests[i].transactionNumber < requests[j].transactionNumber
  {
  }

  /**
   * The tool's global state: the transaction_number and responses_to_go
   * counters, the node's Stop calls, the requests handed to the universe
   * controller and the responses the completion callback released.
   */
  class Session {
    /** The number the next request is stamped with. */
    var transactionNumber: nat
    /** Requests dispatched and not yet completed. */
    var responsesToGo: nat
    /** How many times node->Stop() has been called. */
    var stopCalls: nat
    /** What the universe controller was handed, in dispatch order. */
    var dispatched: seq<RdmRequest>
    /** The responses RequestCallback deleted, in completion order (None for NULL). */
    var released: seq<Option<RdmResponse>>

    /** The object invariant; NumberedFrom gives strictly increasing numbers (see DispatchedNumbersIncrease). */
    ghost predicate Valid()
      reads this
    {
      |dispatched| == transactionNumber &&
      NumberedFrom(dispatched, 0) &&
      (forall i :: 0 <= i < |dispatched| ==> HasFixedAddressing(dispatched[i])) &&
      responsesToGo + |released| == |dispatched| &&
      stopCalls <= |released|
    }

    /** Both counters start at zero (static storage) and nothing has been sent. */
    constructor ()
      ensures Valid()
      ensures transactionNumber == 0 && responsesToGo == 0 && stopCalls == 0
      ensures dispatched == [] && released == []
    {
      transactionNumber := 0;
      responsesToGo := 0;
      stopCalls := 0;
      dispatched := [];
      released := [];
    }

    /** controller->SendRDMRequest: the universe controller takes the request. */
    method SendRdmRequest(command: RdmRequest)
      modifies this`dispatched
      ensures dispatched == old(dispatched) + [command]
    {
      dispatched := dispatched + [command];
    }

    method SendGetRequest(src: Uid, dst: Uid, pid: Pid)
      requires Valid()
      modifies this
      ensures Valid()
      ensures dispatched == old(dispatched) + [GetRequest(src, dst, old(transactionNumber), pid)]
      ensures transactionNumber == old(transactionNumber) + 1
      ensures responsesToGo == old(responsesToGo) + 1
      ensures stopCalls == old(stopCalls) && released == old(released)
    {
      var command := GetRequest(src, dst, transactionNumber, pid);
      transactionNumber := transactionNumber + 1;
      SendRdmRequest(command);
      responsesToGo := responsesToGo + 1;
    }

    method SendSetRequest(src: Uid, dst: Uid, pid: Pid, data: seq<uint8>, dataLength: uint32)
      requires Valid()
      requires dataLength <= |data|
      modifies this
      ensures Valid()
      ensures dispatched == old(dispatched)
                + [SetRequest(src, dst, old(transactionNumber), pid, data, dataLength)]
      ensures transactionNumber == old(transactionNumber) + 1
      ensures responsesToGo == old(responsesToGo) + 1
      ensures stopCalls == old(stopCalls) && released == old(released)
    {
      var command := SetRequest(src, dst, transactionNumber, pid, data, dataLength);
      transactionNumber := transactionNumber + 1;
      SendRdmRequest(command);
      responsesToGo := responsesToGo + 1;
    }

    /**
     * The completion callback. Whatever the code, it releases the response,
     * takes one off the outstanding count and stops the node when none are left.
     * The model assumes a completion only arrives for a request already counted
     * as outstanding, so the count is positive here.
     */
    method RequestCallback(code: ResponseCode, response: Option<RdmResponse>)
      requires Valid()
      requires responsesToGo > 0
      requires Deliverable(Completion(code, response))
      modifies this
      ensures Valid()
      ensures released == old(released) + [response]
      ensures responsesToGo == old(responsesToGo) - 1
      ensures stopCalls == old(stopCalls) + (if responsesToGo == 0 then 1 else 0)
      ensures transactionNumber == old(transactionNumber) && dispatched == old(dispatched)
    {
      released := released + [response];
      responsesToGo := responsesToGo - 1;
      if responsesToGo == 0 {
        stopCalls := stopCalls + 1;
      }
    }

    /**
     * node.Run(): the event loop hands each completion the transport delivers
     * to RequestCallback until the node is stopped. With one completion per
     * outstanding request, in any order and with any codes, every one of them
     * is handled, Stop is called exactly once, and only by the last.
     */
    method RunEventLoop(completions: seq<Completion>)
      requires Valid()
      requires responsesToGo > 0 && |completions| == responsesToGo
      requires forall i :: 0 <= i < |completions| ==> Deliverable(completions[i])
      modifies this
      ensures Valid()
      ensures responsesToGo == 0
      ensures released == old(released) + ResponsesOf(completions)
      ensures stopCalls == old(stopCalls) + 1
      ensures transactionNumber == old(transactionNumber) && dispatched == old(dispatched)
    {
      var stopsBefore := stopCalls;
      var i := 0;
      while stopCalls == stopsBefore
        invariant Valid()
        invariant 0 <= i <= |completions|
        invariant responsesToGo == |completions| - i
        invariant released == old(released) + ResponsesOf(completions[..i])
        invariant stopCalls == stopsBefore + (if i == |completions| then 1 else 0)
        invariant transactionNumber == old(transactionNumber) && dispatched == old(dispatched)
        decreases |completions| - i
      {
        assert completions[..i + 1] == completions[..i] + [completions[i]];
        RequestCallback(completions[i].code, completions[i].response);
        i := i + 1;
      }
      assert completions[..i] == completions;
    }
  }

  /**
   * The requests a session has dispatched carry strictly increasing, hence
   * distinct, transaction numbers, starting from 0.
   */
  lemma DispatchedNumbersIncrease(s: Session)
    requires s.Valid()
    ensures forall i, j :: 0 <= i < j < |s.dispatched| ==>
              s.dispatched[i].transactionNumber < s.dispatched[j].transactionNumber
    ensures |s.dispatched| > 0 ==> s.dispatched[0].transactionNumber == 0
  {
    NumberedRequestsIncrease(s.dispatched, 0);
  }

  /** The source UID the tool sends from. */
  const CONTROLLER_UID: Uid := Uid(OPEN_LIGHTING_ESTA_CODE, 0xabcdabcd)

  /** The DMX start address the tool sets. */
  const START_ADDRESS: uint16 := 10

  /**
   * The dispatch and run sequence of main, once the node is up and `dst` is
   * registered: two GETs and a SET, then the event loop if anything is
   * outstanding, fed the given completions. Returns what was dispatched, the
   * outstanding count just after dispatch, whether the loop ran, and the
   * count and number of Stop calls at the end.
   */
  method RunController(dst: Uid, completions: seq<Completion>)
    returns (requests: seq<RdmRequest>, outstanding: nat, ran: bool, remaining: nat, stops: nat)
    requires |completions| == 3
    requires forall i :: 0 <= i < |completions| ==> Deliverable(completions[i])
    ensures |requests| == 3
    ensures requests[0] == GetRequest(CONTROLLER_UID, dst, 0, PID_DEVICE_INFO)
    ensures requests[1] == GetRequest(CONTROLLER_UID, dst, 1, PID_SOFTWARE_VERSION_LABEL)
    ensures requests[2] == SetRequest(CONTROLLER_UID, dst, 2, PID_DMX_START_ADDRESS,
                                      [0x00, 0x0A], 2)
    ensures outstanding == 3 && ran
    ensures remaining == 0 && stops == 1
  {
    var session := new Session();
    session.SendGetRequest(CONTROLLER_UID, dst, PID_DEVICE_INFO);
    session.SendGetRequest(CONTROLLER_UID, dst, PID_SOFTWARE_VERSION_LABEL);
    var payload := NetworkOrder16(START_ADDRESS);
    session.SendSetRequest(CONTROLLER_UID, dst, PID_DMX_START_ADDRESS, payload, |payload|);
    requests := session.dispatched;
    outstanding := session.responsesToGo;
    if session.responsesToGo != 0 {
      session.RunEventLoop(completions);
      ran := true;
    } else {
      ran := false;
    }
    remaining := session.responsesToGo;
    stops := session.stopCalls;
  }
}
