/** The Audio Stream Endpoint state machine as the service library tabulates it. */
module AseControl {
  import opened Wrappers
  import opened QosNegotiation

  datatype AseState =
    | Idle
    | CodecConfigured
    | QosConfigured
    | Enabling
    | Streaming
    | Disabling
    | Releasing

  datatype AseOpcode =
    | Invalid
    | ConfigCodec
    | ConfigQos
    | Enable
    | ReceiverStartReady
    | Disable
    | ReceiverStopReady
    | UpdateMetadata
    | Release
    | Released

  /** The state an operation leads to, if the table allows it. */
  function Transition(dir: Direction, state: AseState, opcode: AseOpcode): Option<AseState> {
    match (state, opcode)
    case (Idle, ConfigCodec) => Some(CodecConfigured)
    case (CodecConfigured, ConfigCodec) => Some(CodecConfigured)
    case (CodecConfigured, ConfigQos) => Some(QosConfigured)
    case (CodecConfigured, Release) => Some(Releasing)
    case (QosConfigured, ConfigCodec) => Some(CodecConfigured)
    case (QosConfigured, ConfigQos) => Some(QosConfigured)
    case (QosConfigured, Enable) => Some(Enabling)
    case (QosConfigured, Release) => Some(Releasing)
    case (Enabling, ReceiverStartReady) => Some(Streaming)
    case (Enabling, Disable) => Some(if dir.SinkAse? then QosConfigured else Disabling)
    case (Enabling, UpdateMetadata) => Some(Enabling)
    case (Enabling, Release) => Some(Releasing)
    case (Streaming, Disable) => Some(if dir.SinkAse? then QosConfigured else Disabling)
    case (Streaming, UpdateMetadata) => Some(Streaming)
    case (Streaming, Release) => Some(Releasing)
    case (Disabling, ReceiverStopReady) => Some(QosConfigured)
    case (Disabling, Release) => Some(Releasing)
    case (Releasing, Release) => Some(Releasing)
    case _ => None
  }

  /** The table by operation: where each leads does not depend on where it starts, but for Update
      Metadata, which leads nowhere, and Disable, which takes a sink back to QoS Configured at
      once and a source by way of Disabling. */
  lemma TableByOperation(dir: Direction, s: AseState)
    ensures Transition(dir, s, ConfigCodec) ==
            if s.Idle? || s.CodecConfigured? || s.QosConfigured? then Some(CodecConfigured) else None
    ensures Transition(dir, s, ConfigQos) == if s.CodecConfigured? || s.QosConfigured? then Some(QosConfigured) else None
    ensures Transition(dir, s, Enable) == if s.QosConfigured? then Some(Enabling) else None
    ensures Transition(dir, s, ReceiverStartReady) == if s.Enabling? then Some(Streaming) else None
    ensures Transition(dir, s, UpdateMetadata) == if s.Enabling? || s.Streaming? then Some(s) else None
    ensures Transition(dir, s, Disable) ==
            if !s.Enabling? && !s.Streaming? then None else if dir.SinkAse? then Some(QosConfigured) else Some(Disabling)
    ensures Transition(dir, s, ReceiverStopReady) == if s.Disabling? then Some(QosConfigured) else None
    ensures Transition(dir, s, Release) == if s.Idle? then None else Some(Releasing)
    ensures Transition(dir, s, Released).None? && Transition(dir, s, Invalid).None?
  {
  }
}
