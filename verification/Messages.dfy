/** Identifiers and messages shared by the parts of the cluster model. */
module Messages {
  import opened Store

  type InstId = nat
  type ConnId = nat
  type JobId = nat
  type Frame = Bytes

  /** What instances publish on `dev:<device_id>`. `via` is the connection
      whose loop published a frame; the relay never reads it, it only lets
      order be stated per sender. `Control` texts carry no routing state and
      are not part of this model. */
  datatype BusMsg =
    | Forward(from: DeviceId, via: ConnId, frame: Frame)
    | PairRevoked(statement: Statement)
    | PairsChanged
    | Replace(conn: ConnId)
    | Close

  /** A published message and the device channel it was published on. */
  datatype Envelope = Envelope(to: DeviceId, msg: BusMsg)

  /** What the hub hands to a connection task. */
  datatype Delivery = Bus(msg: BusMsg) | Resync

  datatype Request = Subscribe(device: DeviceId, conn: ConnId) | Unsubscribe(device: DeviceId)
}
