/** Values shared by the queue contract, the driver and the in-memory queue. */
module Records {

  /** `undefined` / `null` versus a present value. */
  datatype Option<T> = None | Some(value: T)

  /** An item handed out by a queue's `get`: the lease token and the payload. */
  datatype QueueRecord<P> = QueueRecord(ack: string, payload: P)
}
