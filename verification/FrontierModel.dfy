/** One gateway's connections as values (src/frontier/connection.go): what a send
    and a close do to a connection. */
module FrontierModel {

  /** An encoded envelope; encoding is lossless and not modelled. */
  datatype Message = Message(body: string)

  /** The size of the Send channel. */
  const SEND_CAPACITY := 256

  datatype SendResult = Accepted | ConnectionClosed | SendBufferFull

  datatype ConnState = ConnState(userID: string, queue: seq<Message>, closed: bool, lastActive: int)

  /** The answer SendMessage gives. */
  function Verdict(c: ConnState): SendResult {
    if c.closed then ConnectionClosed
    else if |c.queue| < SEND_CAPACITY then Accepted
    else SendBufferFull
  }

  function Send(c: ConnState, msg: Message): ConnState {
    if Verdict(c).Accepted? then c.(queue := c.queue + [msg]) else c
  }

  /** IsAlive: active less than `timeout` ago. */
  predicate Alive(c: ConnState, now: int, timeout: int) { now - c.lastActive < timeout }
}
