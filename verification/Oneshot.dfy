/**
 A one-shot channel: one value, sent at most once, received at most once, with either end
 free to be dropped at any time.
 */
module OneshotChannel {
  import opened Results

  datatype Chan<T> =
    | Empty
    | Sent(value: T)
    | SenderDropped
    | ReceiverDropped
      // The receiver has resolved: with the value, or with the news that none will come.
    | Resolved(got: Option<T>)
  {
    predicate CanSend() { Empty? || ReceiverDropped? }
    predicate CanPoll() { Empty? || Sent? || SenderDropped? }

    /** The channel once its sender has sent. A value nobody can receive is lost. */
    function AfterSend(value: T): Chan<T>
      requires CanSend()
    {
      if Empty? then Sent(value) else ReceiverDropped
    }

    function AfterSenderDrop(): Chan<T> {
      if Empty? then SenderDropped else this
    }

    function AfterReceiverDrop(): Chan<T> {
      if Resolved? then this else ReceiverDropped
    }

    /** What polling the receiver yields; `None` while nothing has been decided. */
    function Ready(): Option<Option<T>>
      requires CanPoll()
    {
      match this
      case Sent(v) => Some(Some(v))
      case SenderDropped => Some(None)
      case _ => None
    }

    function AfterPoll(): Chan<T>
      requires CanPoll()
    {
      if Ready().Some? then Resolved(Ready().value) else this
    }
  }

  /** A one-shot channel as the two tasks that share it see it. */
  class Oneshot<T> {
    var chan: Chan<T>

    constructor ()
      ensures chan == Empty
    {
      chan := Empty;
    }

    /** `Sender::send`: false hands the value back, because nobody is listening. */
    method Send(value: T) returns (delivered: bool)
      requires chan.CanSend()
      modifies this
      ensures delivered <==> old(chan).Empty?
      ensures chan == old(chan).AfterSend(value)
    {
      delivered := chan.Empty?;
      if delivered { chan := Sent(value); }
    }

    /** `Receiver::poll`. Polling a receiver that has already resolved is a caller's bug. */
    method Poll() returns (ready: Option<Option<T>>)
      requires chan.CanPoll()
      modifies this
      ensures ready == old(chan).Ready()
      ensures chan == old(chan).AfterPoll()
    {
      match chan
      case Sent(v) =>
        ready := Some(Some(v));
        chan := Resolved(Some(v));
      case SenderDropped =>
        ready := Some(None);
        chan := Resolved(None);
      case _ =>
        ready := None;
    }
  }
}
