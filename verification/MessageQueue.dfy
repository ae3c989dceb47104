/** The worker's queue. Each method holds the queue's mutex throughout, so each is one atomic step. */
module MessageQueues {
  import opened Common

  datatype Result<T> = Ok(value: T) | RuntimeError

  class MessageQueue<T> {
    var messages: seq<T>

    constructor ()
      ensures messages == []
    {
      messages := [];
    }

    method Push(item: T)
      modifies this
      ensures messages == old(messages) + [item]
    {
      messages := messages + [item];
    }

    method IsEmpty() returns (empty: bool)
      ensures empty == (messages == [])
    {
      empty := messages == [];
    }

    /** Popping an empty queue throws. */
    method Pop() returns (item: Result<T>)
      modifies this
      ensures old(messages) == [] ==> item == RuntimeError && messages == []
      ensures old(messages) != [] ==> item == Ok(old(messages)[0]) && messages == old(messages)[1..]
    {
      if messages != [] {
        item := Ok(messages[0]);
        messages := messages[1..];
      } else {
        item := RuntimeError;
      }
    }

    /** One look at the queue by a caller that wants all of it: None means that it is empty and the wait goes on. */
    method WaitAndReturnAll() returns (deq: Option<seq<T>>)
      modifies this
      ensures deq == if old(messages) == [] then None else Some(old(messages))
      ensures messages == []
    {
      if messages == [] { return None; }
      deq := Some(messages);
      messages := [];
    }
  }
}
