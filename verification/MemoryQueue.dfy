/** The in-memory message queue: messages are appended at the tail and taken from the tail. */
module MemoryQueue {
  import opened Ids
  import opened Options

  class InMemoryQueue<M> {
    var msgs: seq<M>
    var latchedMsg: Option<M>

    /** The vertex the queue was made for, and which of its two queues it is. */
    ghost const owner: Id
    ghost const slot: nat

    constructor (ghost owner: Id, ghost slot: nat)
      ensures msgs == [] && latchedMsg == None && this.owner == owner && this.slot == slot
    {
      this.owner := owner;
      this.slot := slot;
      msgs := [];
      latchedMsg := None;
    }

    method Enqueue(msg: M)
      modifies this`msgs
      ensures msgs == old(msgs) + [msg]
    {
      msgs := msgs + [msg];
    }

    predicate PendingMessages()
      reads this
    {
      |msgs| != 0
    }

    method DiscardMessages()
      modifies this
      ensures msgs == [] && latchedMsg == None
    {
      msgs := [];
      latchedMsg := None;
    }

    /** Moves the message at the tail into the latch; false, and no change, if there is none. */
    method Next() returns (more: bool)
      modifies this
      ensures more <==> old(msgs) != []
      ensures more ==> latchedMsg.Some? && old(msgs) == msgs + [latchedMsg.value]
      ensures !more ==> msgs == old(msgs) && latchedMsg == old(latchedMsg)
    {
      var qLen := |msgs|;
      if qLen == 0 {
        return false;
      }
      latchedMsg := Some(msgs[qLen - 1]);
      msgs := msgs[..qLen - 1];
      return true;
    }

    function Message(): Option<M>
      reads this
    {
      latchedMsg
    }
  }
}
