/**
 * The message feed owned by the chat screen: an append-only list of records
 * whose every change reloads the table and, once there is more than one row,
 * scrolls to the newest one.
 */
module Feed {
  import opened Wrappers
  import opened Messages

  /**
   * The row the change observer scrolls to after the list has become
   * `messages`: the last row, and only when there is more than one.
   */
  function ScrollTarget(messages: seq<Message>): (target: Option<nat>)
    ensures target.Some? <==> |messages| > 1
    ensures target.Some? ==> target.value < |messages| && target.value + 1 == |messages|
  {
    if |messages| > 1 then Some(|messages| - 1) else None
  }

  class ChatScreen {
    var messages: seq<Message>

    /** The screen starts with an empty feed. */
    constructor ()
      ensures messages == []
    {
      messages := [];
    }

    /**
     * Appends one record and runs the change observer; the reload is
     * implicit, the scroll is returned instead of performed.
     */
    method Append(m: Message) returns (scroll: Option<nat>)
      modifies this
      ensures messages == old(messages) + [m]
      ensures scroll == ScrollTarget(messages)
      ensures scroll.Some? <==> old(messages) != []
      ensures scroll.Some? ==> messages[scroll.value] == m
    {
      messages := messages + [m];
      scroll := ScrollTarget(messages);
    }

    /** The table has one row per record in the feed. */
    function NumberOfRows(): (n: nat)
      reads this
      ensures n == |messages|
    {
      |messages|
    }
  }

}
