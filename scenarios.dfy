/** Conversations worked through against the contracts alone. */
module Scenarios {
  import opened Wrappers
  import opened Messages
  import opened Rendering
  import Feed
  import Schedule

  function Record(kind: string, text: string): Message
  {
    map[TypeKey := kind, TextKey := text]
  }

  /** Two received messages in a row: only the first shows the avatar, and only the second scrolls. */
  method TwoReceived()
  {
    var screen := new Feed.ChatScreen();
    var s0 := screen.Append(Record("received", "hi"));
    assert s0 == None;
    var s1 := screen.Append(Record("received", "how are you"));
    assert s1 == Some(1);
    assert screen.NumberOfRows() == 2;
    assert CellForRow(screen.messages, 0).ShowsAvatar();
    assert !CellForRow(screen.messages, 1).ShowsAvatar();
    assert CellForRow(screen.messages, 1).text == Some("how are you");
  }

  /** A sent message, then a received one: the avatar moves to the received row. */
  method SentThenReceived()
  {
    var screen := new Feed.ChatScreen();
    var _ := screen.Append(Record("sent", "good"));
    var _ := screen.Append(Record("received", "great"));
    assert CellForRow(screen.messages, 0).SentCell?;
    assert CellForRow(screen.messages, 1).ShowsAvatar();
  }

  /** A record without a "type" key is drawn sent-style and hides the next avatar. */
  method UntypedRecord()
  {
    var screen := new Feed.ChatScreen();
    var _ := screen.Append(map[TextKey := "?"]);
    var _ := screen.Append(Record("received", "hello"));
    assert CellForRow(screen.messages, 0).SentCell?;
    assert !CellForRow(screen.messages, 1).ShowsAvatar();
  }

  /** A torn-down screen drops the delivery. */
  method DeliveryAfterTeardown()
  {
    var scroll := Schedule.Deliver(null, Record("received", "late"));
    assert scroll == None;
  }

  /** A three-record script arrives at times 0, 2 and 4. */
  method ThreeRecordScript()
  {
    var script := [Record("received", "a"), Record("sent", "b"), Record("received", "c")];
    var pending := Schedule.DisplayMessages(script);
    assert pending[1].delay == 2 && pending[2].delay == 4;
    Schedule.ArrivedByIsScriptPrefix(script, pending, 1);
    assert |Schedule.ArrivedBy(pending, 1)| == 1;
    Schedule.ArrivedByIsScriptPrefix(script, pending, 4);
    assert Schedule.ArrivedBy(pending, 4) == script;
  }

}
