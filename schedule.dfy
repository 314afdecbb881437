/**
 * The simulated chat API: every record of the script is handed to the main
 * queue with a delay two time units longer than the previous one, and each
 * delivery appends the record to the screen's feed if the screen still exists.
 */
module Schedule {
  import opened Wrappers
  import opened Messages
  import Feed

  /** The gap between two consecutive deliveries. */
  const Interval: nat := 2

  /** One delivery handed to the queue: append `message` once `delay` has elapsed. */
  datatype Pending = Pending(delay: nat, message: Message)

  /** `pending` holds one delivery per script record, in script order, the k-th after k intervals. */
  ghost predicate SchedulesInOrder(chatData: seq<Message>, pending: seq<Pending>)
  {
    && |pending| == |chatData|
    && forall k :: 0 <= k < |pending| ==> pending[k] == Pending(Interval * k, chatData[k])
  }

  /** Walks the script once, scheduling each record and growing the delay as it goes. */
  method DisplayMessages(chatData: seq<Message>) returns (pending: seq<Pending>)
    ensures SchedulesInOrder(chatData, pending)
  {
    var interval: nat := 0;
    pending := [];
    for i := 0 to |chatData|
      invariant interval == Interval * i
      invariant SchedulesInOrder(chatData[..i], pending)
    {
      pending := pending + [Pending(interval, chatData[i])];
      interval := interval + Interval;
    }
    assert chatData[..|chatData|] == chatData;
  }

  /** Delays strictly increase along the schedule, so deliveries fire in script order. */
  lemma DelaysStrictlyIncrease(chatData: seq<Message>, pending: seq<Pending>, i: nat, j: nat)
    requires SchedulesInOrder(chatData, pending)
    requires i < j < |pending|
    ensures pending[i].delay < pending[j].delay
  {
  }

  /**
   * The body of one scheduled delivery. The closure holds the screen weakly:
   * `null` stands for a screen already torn down, and then nothing happens.
   */
  method Deliver(screen: Feed.ChatScreen?, message: Message) returns (scroll: Option<nat>)
    modifies screen
    ensures screen == null ==> scroll == None
    ensures screen != null ==> screen.messages == old(screen.messages) + [message]
    ensures screen != null ==> scroll == Feed.ScrollTarget(screen.messages)
  {
    if screen == null {
      scroll := None;
    } else {
      scroll := screen.Append(message);
    }
  }

  /** The records whose delay has elapsed by time `t`, in schedule order. */
  function ArrivedBy(pending: seq<Pending>, t: nat): (arrived: seq<Message>)
    ensures |arrived| <= |pending|
  {
    if pending == [] then []
    else
      var last := pending[|pending| - 1];
      ArrivedBy(pending[..|pending| - 1], t) + (if last.delay <= t then [last.message] else [])
  }

  /**
   * The screen's life up to elapsed time `t`: it starts empty, the script is
   * scheduled, and every delivery whose deadline has passed runs, in
   * deadline order.
   */
  method RunUntil(chatData: seq<Message>, t: nat) returns (screen: Feed.ChatScreen)
    ensures screen.messages == chatData[..Min(|chatData|, t / Interval + 1)]
    ensures screen.NumberOfRows() == Min(|chatData|, t / Interval + 1)
  {
    screen := new Feed.ChatScreen();
    var pending := DisplayMessages(chatData);
    for i := 0 to |pending|
      invariant screen.messages == ArrivedBy(pending[..i], t)
    {
      assert pending[..i + 1][..i] == pending[..i];
      if pending[i].delay <= t {
        var _ := Deliver(screen, pending[i].message);
      }
    }
    assert pending[..|pending|] == pending;
    ArrivedByIsScriptPrefix(chatData, pending, t);
  }

  function Min(a: nat, b: nat): nat
  {
    if a <= b then a else b
  }

  /**
   * By elapsed time `t` exactly the first t / Interval + 1 script records
   * have reached their deadline (all of them once the script is spent), in
   * script order; the change observer scrolls once a second one has arrived.
   */
  lemma {:induction false} ArrivedByIsScriptPrefix(chatData: seq<Message>, pending: seq<Pending>, t: nat)
    requires SchedulesInOrder(chatData, pending)
    ensures ArrivedBy(pending, t) == chatData[..Min(|chatData|, t / Interval + 1)]
    ensures Feed.ScrollTarget(ArrivedBy(pending, t)).Some? <==> |chatData| > 1 && t >= Interval
  {
    if pending != [] {
      var n := |pending|;
      var last := pending[n - 1];
      assert SchedulesInOrder(chatData[..n - 1], pending[..n - 1]);
      ArrivedByIsScriptPrefix(chatData[..n - 1], pending[..n - 1], t);
      assert last == Pending(Interval * (n - 1), chatData[n - 1]);
      if last.delay <= t {
        assert n <= t / Interval + 1;
        assert chatData[..n - 1] + [chatData[n - 1]] == chatData;
      } else {
        assert t / Interval + 1 <= n - 1;
      }
    }
  }

}
