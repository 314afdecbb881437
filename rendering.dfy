/**
 * The table's data source: what each row of the feed looks like. A row is
 * drawn in one of two cell styles; a received cell may carry the contact's
 * avatar, and the avatar is collapsed across consecutive received rows.
 */
module Rendering {
  import opened Wrappers
  import opened Messages

  /** The visible outcome of configuring one cell: its style, label text and avatar. */
  datatype Cell =
    | ReceivedCell(text: Option<string>, avatar: bool)
    | SentCell(text: Option<string>)
  {
    predicate ShowsAvatar() {
      ReceivedCell? && avatar
    }
  }

  /**
   * The cell for `row`. The style test and the look-back compare the optional
   * dictionary value with a string, so a missing "type" key never matches.
   */
  function CellForRow(messages: seq<Message>, row: nat): (c: Cell)
    requires row < |messages|
    ensures c.ReceivedCell? <==> KindOf(messages[row]) == Received
    ensures c.SentCell? <==> KindOf(messages[row]) != Received
    ensures c.text == Lookup(messages[row], TextKey)
    ensures c.ShowsAvatar() <==>
              KindOf(messages[row]) == Received && (row == 0 || KindOf(messages[row - 1]) == Sent)
  {
    var text := Lookup(messages[row], TextKey);
    if Lookup(messages[row], TypeKey) == Some("received") then
      var avatar := if row == 0 then true else Lookup(messages[row - 1], TypeKey) == Some("sent");
      ReceivedCell(text, avatar)
    else
      SentCell(text)
  }

  /** The top row shows the avatar exactly when it is drawn received-style. */
  lemma FirstRowAvatar(messages: seq<Message>)
    requires |messages| > 0
    ensures CellForRow(messages, 0).ShowsAvatar() <==> CellForRow(messages, 0).ReceivedCell?
  {
  }

  /**
   * The asymmetry of the rule: a row whose type is neither "received" nor
   * "sent" is drawn sent-style, yet a received row after it gets no avatar.
   */
  lemma OtherRowHidesAvatar(messages: seq<Message>, row: nat)
    requires 0 < row < |messages|
    requires KindOf(messages[row - 1]) == Other && KindOf(messages[row]) == Received
    ensures CellForRow(messages, row - 1).SentCell?
    ensures CellForRow(messages, row).ReceivedCell? && !CellForRow(messages, row).ShowsAvatar()
  {
  }

  /** In a block of consecutive received rows, no row after the first shows the avatar. */
  lemma OneAvatarPerRun(messages: seq<Message>, first: nat, last: nat)
    requires first <= last < |messages|
    requires forall k :: first <= k <= last ==> KindOf(messages[k]) == Received
    ensures forall k :: first < k <= last ==> !CellForRow(messages, k).ShowsAvatar()
  {
  }

  /**
   * The feed only grows at the end and the look-back only reads earlier rows,
   * so later appends never change how an existing row is drawn.
   */
  lemma RowStableUnderAppend(messages: seq<Message>, more: seq<Message>, row: nat)
    requires row < |messages|
    ensures CellForRow(messages + more, row) == CellForRow(messages, row)
  {
  }

  /** The number of rows in `messages` that show the avatar (a measure for the bound below). */
  function AvatarCount(messages: seq<Message>): (n: nat)
    ensures n <= |messages|
  {
    if messages == [] then 0
    else
      var last := |messages| - 1;
      AvatarCount(messages[..last]) + (if CellForRow(messages, last).ShowsAvatar() then 1 else 0)
  }

  /** The number of records whose type is exactly "sent" (a measure for the bound below). */
  function SentCount(messages: seq<Message>): (n: nat)
    ensures n <= |messages|
  {
    if messages == [] then 0
    else
      var last := |messages| - 1;
      SentCount(messages[..last]) + (if KindOf(messages[last]) == Sent then 1 else 0)
  }

  /**
   * Avatar grouping: every avatar below the top row is paid for by the sent
   * row just above it, so a conversation never shows more avatars than it
   * has sent messages, plus one for its top row.
   */
  lemma {:induction false} AvatarsBoundedBySentMessages(messages: seq<Message>)
    ensures AvatarCount(messages) <= SentCount(messages) + 1
    ensures |messages| > 0 && KindOf(messages[|messages| - 1]) == Sent ==>
              AvatarCount(messages) <= SentCount(messages)
  {
    if messages != [] {
      var last := |messages| - 1;
      var prefix := messages[..last];
      AvatarsBoundedBySentMessages(prefix);
      if last > 0 {
        assert prefix[last - 1] == messages[last - 1];
      }
    }
  }

}
