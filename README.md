# FuzzyChatBot chat feed, modelled in Dafny

FuzzyChatBot is a single chat screen. Its view controller keeps a list of chat records. A timer feeds the list from a fixed script, one record every two time units. A table shows the list, and each row is drawn as a "received" or a "sent" bubble. Received rows can carry the contact's avatar, but consecutive received rows show it only once. This project models that logic apart from UIKit.

- `wrappers.dfy`: module `Wrappers`, the `Option` type, which stands for Swift optionals.
- `messages.dfy`: module `Messages`. A record is a `map<string, string>`, as in the source (`[String: String]`). `KindOf` sorts a record into three kinds from its `"type"` key: `Received`, `Sent` or `Other`.
- `rendering.dfy`: module `Rendering`. `CellForRow` is the decision made in `tableView(_:cellForRowAt:)`: cell style, label text and avatar. Lemmas about the avatar rule sit beside it.
- `feed.dfy`: module `Feed`. Class `ChatScreen` holds the `messages` field. `Append` is the only change to it, and it returns the row the `didSet` observer scrolls to. `NumberOfRows` is the row count.
- `schedule.dfy`: module `Schedule`. `DisplayMessages` is the scheduling loop. `Deliver` is the body of one weakly captured delivery. `ArrivedBy` lists the records whose deadline has passed by a given elapsed time. `RunUntil` runs those deliveries against a real `ChatScreen`. `AvatarCount` and `SentCount` in `rendering.dfy` are counting helpers for the avatar bound.
- `scenarios.dfy`: client methods that work through example conversations using only the contracts above.

Two points of the model follow directly from how the code stores and reads records:

- A record is a `[String: String]` dictionary, not a value with a two-valued sender. The code compares its optional `"type"` value with exact strings. So a record whose type is missing, or is neither `"received"` nor `"sent"`, is drawn sent-style. Yet it still hides the avatar on a received row that follows it. The model keeps this third case (`Kind.Other`). Likewise the label text is the optional `"message"` value, and a record without that key gets an empty (nil) label: `Option<string>`.
- There is no bounds-checked accessor. `cellForRowAt` indexes the array directly, and Swift traps on a bad index. So `CellForRow` requires `row < |messages|`. The table only asks for rows below the count it was given.

## Model

| member | source | states |
|---|---|---|
| Messages.Lookup | FuzzyChatBot/ViewController.swift:64-66 | the dictionary subscript yields the key's value iff the key is present, and nil otherwise |
| Messages.KindOf | FuzzyChatBot/ViewController.swift:64-69 | a record is Received iff its "type" value is exactly "received", Sent iff it is exactly "sent", and Other iff the key is missing or holds any other value |
| Rendering.CellForRow | FuzzyChatBot/ViewController.swift:63-80 | a row is drawn received-style iff its record is Received, and sent-style otherwise; the label is the record's "message" value in both styles; the avatar shows iff the row is Received and it is row 0 or the row above is Sent |
| Rendering.FirstRowAvatar | FuzzyChatBot/ViewController.swift:64-68 | the top row shows the avatar iff it is drawn received-style |
| Rendering.OtherRowHidesAvatar | FuzzyChatBot/ViewController.swift:64-79 | a row of any other type is drawn sent-style, yet a received row right after it shows no avatar |
| Rendering.OneAvatarPerRun | FuzzyChatBot/ViewController.swift:67-73 | in a block of consecutive received rows, no row after the first shows the avatar |
| Rendering.RowStableUnderAppend | FuzzyChatBot/ViewController.swift:63-80 | appending records never changes how an existing row is drawn: its style, text and avatar stay the same |
| Rendering.AvatarsBoundedBySentMessages | FuzzyChatBot/ViewController.swift:67-73 | a conversation shows at most one avatar per sent message plus one for its top row, and no more than one per sent message when it ends in a sent message |
| Feed.ScrollTarget | FuzzyChatBot/ViewController.swift:15-17 | the change observer scrolls iff the list has more than one row, and then to its last row, which exists |
| Feed.ChatScreen.constructor | FuzzyChatBot/ViewController.swift:12 | the feed starts empty |
| Feed.ChatScreen.Append | FuzzyChatBot/ViewController.swift:12-18 | the new list is the old list with the record added at the end, all earlier records unchanged; a scroll happens iff the list was non-empty before, and it targets the new record |
| Feed.ChatScreen.NumberOfRows | FuzzyChatBot/ViewController.swift:59-61 | the table reports exactly as many rows as there are records in the feed |
| Schedule.DisplayMessages | FuzzyChatBot/ViewController.swift:49-56 | one delivery per script record, in script order; the k-th delivery carries the k-th record and a delay of 2·k |
| Schedule.DelaysStrictlyIncrease | FuzzyChatBot/ViewController.swift:50-55 | along a schedule built this way, delays strictly increase, so no two deliveries tie and they fire in script order |
| Schedule.Deliver | FuzzyChatBot/ViewController.swift:52-54 | a delivery to a torn-down screen does nothing; to a live screen it appends the record and runs the change observer |
| Schedule.ArrivedBy | FuzzyChatBot/ViewController.swift:52-53 | the records whose deadline is at most t, in schedule order; never more than were scheduled |
| Schedule.ArrivedByIsScriptPrefix | FuzzyChatBot/ViewController.swift:49-56 | the records that have reached their deadline by elapsed time t are exactly the first min(n, t/2 + 1) script records, in script order; the observer scrolls from the second arrival on, that is iff the script has at least two records and t ≥ 2 |
| Schedule.RunUntil | FuzzyChatBot/ViewController.swift:12-56 | a screen that starts empty, schedules the script and runs every due delivery through the weakly captured append holds, at elapsed time t, exactly the first min(n, t/2 + 1) script records in script order, and reports that many rows |

## Left out

- Rendering.CellForRow: requires `row < |messages|`. A negative or out-of-range row makes Swift trap, and the model does not represent that crash as an error value.
- View and cell construction, colours, fonts and Auto Layout constraints (`setupView`, `ReceivedCell`, `SentCell`): these are presentation only.
- `reloadData`, `scrollToRow`, cell dequeuing and `UIImage` loading are UIKit calls. Their effect is returned as values instead: the scroll target from `Append`, and the `Cell` value with its avatar flag from `CellForRow`.
- `DispatchQueue.main.asyncAfter` and real time. The schedule is a value: a sequence of (delay, record) pairs. What has arrived by time t is the function `ArrivedBy`. It assumes that the main queue runs deliveries in deadline order.
- The `[weak self]` capture is modelled as a nullable screen passed to `Deliver`. Reference counting and the teardown itself are not modelled.
- `interval` is a `Double` in the source. Its values are exact small whole numbers, so the model uses `nat`.
- The contents of `chatData` are not part of this model. The script is an arbitrary input sequence.
- The table has a single section. The `section` argument and the `IndexPath` wrapper are dropped, and rows are plain indices.
