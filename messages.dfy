/**
 * A chat record as the view controller stores it: a dictionary from string
 * keys to string values. The feed reads two keys, "type" (which side of the
 * conversation the message belongs to) and "message" (the text shown).
 */
module Messages {
  import opened Wrappers

  type Message = map<string, string>

  const TypeKey: string := "type"
  const TextKey: string := "message"

  /** Dictionary subscript: the value under `key`, or None when the key is absent. */
  function Lookup(m: Message, key: string): (v: Option<string>)
    ensures v.Some? <==> key in m
    ensures v.Some? ==> v.value == m[key]
  {
    if key in m then Some(m[key]) else None
  }

  /**
   * How the feed classifies a record. Only the exact values "received" and
   * "sent" are recognised; any other value, or no "type" key at all, is Other.
   */
  datatype Kind = Received | Sent | Other

  function KindOf(m: Message): (k: Kind)
    ensures k == Received <==> TypeKey in m && m[TypeKey] == "received"
    ensures k == Sent <==> TypeKey in m && m[TypeKey] == "sent"
    ensures k == Other <==> TypeKey !in m || (m[TypeKey] != "received" && m[TypeKey] != "sent")
  {
    var t := Lookup(m, TypeKey);
    if t == Some("received") then Received
    else if t == Some("sent") then Sent
    else Other
  }

}
