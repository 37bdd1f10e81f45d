/**
 * The command session history: which command name each issued command id
 * belongs to, so that a later server response can be correlated.
 */
module SessionHistory {
  import opened Wrappers

  type History = map<int, string>

  /** The history of a fresh or reset session. */
  function Empty(): (h: History)
    ensures |h| == 0
  {
    map[]
  }

  /** `setPacket(id, name)`: record `name` under `id`, replacing any earlier entry. */
  function SetPacket(h: History, id: int, name: string): (h': History)
    ensures h'.Keys == h.Keys + {id}
    ensures h'[id] == name
    ensures forall k :: k in h && k != id ==> h'[k] == h[k]
  {
    h[id := name]
  }

  /** The name recorded for `id`, if any. */
  function NameOf(h: History, id: int): (r: Option<string>)
    ensures r.Some? <==> id in h
    ensures r.Some? ==> h[id] == r.value
  {
    if id in h then Some(h[id]) else None
  }

  /** Every entry of `h` is still present, unchanged, in `h'`. */
  predicate Extends(h: History, h': History)
  {
    forall k :: k in h ==> k in h' && h'[k] == h[k]
  }
}
