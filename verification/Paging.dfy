/** What a provider adapter promises about paging through a stable list. */
module Paging {
  import opened Option

  /** A SIM, named by its ICCID. */
  type Sim = string

  /** What one `list_subscriptions` call comes to. */
  datatype Fetch = Failed | Page(items: seq<Sim>, next: Option<string>)

  /** A stable list, with the offset each of the adapter's cursors stands for. */
  datatype Stream = Stream(items: seq<Sim>, pos: Option<string> -> int)

  /** Where reading a stream has got to. */
  datatype Live = Done | At(cursor: Option<string>)

  function Max(a: int, b: int): int { if a < b then b else a }
  function Min(a: int, b: int): int { if a < b then a else b }
  function Clamp(n: int, lo: int, hi: int): int { Min(Max(n, lo), hi) }

  ghost predicate OnTrack(s: Stream, live: Live) {
    live.At? ==> 0 <= s.pos(live.cursor) <= |s.items|
  }

  /** A page is the contiguous slice that starts at the cursor, a returned
      cursor stands right behind a nonempty slice, and None means the end. */
  ghost predicate Meets(s: Stream, cursor: Option<string>, limit: nat, f: Fetch) {
    && f.Page?
    && 0 <= s.pos(cursor) <= s.pos(cursor) + |f.items| <= |s.items|
    && |f.items| <= Max(limit, 1)
    && f.items == s.items[s.pos(cursor)..s.pos(cursor) + |f.items|]
    && (f.next.None? ==> s.pos(cursor) + |f.items| == |s.items|)
    && (f.next.Some? ==> f.items != [] && s.pos(f.next) == s.pos(cursor) + |f.items|)
  }

  function After(f: Fetch): Live {
    if f.Page? && f.next.Some? then At(f.next) else Done
  }

  /** `got` is what has been read of s when reading has got to `live`. */
  ghost predicate ReadUpTo(s: Stream, live: Live, got: seq<Sim>) {
    && OnTrack(s, live)
    && got == if live.Done? then s.items else s.items[..s.pos(live.cursor)]
  }

  /** One page moves the frontier and leaves no gap and no overlap. */
  lemma PageExtends(s: Stream, cursor: Option<string>, limit: nat, f: Fetch, got: seq<Sim>)
    requires ReadUpTo(s, At(cursor), got) && Meets(s, cursor, limit, f)
    ensures ReadUpTo(s, After(f), got + f.items)
  {
  }

  /** Pages still to come, the last of them possibly empty. */
  ghost function Remaining(s: Stream, live: Live): nat
    requires OnTrack(s, live)
  {
    if live.Done? then 0 else |s.items| - s.pos(live.cursor) + 1
  }

  /** The answer brings the end of the stream closer. */
  ghost predicate MovesOn(s: Stream, cursor: Option<string>, f: Fetch)
    requires OnTrack(s, At(cursor))
  {
    OnTrack(s, After(f)) && Remaining(s, After(f)) < Remaining(s, At(cursor))
  }

  /** Every page does, and so does a failure. */
  lemma PageShrinks(s: Stream, cursor: Option<string>, limit: nat, f: Fetch)
    requires OnTrack(s, At(cursor)) && (f.Failed? || Meets(s, cursor, limit, f))
    ensures MovesOn(s, cursor, f)
  {
  }
}
