/** Whole runs of a paged endpoint: the client sends back each page's cursor
    until there is none. Stated for any endpoint, as a step function. */
module Runs {
  import opened Option
  import opened Paging
  import opened FanOut

  datatype Result =
    | Raised
    | Listed(items: seq<Item>, next: Option<string>, failed: set<string>)

  /** How a run comes out, with what its pages have delivered: a page raised, there
      is no cursor left, or the turns ran out. */
  datatype Journey =
    | Aborted(items: seq<Item>)
    | Ended(items: seq<Item>)
    | Unfinished(items: seq<Item>)

  function Prepend(items: seq<Item>, j: Journey): Journey { j.(items := items + j.items) }

  /** Follow `next_cursor` until there is none, a page raises, or the turns run out. */
  function Follow<T>(step: (Option<string>, T) -> Result, cursor: Option<string>, turns: seq<T>): Journey
    decreases |turns|
  {
    if turns == [] then Unfinished([])
    else
      var r := step(cursor, turns[0]);
      if r.Raised? then Aborted([])
      else if r.next.None? then Ended(r.items)
      else Prepend(r.items, Follow(step, r.next, turns[1..]))
  }

  /** The stream's frontier after a page; without a cursor everything is over. */
  function LiveNext(live: Option<string> -> Live, next: Option<string>): Live {
    if next.Some? then live(next) else Done
  }

  /** Every page of the endpoint extends what has been read of s, where `live`
      tells from the cursor how far that is. */
  ghost predicate Extends<T>(step: (Option<string>, T) -> Result, t: T,
                             live: Option<string> -> Live, key: string, s: Stream) {
    forall c, got | ReadUpTo(s, live(c), got) && step(c, t).Listed? ::
      ReadUpTo(s, LiveNext(live, step(c, t).next), got + Of(key, step(c, t).items))
  }

  lemma ConcatIsAssociative(a: seq<Sim>, b: seq<Sim>, c: seq<Sim>)
    ensures a + (b + c) == a + b + c
  {
  }

  /** From any point on, the rest of a run emits the rest of the stream, or a
      prefix of that when it is unfinished or aborted. */
  lemma {:induction false} RunReads<T>(step: (Option<string>, T) -> Result, cursor: Option<string>, turns: seq<T>,
                                       live: Option<string> -> Live, key: string, s: Stream, got: seq<Sim>)
    requires forall t | t in turns :: Extends(step, t, live, key, s)
    requires ReadUpTo(s, live(cursor), got)
    ensures var j := Follow(step, cursor, turns);
            if j.Ended? then got + Of(key, j.items) == s.items else got + Of(key, j.items) <= s.items
    decreases |turns|
  {
    assert got + [] == got;
    if turns != [] {
      var r := step(cursor, turns[0]);
      assert Extends(step, turns[0], live, key, s);
      if r.Listed? && r.next.Some? {
        var more := got + Of(key, r.items);
        RunReads(step, r.next, turns[1..], live, key, s, more);
        var rest := Follow(step, r.next, turns[1..]).items;
        OfConcat(key, r.items, rest);
        ConcatIsAssociative(got, Of(key, r.items), Of(key, rest));
      }
    }
  }

  /** A page only raises when the stream is exhausted. */
  ghost predicate RaisesAtEnd<T>(step: (Option<string>, T) -> Result, t: T, live: Option<string> -> Live, s: Stream) {
    forall c, got | ReadUpTo(s, live(c), got) && step(c, t).Raised? :: got == s.items
  }

  /** Then an aborted run has emitted all of it too. */
  lemma {:induction false} FinishedRunReads<T>(step: (Option<string>, T) -> Result, cursor: Option<string>,
                                               turns: seq<T>, live: Option<string> -> Live, key: string, s: Stream,
                                               got: seq<Sim>)
    requires forall t | t in turns :: Extends(step, t, live, key, s) && RaisesAtEnd(step, t, live, s)
    requires ReadUpTo(s, live(cursor), got)
    requires !Follow(step, cursor, turns).Unfinished?
    ensures got + Of(key, Follow(step, cursor, turns).items) == s.items
    decreases |turns|
  {
    var r := step(cursor, turns[0]);
    assert got + [] == got;
    assert turns[0] in turns;
    if r.Raised? {
      assert RaisesAtEnd(step, turns[0], live, s);
    } else {
      assert Extends(step, turns[0], live, key, s);
      if r.next.Some? {
        FinishedRunReads(step, r.next, turns[1..], live, key, s, got + Of(key, r.items));
        var rest := Follow(step, r.next, turns[1..]).items;
        OfConcat(key, r.items, rest);
        ConcatIsAssociative(got, Of(key, r.items), Of(key, rest));
      }
    }
  }

  /** The first page and the rest of a run. */
  lemma {:induction false} JourneyStep<T>(step: (Option<string>, T) -> Result, cursor: Option<string>, turns: seq<T>,
                                          key: string)
    requires turns != [] && step(cursor, turns[0]).Listed?
    ensures var r := step(cursor, turns[0]);
            Of(key, Follow(step, cursor, turns).items) == Of(key, r.items) +
              if r.next.Some? then Of(key, Follow(step, r.next, turns[1..]).items) else []
  {
    var r := step(cursor, turns[0]);
    if r.next.Some? { OfConcat(key, r.items, Follow(step, r.next, turns[1..]).items); }
  }

  // ---------- One page of a run ----------

  /** The cursor that the client sends on turn k, if the run gets there. */
  datatype Sent = Never | Sent(cursor: Option<string>)

  function SentAt<T>(step: (Option<string>, T) -> Result, cursor: Option<string>, turns: seq<T>, k: nat): Sent
    requires k < |turns|
    decreases k
  {
    if k == 0 then Sent(cursor)
    else
      var r := step(cursor, turns[0]);
      if r.Listed? && r.next.Some? then SentAt(step, r.next, turns[1..], k - 1) else Never
  }

  /** If page k emits nothing of a key and neither does what follows it, the run
      emits exactly what had been read when page k was asked for. */
  lemma {:induction false} RunReadsUpTo<T>(step: (Option<string>, T) -> Result, cursor: Option<string>, turns: seq<T>,
                                           k: nat, live: Option<string> -> Live, key: string, s: Stream, got: seq<Sim>)
    requires k < |turns| && forall i | 0 <= i < k :: Extends(step, turns[i], live, key, s)
    requires ReadUpTo(s, live(cursor), got) && SentAt(step, cursor, turns, k).Sent?
    requires Of(key, Follow(step, SentAt(step, cursor, turns, k).cursor, turns[k..]).items) == []
    ensures ReadUpTo(s, live(SentAt(step, cursor, turns, k).cursor), got + Of(key, Follow(step, cursor, turns).items))
    decreases k
  {
    if k == 0 {
      assert turns[0..] == turns && got + [] == got;
    } else {
      var r := step(cursor, turns[0]);
      assert Extends(step, turns[0], live, key, s);
      assert turns[1..][k - 1..] == turns[k..];
      RunReadsUpTo(step, r.next, turns[1..], k - 1, live, key, s, got + Of(key, r.items));
      JourneyStep(step, cursor, turns, key);
      ConcatIsAssociative(got, Of(key, r.items), Of(key, Follow(step, r.next, turns[1..]).items));
    }
  }

  /** Two pages, of which the first reads all that the run ever reads of a key. */
  lemma {:induction false} TwoPages<T>(step: (Option<string>, T) -> Result, turns: seq<T>, key: string, read: seq<Sim>)
    requires |turns| >= 2 && step(None, turns[0]).Listed? && step(None, turns[0]).next.Some?
    requires Of(key, step(None, turns[0]).items) == read
    requires var r := step(step(None, turns[0]).next, turns[1]);
             r.Listed? && Of(key, r.items) == []
             && (r.next.Some? ==> Of(key, Follow(step, r.next, turns[1..][1..]).items) == [])
    ensures Of(key, Follow(step, None, turns).items) == read
  {
    JourneyStep(step, None, turns, key);
    JourneyStep(step, step(None, turns[0]).next, turns[1..], key);
    assert read + [] == read;
  }

  /** A key of which neither the first page nor the rest of a run has anything. */
  lemma {:induction false} NothingOnFirstPage<T>(step: (Option<string>, T) -> Result, cursor: Option<string>,
                                                 turns: seq<T>, key: string)
    requires turns != []
    requires var r := step(cursor, turns[0]);
             r.Listed? ==> Of(key, r.items) == []
                           && (r.next.Some? ==> Of(key, Follow(step, r.next, turns[1..]).items) == [])
    ensures Of(key, Follow(step, cursor, turns).items) == []
  {
    if step(cursor, turns[0]).Listed? { JourneyStep(step, cursor, turns, key); }
  }

  /** A key that is through, and that no page revives, emits nothing more. */
  lemma {:induction false} DoneEmitsNothing<T>(step: (Option<string>, T) -> Result, cursor: Option<string>,
                                               turns: seq<T>,
                                               live: Option<string> -> Live, key: string)
    requires live(cursor) == Done
    requires forall t, c | t in turns && live(c) == Done && step(c, t).Listed? ::
               Of(key, step(c, t).items) == [] && LiveNext(live, step(c, t).next) == Done
    ensures Of(key, Follow(step, cursor, turns).items) == []
    decreases |turns|
  {
    if turns != [] {
      var r := step(cursor, turns[0]);
      assert turns[0] in turns;
      if r.Listed? && r.next.Some? {
        DoneEmitsNothing(step, r.next, turns[1..], live, key);
        OfConcat(key, r.items, Follow(step, r.next, turns[1..]).items);
      }
    }
  }

  /** A positive measure that every page with a cursor lowers bounds the run. */
  lemma {:induction false} RunIsBounded<T>(step: (Option<string>, T) -> Result, cursor: Option<string>, turns: seq<T>,
                                           work: Option<string> -> int)
    requires forall t, c | t in turns && work(c) > 0 && step(c, t).Listed? && step(c, t).next.Some? ::
               0 < work(step(c, t).next) < work(c)
    requires 0 < work(cursor) <= |turns|
    ensures !Follow(step, cursor, turns).Unfinished?
    decreases |turns|
  {
    var r := step(cursor, turns[0]);
    assert turns[0] in turns;
    if r.Listed? && r.next.Some? {
      RunIsBounded(step, r.next, turns[1..], work);
    }
  }

  lemma {:induction false} RunIsNotAborted<T>(step: (Option<string>, T) -> Result, cursor: Option<string>,
                                              turns: seq<T>)
    requires forall t, c | t in turns :: step(c, t).Listed?
    ensures !Follow(step, cursor, turns).Aborted?
    decreases |turns|
  {
    if turns != [] {
      assert turns[0] in turns;
      var r := step(cursor, turns[0]);
      if r.next.Some? { RunIsNotAborted(step, r.next, turns[1..]); }
    }
  }

  /** A run whose every page keeps something live, and has a cursor, does not end. */
  lemma {:induction false} RunGoesOn<T>(step: (Option<string>, T) -> Result, cursor: Option<string>, turns: seq<T>,
                                        live: Option<string> -> bool)
    requires live(cursor)
    requires forall t, c | t in turns && live(c) ::
               step(c, t).Listed? && step(c, t).next.Some? && live(step(c, t).next)
    ensures Follow(step, cursor, turns).Unfinished?
    decreases |turns|
  {
    if turns != [] {
      assert turns[0] in turns;
      RunGoesOn(step, step(cursor, turns[0]).next, turns[1..], live);
    }
  }

  /** If a bound on what is left goes down by one with every page, and no page
      at a bound of one has a cursor, the run is over within the bound. */
  lemma {:induction false} RunEndsWithin<T>(step: (Option<string>, T) -> Result, cursor: Option<string>, turns: seq<T>,
                                            within: (Option<string>, nat) -> bool, n: nat)
    requires forall t, c, m: nat | t in turns && within(c, m) && step(c, t).Listed? && step(c, t).next.Some? ::
               m >= 2 && within(step(c, t).next, m - 1)
    requires within(cursor, n) && 0 < n <= |turns|
    ensures !Follow(step, cursor, turns).Unfinished?
    decreases |turns|
  {
    var r := step(cursor, turns[0]);
    assert turns[0] in turns;
    if r.Listed? && r.next.Some? { RunEndsWithin(step, r.next, turns[1..], within, n - 1); }
  }
}
