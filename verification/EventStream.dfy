/**
 The event stream of a job: a cursor loop over an append-only log, interleaved
 with writers. A turn is what one pass of the loop happens to see: the log when
 it queries, and the job status, the connection and the event bus after that.
 */
module EventStream {
  import opened Options

  datatype Event = Event(id: nat, kind: string, data: string)

  datatype Frame = EventFrame(event: Event) | Heartbeat

  datatype Turn = Turn(log: seq<Event>, terminal: bool, gone: bool, notified: bool)

  /** How many events one query returns at most. */
  const PAGE: nat := 500

  /** Writers hold the job row while they insert, so ids grow in commit order. */
  ghost predicate Ordered(log: seq<Event>) {
    forall i, j | 0 <= i < j < |log| :: log[i].id < log[j].id
  }

  /** The log only grows from turn to turn, and `final` is what it grows into. */
  ghost predicate Growing(turns: seq<Turn>, final: seq<Event>) {
    Ordered(final) && forall i | 0 <= i < |turns| :: turns[i].log <= final
  }

  predicate Seen(e: Event, cursor: Option<nat>) {
    cursor.Some? && e.id <= cursor.value
  }

  /** The events behind the cursor; no cursor means all of them. */
  function After(log: seq<Event>, cursor: Option<nat>): seq<Event> {
    if log == [] then []
    else (if Seen(log[0], cursor) then [] else [log[0]]) + After(log[1..], cursor)
  }

  function First(s: seq<Event>, n: nat): seq<Event> {
    if |s| <= n then s else s[..n]
  }

  /** `list_after`: at most PAGE events behind the cursor, in id order. */
  function Page(log: seq<Event>, cursor: Option<nat>): seq<Event> {
    First(After(log, cursor), PAGE)
  }

  function Advance(log: seq<Event>, cursor: Option<nat>): Option<nat> {
    Reached(Page(log, cursor), cursor)
  }

  /** The cursor once `events` have been emitted. */
  function Reached(events: seq<Event>, cursor: Option<nat>): Option<nat> {
    if events == [] then cursor else Some(events[|events| - 1].id)
  }

  /** The cursor after some turns that started at `last`. */
  function CursorAfter(turns: seq<Turn>, last: Option<nat>): Option<nat> {
    if turns == [] then last
    else Advance(turns[|turns| - 1].log, CursorAfter(turns[..|turns| - 1], last))
  }

  predicate Ends(t: Turn) { t.terminal || t.gone }

  function EventOf(f: Frame): seq<Event> {
    if f.EventFrame? then [f.event] else []
  }

  function EventsOf(frames: seq<Frame>): seq<Event> {
    if frames == [] then [] else EventOf(frames[0]) + EventsOf(frames[1..])
  }

  lemma {:induction false} EventsOfAppend(a: seq<Frame>, b: seq<Frame>)
    ensures EventsOf(a + b) == EventsOf(a) + EventsOf(b)
  {
    if a == [] {
      assert a + b == b;
    } else {
      assert (a + b)[1..] == a[1..] + b;
      EventsOfAppend(a[1..], b);
      Associates(EventOf(a[0]), EventsOf(a[1..]), EventsOf(b));
    }
  }

  lemma Associates(a: seq<Event>, b: seq<Event>, c: seq<Event>)
    ensures a + b + c == a + (b + c)
  {}

  function AsFrames(events: seq<Event>): (frames: seq<Frame>)
    ensures |frames| == |events|
  {
    seq(|events|, i requires 0 <= i < |events| => EventFrame(events[i]))
  }

  /** What one turn sends: its page, or a heartbeat if it goes on with nothing to say. */
  function TurnFrames(turn: Turn, cursor: Option<nat>): seq<Frame> {
    var page := Page(turn.log, cursor);
    if page == [] && !Ends(turn) && !turn.notified then [Heartbeat] else AsFrames(page)
  }

  /**
   A turn sends the first 500 events behind its cursor, fewer only when there are no
   more; with none it sends one heartbeat if the job is not finished, the client is
   there and no notification came, and otherwise nothing.
   */
  lemma TurnSends(turn: Turn, cursor: Option<nat>)
    ensures var frames, behind := TurnFrames(turn, cursor), After(turn.log, cursor);
      && (behind != [] ==>
            && |frames| == (if |behind| <= 500 then |behind| else 500)
            && forall i | 0 <= i < |frames| :: frames[i] == EventFrame(behind[i]))
      && (behind == [] ==>
            frames == if turn.terminal || turn.gone || turn.notified then [] else [Heartbeat])
  {
    hide After;
  }

  function FramesOf(turns: seq<Turn>, last: Option<nat>): seq<Frame> {
    if turns == [] then []
    else
      var init := turns[..|turns| - 1];
      FramesOf(init, last) + TurnFrames(turns[|turns| - 1], CursorAfter(init, last))
  }

  /** How many of the turns a connection lives to see: up to the first that ends it. */
  function Lifetime(turns: seq<Turn>): (n: nat)
    ensures n <= |turns|
  {
    if turns == [] then 0 else if Ends(turns[0]) then 1 else 1 + Lifetime(turns[1..])
  }

  // ------------------------------------------------------------------ the loop

  /**
   The loop, from the cursor the client sent to the turn that closes it, or as
   far as the turns go. It emits exactly the events behind the starting cursor up
   to its own, each once and in order, and a heartbeat only in a turn without events
   that goes on without having been notified.
   */
  method Stream(turns: seq<Turn>, last: Option<nat>, ghost final: seq<Event>)
      returns (frames: seq<Frame>, cursor: Option<nat>, used: nat)
    requires Growing(turns, final)
    ensures used == Lifetime(turns)
    ensures forall i | 0 <= i < used - 1 :: !turns[i].terminal && !turns[i].gone
    ensures used < |turns| ==> used > 0 && (turns[used - 1].terminal || turns[used - 1].gone)
    ensures frames == FramesOf(turns[..used], last) && cursor == CursorAfter(turns[..used], last)
    ensures EventsOf(frames) + After(final, cursor) == After(final, last)
    ensures cursor == Reached(EventsOf(frames), last)
  {
    hide After, EventsOf, Growing, Lifetime;
    frames, cursor, used := [], last, 0;
    while used < |turns|
      invariant used <= |turns| && cursor == CursorAfter(turns[..used], last)
      invariant frames == FramesOf(turns[..used], last)
      invariant forall i | 0 <= i < used :: !Ends(turns[i])
    {
      var turn := turns[used];
      var emitted := false;
      var page := Page(turn.log, cursor);
      ghost var sent, from := frames, cursor;
      for k := 0 to |page|
        invariant frames == sent + AsFrames(page[..k])
        invariant cursor == Reached(page[..k], from) && emitted == (k > 0)
      {
        emitted := true;
        cursor := Some(page[k].id);
        assert AsFrames(page[..k + 1]) == AsFrames(page[..k]) + [EventFrame(page[k])];
        frames := frames + [EventFrame(page[k])];
      }
      assert page[..|page|] == page;
      assert turns[..used + 1][..used] == turns[..used];
      used := used + 1;
      if Ends(turn) {
        Closes(turns, used, last, final);
        return;
      }
      if !emitted && !turn.notified {
        frames := frames + [Heartbeat];
      }
    }
    Closes(turns, used, last, final);
  }

  lemma Closes(turns: seq<Turn>, used: nat, last: Option<nat>, final: seq<Event>)
    requires Growing(turns, final)
    requires used <= |turns| && forall i | 0 <= i < used - 1 :: !Ends(turns[i])
    requires used < |turns| ==> used > 0 && Ends(turns[used - 1])
    ensures used == Lifetime(turns)
    ensures var frames, cursor := FramesOf(turns[..used], last), CursorAfter(turns[..used], last);
      EventsOf(frames) + After(final, cursor) == After(final, last) && cursor == Reached(EventsOf(frames), last)
  {
    Lives(turns, used);
    Delivers(turns[..used], last, final);
  }

  lemma {:induction false} Lives(turns: seq<Turn>, used: nat)
    requires used <= |turns| && forall i | 0 <= i < used - 1 :: !Ends(turns[i])
    requires used < |turns| ==> used > 0 && Ends(turns[used - 1])
    ensures Lifetime(turns) == used
    decreases used
  {
    if turns != [] && used > 1 {
      forall i | 0 <= i < used - 2 ensures !Ends(turns[1..][i]) { assert turns[1..][i] == turns[i + 1]; }
      assert !Ends(turns[0]);
      Lives(turns[1..], used - 1);
    }
  }

  lemma {:induction false} AsFramesEvents(events: seq<Event>)
    ensures EventsOf(AsFrames(events)) == events
  {
    if events != [] {
      assert AsFrames(events)[1..] == AsFrames(events[1..]);
      AsFramesEvents(events[1..]);
    }
  }

  lemma TurnEvents(turn: Turn, cursor: Option<nat>)
    ensures EventsOf(TurnFrames(turn, cursor)) == Page(turn.log, cursor)
  {
    AsFramesEvents(Page(turn.log, cursor));
    assert EventsOf([Heartbeat]) == [];
  }

  /** What turns send, followed by what then lies behind the cursor, is what lay behind the starting one. */
  lemma {:induction false} Delivers(turns: seq<Turn>, last: Option<nat>, final: seq<Event>)
    requires forall i | 0 <= i < |turns| :: turns[i].log <= final
    requires Ordered(final)
    ensures EventsOf(FramesOf(turns, last)) + After(final, CursorAfter(turns, last)) == After(final, last)
    ensures CursorAfter(turns, last) == Reached(EventsOf(FramesOf(turns, last)), last)
    decreases |turns|
  {
    hide After, Page;
    if turns == [] {
      assert EventsOf([]) + After(final, last) == After(final, last);
    } else {
      var turn, init := turns[|turns| - 1], turns[..|turns| - 1];
      Delivers(init, last, final);
      var before, at := FramesOf(init, last), CursorAfter(init, last);
      TurnEvents(turn, at);
      EventsOfAppend(before, TurnFrames(turn, at));
      TurnSplits(turn.log, at, final);
      hide EventsOf, TurnFrames;
      Associates(EventsOf(before), Page(turn.log, at), After(final, Advance(turn.log, at)));
      ReachedAppend(EventsOf(before), Page(turn.log, at), last);
    }
  }

  lemma ReachedAppend(a: seq<Event>, b: seq<Event>, cursor: Option<nat>)
    ensures Reached(a + b, cursor) == Reached(b, Reached(a, cursor))
  {
    assert b == [] ==> a + b == a;
  }

  /** Only events of the log are sent. */
  lemma {:induction false} FramesAreEvents(turns: seq<Turn>, last: Option<nat>, final: seq<Event>)
    requires forall i | 0 <= i < |turns| :: turns[i].log <= final
    requires Ordered(final)
    ensures forall f | f in FramesOf(turns, last) :: f.EventFrame? ==> f.event in final
    decreases |turns|
  {
    if turns != [] {
      var turn, init := turns[|turns| - 1], turns[..|turns| - 1];
      FramesAreEvents(init, last, final);
      PageInLog(turn.log, CursorAfter(init, last));
      forall f | f in TurnFrames(turn, CursorAfter(init, last)) && f.EventFrame? ensures f.event in final {
        var page := Page(turn.log, CursorAfter(init, last));
        var i :| 0 <= i < |page| && f == EventFrame(page[i]);
        assert page[i] in turn.log;
      }
    }
  }

  lemma PageInLog(log: seq<Event>, cursor: Option<nat>)
    ensures forall e | e in Page(log, cursor) :: e in log
  {
    AfterInLog(log, cursor);
  }

  lemma {:induction false} AfterInLog(log: seq<Event>, cursor: Option<nat>)
    ensures forall e | e in After(log, cursor) :: e in log
  {
    if log != [] { AfterInLog(log[1..], cursor); }
  }

  // ------------------------------------------------------------ one turn's page

  lemma OrderedTail(log: seq<Event>)
    requires Ordered(log) && log != []
    ensures Ordered(log[1..])
  {}

  /** Behind a cursor below all ids lies the whole log. */
  lemma {:induction false} AfterAll(log: seq<Event>, cursor: Option<nat>)
    requires forall i | 0 <= i < |log| :: !Seen(log[i], cursor)
    ensures After(log, cursor) == log
  {
    if log != [] { AfterAll(log[1..], cursor); }
  }

  /** Of an ordered log what lies behind a cursor is a suffix: the rest is at or below it. */
  lemma {:induction false} AfterIsSuffix(log: seq<Event>, cursor: Option<nat>) returns (k: nat)
    requires Ordered(log)
    ensures k <= |log| && After(log, cursor) == log[k..]
    ensures forall i | 0 <= i < k :: Seen(log[i], cursor)
    ensures forall i | k <= i < |log| :: !Seen(log[i], cursor)
  {
    if log == [] {
      k := 0;
    } else if !Seen(log[0], cursor) {
      AfterAll(log, cursor);
      k := 0;
    } else {
      OrderedTail(log);
      var rest := AfterIsSuffix(log[1..], cursor);
      k := rest + 1;
      assert log[1..][rest..] == log[k..];
      forall i | k <= i < |log| ensures !Seen(log[i], cursor) { assert log[i] == log[1..][i - 1]; }
      forall i | 0 <= i < k ensures Seen(log[i], cursor) { if i > 0 { assert log[i] == log[1..][i - 1]; } }
    }
  }

  /** A suffix of an ordered log is what lies behind the last id before it. */
  lemma SuffixIsAfter(log: seq<Event>, cursor: Option<nat>, k: nat)
    requires Ordered(log) && k <= |log|
    requires forall i | 0 <= i < k :: Seen(log[i], cursor)
    requires forall i | k <= i < |log| :: !Seen(log[i], cursor)
    ensures After(log, cursor) == log[k..]
  {
    var m := AfterIsSuffix(log, cursor);
    assert m < |log| ==> !Seen(log[m], cursor);
    assert k < |log| ==> !Seen(log[k], cursor);
  }

  /** Emitting a first part of what lies behind the cursor moves the cursor exactly past it. */
  lemma PrefixAdvances(log: seq<Event>, cursor: Option<nat>, part: seq<Event>)
    requires Ordered(log) && part <= After(log, cursor)
    ensures part + After(log, Reached(part, cursor)) == After(log, cursor)
  {
    hide After;
    if part != [] {
      var k := AfterIsSuffix(log, cursor);
      Cut(log, k, part);
      SuffixIsAfter(log, Some(log[k + |part| - 1].id), k + |part|);
    }
  }

  /** A first part of the suffix at `k` is a middle part of the log. */
  lemma Cut(log: seq<Event>, k: nat, part: seq<Event>)
    requires k <= |log| && part <= log[k..]
    ensures k + |part| <= |log| && part + log[k + |part|..] == log[k..]
    ensures part != [] ==> part[|part| - 1] == log[k + |part| - 1]
  {
    assert log[k..][..|part|] == part;
    assert log[k..][|part|..] == log[k + |part|..];
  }

  /** Events appended later come behind whatever was behind the cursor already. */
  lemma AfterGrows(log: seq<Event>, cursor: Option<nat>, final: seq<Event>)
    requires Ordered(final) && log <= final
    ensures After(log, cursor) <= After(final, cursor)
  {
    hide After;
    var k := AfterIsSuffix(final, cursor);
    forall i, j | 0 <= i < j < |log| ensures log[i].id < log[j].id { assert log[i] == final[i] && log[j] == final[j]; }
    forall i | 0 <= i < |log| ensures log[i] == final[i] {}
    forall i | 0 <= i < |log| && i < k ensures Seen(log[i], cursor) { assert final[i] == log[i]; }
    forall i | k <= i < |log| ensures !Seen(log[i], cursor) { assert final[i] == log[i]; }
    if k <= |log| {
      SuffixIsAfter(log, cursor, k);
      assert log[k..] == final[k..|log|];
      assert final[k..] == final[k..|log|] + final[|log|..];
    } else {
      SuffixIsAfter(log, cursor, |log|);
    }
  }

  lemma TurnSplits(log: seq<Event>, cursor: Option<nat>, final: seq<Event>)
    requires Ordered(final) && log <= final
    ensures Page(log, cursor) + After(final, Advance(log, cursor)) == After(final, cursor)
  {
    AfterGrows(log, cursor, final);
    PrefixAdvances(final, cursor, Page(log, cursor));
  }

  // -------------------------------------------------------- the end of a stream

  /**
   What a stream has left undelivered when it closes at the last of its turns:
   nothing, if and only if its last query saw all events of the job behind the
   cursor and there were no more of them than one query returns.
   */
  lemma ClosesCompletely(turns: seq<Turn>, last: Option<nat>, final: seq<Event>)
    requires Growing(turns, final) && turns != []
    ensures var seen, cursor := turns[|turns| - 1].log, CursorAfter(turns[..|turns| - 1], last);
      (After(final, CursorAfter(turns, last)) == [])
      <==> (After(seen, cursor) == After(final, cursor) && |After(final, cursor)| <= 500)
  {
    var seen, cursor := turns[|turns| - 1].log, CursorAfter(turns[..|turns| - 1], last);
    AfterGrows(seen, cursor, final);
    TurnSplits(seen, cursor, final);
  }

  /** The promise as it was meant: it fails by one event committed between the query and the status. */
  lemma LostAtTheEnd(log: seq<Event>, e: Event)
    requires Ordered(log + [e]) && |log| <= 500
    ensures var turn := Turn(log, true, false, true);
      && Growing([turn], log + [e]) && Ends(turn)
      && After(log + [e], CursorAfter([turn], None)) == [e]
  {
    hide After;
    AfterAll(log, None);
    AfterAll(log + [e], None);
    TurnSplits(log, None, log + [e]);
    OneTurn(Turn(log, true, false, true), None);
    Cancel(log, After(log + [e], Advance(log, None)), [e]);
  }

  lemma Cancel(a: seq<Event>, x: seq<Event>, y: seq<Event>)
    requires a + x == a + y
    ensures x == y
  {
    assert x == (a + x)[|a|..] && y == (a + y)[|a|..];
  }

  lemma OneTurn(turn: Turn, last: Option<nat>)
    ensures CursorAfter([turn], last) == Advance(turn.log, last)
  {
    assert [turn][..0] == [];
    assert CursorAfter([turn], last) == Advance(turn.log, CursorAfter([turn][..0], last));
  }

  /** The turn of a finished job: every query sees all of its events. */
  function FinalTurn(final: seq<Event>): Turn {
    Turn(final, true, false, false)
  }

  /** The cursor after `n` connections to a finished job, each closed by its first turn. */
  function Reconnected(final: seq<Event>, last: Option<nat>, n: nat): Option<nat> {
    if n == 0 then last else CursorAfter([FinalTurn(final)], Reconnected(final, last, n - 1))
  }

  /** After `n` connections to a finished job exactly the first 500 n events were delivered. */
  lemma {:induction false} ReconnectsDeliver(final: seq<Event>, last: Option<nat>, n: nat)
    requires Ordered(final)
    ensures var all := After(final, last);
      After(final, Reconnected(final, last, n)) == if 500 * n < |all| then all[500 * n..] else []
  {
    if n > 0 {
      var all, before := After(final, last), Reconnected(final, last, n - 1);
      ReconnectsDeliver(final, last, n - 1);
      NextPage(final, before);
      hide After, CursorAfter;
      if 500 * n < |all| {
        assert all[500 * (n - 1)..][500..] == all[500 * n..];
      }
    }
  }

  /** One more connection to a finished job takes one page off what is left. */
  lemma NextPage(final: seq<Event>, cursor: Option<nat>)
    requires Ordered(final)
    ensures var left := After(final, cursor);
      After(final, CursorAfter([FinalTurn(final)], cursor)) == if 500 < |left| then left[500..] else []
  {
    hide After;
    TurnSplits(final, cursor, final);
    OneTurn(FinalTurn(final), cursor);
    var left, page := After(final, cursor), Page(final, cursor);
    assert left == page + left[|page|..];
    Cancel(page, After(final, Advance(final, cursor)), left[|page|..]);
  }
}
