/**
 * What a `RegistryEventStream` emits over a whole record history.
 *
 * The buffer is drained with `pop()`, from its end, so the events of each
 * page come out last-first while the pages themselves come out in the order
 * the registry serves them. A page without events ends the stream, whatever
 * its `hasMore` says. These lemmas state both, for a consumer that never
 * reports "full".
 */
module Pagination {
  import opened JsValues
  import opened HistoryApi
  import opened EventStream

  /** A sequence emptied by repeated `pop()`: last element first. */
  function Reverse<T>(s: seq<T>): (r: seq<T>)
    ensures |r| == |s|
    decreases |s|
  {
    if s == [] then [] else [s[|s| - 1]] + Reverse(s[..|s| - 1])
  }

  /** The i-th element popped is the i-th from the end, and nothing is lost or gained. */
  lemma {:induction false} ReverseAt<T>(s: seq<T>)
    ensures forall i :: 0 <= i < |s| ==> Reverse(s)[i] == s[|s| - 1 - i]
    ensures multiset(Reverse(s)) == multiset(s)
    decreases |s|
  {
    if s != [] {
      var init := s[..|s| - 1];
      ReverseAt(init);
      assert s == init + [s[|s| - 1]];
      forall i | 0 <= i < |s|
        ensures Reverse(s)[i] == s[|s| - 1 - i]
      {
        if i > 0 {
          assert Reverse(s)[i] == Reverse(init)[i - 1];
        }
      }
    }
  }

  /** Reversal undoes itself: popping the popped events gives back the page. */
  lemma ReverseReverse<T>(s: seq<T>)
    ensures Reverse(Reverse(s)) == s
  {
    ReverseAt(s);
    ReverseAt(Reverse(s));
  }

  /** A consumer that never reports its buffer full. */
  ghost predicate NeverFull(io: StreamIo) {
    forall log :: io.push(log)
  }

  /** The registry answers a history request made with this cursor with this page. */
  predicate Serves(cfg: StreamConfig, io: StreamIo, token: string, page: Page) {
    var opts := PageOptions(cfg, io, token);
    opts.Success? && GetRecordHistory(cfg.registryApiUrl, cfg.recordId, opts.value, io.env, io.fetch) == Success(page)
  }

  /**
   * A well-formed history starting at cursor `token`: every page but the
   * last says there is more, carries the token of the next page and holds
   * events; the last page says there is no more.
   */
  predicate WellPaged(cfg: StreamConfig, io: StreamIo, token: string, pages: seq<Page>)
    decreases |pages|
  {
    |pages| > 0 && Serves(cfg, io, token, pages[0]) &&
    if |pages| == 1 then !pages[0].hasMore
    else
      pages[0].hasMore && NextToken(pages[0]) != "" && |pages[0].events| > 0 &&
      WellPaged(cfg, io, NextToken(pages[0]), pages[1..])
  }

  /** How many events the pages hold together. */
  function TotalEvents(pages: seq<Page>): (n: nat)
    ensures pages == [] ==> n == 0
    decreases |pages|
  {
    if pages == [] then 0 else |pages[0].events| + TotalEvents(pages[1..])
  }

  /** The pages' events in registry order. */
  function AllEvents(pages: seq<Page>): (r: seq<Event>)
    ensures |r| == TotalEvents(pages)
    decreases |pages|
  {
    if pages == [] then [] else pages[0].events + AllEvents(pages[1..])
  }

  /** The pages in registry order, each page's events last-first. */
  function ReversedPages(pages: seq<Page>): (r: seq<Event>)
    ensures |r| == TotalEvents(pages)
    decreases |pages|
  {
    if pages == [] then [] else Reverse(pages[0].events) + ReversedPages(pages[1..])
  }

  /** The reordering within pages loses and duplicates nothing. */
  lemma {:induction false} ReversedPagesPermutes(pages: seq<Page>)
    ensures multiset(ReversedPages(pages)) == multiset(AllEvents(pages))
    decreases |pages|
  {
    if pages != [] {
      ReverseAt(pages[0].events);
      ReversedPagesPermutes(pages[1..]);
    }
  }

  /**
   * A fetch that the registry answers: `hasMore` and `pageToken` are
   * overwritten first, even when the page is then rejected as a protocol
   * violation; a page with events is appended to the buffer; a page without
   * events leaves everything but the cursor as it was and returns false.
   */
  lemma FetchedPageUpdatesCursor(st: StreamState, cfg: StreamConfig, io: StreamIo, page: Page)
    requires st.hasMore && Serves(cfg, io, st.pageToken, page)
    ensures var r := FetchStep(st, cfg, io);
      && r.0.hasMore == page.hasMore
      && r.0.pageToken == NextToken(page)
      && r.0.calls == st.calls + [PageOptions(cfg, io, st.pageToken).value]
      && (page.hasMore && NextToken(page) == "" ==>
            !r.1 && r.0.failure == Some(InvalidResponse(page)) && r.0.cache == st.cache)
      && (!(page.hasMore && NextToken(page) == "") && |page.events| > 0 ==>
            r.1 && r.0.cache == st.cache + page.events && r.0.failure == st.failure)
      && (!(page.hasMore && NextToken(page) == "") && |page.events| == 0 ==>
            !r.1 && r.0.cache == st.cache && r.0.failure == st.failure)
  {
  }

  /**
   * A fetch that fails (signing throws, the registry answers not-ok or
   * cannot be reached) destroys the stream with that error and leaves the
   * cursor and the buffer as they were.
   */
  lemma FetchFailureDestroys(st: StreamState, cfg: StreamConfig, io: StreamIo)
    requires st.hasMore
    requires var opts := PageOptions(cfg, io, st.pageToken);
      opts.Failure? || GetRecordHistory(cfg.registryApiUrl, cfg.recordId, opts.value, io.env, io.fetch).Failure?
    ensures var r := FetchStep(st, cfg, io);
      && !r.1
      && r.0.failure == Some(
           var opts := PageOptions(cfg, io, st.pageToken);
           if opts.Failure? then opts.error
           else GetRecordHistory(cfg.registryApiUrl, cfg.recordId, opts.value, io.env, io.fetch).error)
      && r.0.hasMore == st.hasMore && r.0.pageToken == st.pageToken && r.0.cache == st.cache
  {
  }

  /**
   * A page without events ends the stream at once, even when it says there
   * are more pages (and names the next one).
   */
  lemma EmptyPageEndsStream(st: StreamState, cfg: StreamConfig, io: StreamIo, page: Page, fuel: nat)
    requires st.cache == [] && st.hasMore && Serves(cfg, io, st.pageToken, page)
    requires |page.events| == 0 && fuel > 0
    ensures var r := Drain(st, cfg, io, fuel);
      && r.ended && r.emitted == st.emitted && r.cache == []
      && r.hasMore == page.hasMore && |r.calls| == |st.calls| + 1
  {
    FetchedPageUpdatesCursor(st, cfg, io, page);
  }

  /** The state after one event is popped from the buffer's end and pushed. */
  function Pop(st: StreamState): (r: StreamState)
    requires st.cache != []
    ensures |r.cache| == |st.cache| - 1
  {
    st.(cache := st.cache[..|st.cache| - 1], emitted := st.emitted + [st.cache[|st.cache| - 1]])
  }

  /** The state after the whole buffer is pushed out, last event first. */
  function Flushed(st: StreamState): StreamState {
    st.(cache := [], emitted := st.emitted + Reverse(st.cache))
  }

  /** The state after a fetch that put `page` into the buffer. */
  function Fetched(st: StreamState, cfg: StreamConfig, io: StreamIo, page: Page): StreamState
    requires PageOptions(cfg, io, st.pageToken).Success?
  {
    st.(hasMore := page.hasMore, pageToken := NextToken(page), cache := st.cache + page.events,
        calls := st.calls + [PageOptions(cfg, io, st.pageToken).value])
  }

  /**
   * With a consumer that never says "full", a non-empty buffer is emptied
   * last-first without a fetch, one round per event.
   */
  lemma {:induction false} DrainFlush(st: StreamState, cfg: StreamConfig, io: StreamIo, fuel: nat, left: nat)
    requires NeverFull(io) && fuel == |st.cache| + left
    ensures Drain(st, cfg, io, fuel) == Drain(Flushed(st), cfg, io, left)
    decreases |st.cache|
  {
    if st.cache == [] {
      assert Flushed(st) == st;
    } else {
      PopRound(st, cfg, io, fuel);
      DrainFlush(Pop(st), cfg, io, fuel - 1, left);
      PopThenFlush(st);
    }
  }

  /** Popping one event and then flushing the rest emits what flushing the whole buffer emits. */
  lemma PopThenFlush(st: StreamState)
    requires st.cache != []
    ensures Flushed(Pop(st)) == Flushed(st)
  {
    var n := |st.cache|;
    assert Reverse(st.cache) == [st.cache[n - 1]] + Reverse(st.cache[..n - 1]);
    assert (st.emitted + [st.cache[n - 1]]) + Reverse(st.cache[..n - 1]) == st.emitted + Reverse(st.cache);
  }

  /** With a consumer that never says "full", a round on a non-empty buffer pops and pushes its last event. */
  lemma PopRound(st: StreamState, cfg: StreamConfig, io: StreamIo, fuel: nat)
    requires NeverFull(io) && st.cache != [] && fuel > 0
    ensures Drain(st, cfg, io, fuel) == Drain(Pop(st), cfg, io, fuel - 1)
  {
    var s := Emit(st, io);
    assert io.push(s.0.emitted);
    assert s.0 == Pop(st);
    assert PushStep(st, cfg, io) == s;
  }

  /**
   * With a consumer that never says "full", the round that fetches a page
   * with events pushes that page's last event and keeps the rest buffered.
   */
  lemma FetchRoundPopsLast(st: StreamState, cfg: StreamConfig, io: StreamIo, page: Page, fuel: nat)
    requires NeverFull(io) && st.cache == [] && st.hasMore && Serves(cfg, io, st.pageToken, page)
    requires !(page.hasMore && NextToken(page) == "") && |page.events| > 0
    requires fuel > 0
    ensures Drain(st, cfg, io, fuel) == Drain(Pop(Fetched(st, cfg, io, page)), cfg, io, fuel - 1)
  {
    FetchedPageUpdatesCursor(st, cfg, io, page);
    FetchStepShape(st, cfg, io);
    var fetched := Fetched(st, cfg, io, page);
    assert FetchStep(st, cfg, io) == (fetched, true);
    var s := Emit(fetched, io);
    assert io.push(s.0.emitted);
    assert s.0 == Pop(fetched);
    assert PushStep(st, cfg, io) == s;
  }

  /**
   * The state once a fetched page has been pushed out whole: the cursor
   * moved to the page's successor, the page's events emitted last-first,
   * one more request made, the buffer empty again.
   */
  function Consumed(st: StreamState, cfg: StreamConfig, io: StreamIo, page: Page): (r: StreamState)
    requires PageOptions(cfg, io, st.pageToken).Success?
  {
    st.(hasMore := page.hasMore, pageToken := NextToken(page),
        emitted := st.emitted + Reverse(page.events),
        calls := st.calls + [PageOptions(cfg, io, st.pageToken).value])
  }

  /**
   * The state a stream reaches by consuming a well-formed history page by
   * page and then pushing end-of-stream.
   */
  function Replay(st: StreamState, cfg: StreamConfig, io: StreamIo, pages: seq<Page>): (r: StreamState)
    requires WellPaged(cfg, io, st.pageToken, pages)
    decreases |pages|
  {
    var next := Consumed(st, cfg, io, pages[0]);
    if |pages| == 1 then next.(ended := true) else Replay(next, cfg, io, pages[1..])
  }

  /**
   * Replaying a history emits the pages in registry order, each page's
   * events last-first, makes one request per page, ends the stream and
   * neither destroys it nor leaves anything buffered.
   */
  lemma {:induction false} ReplayOutcome(st: StreamState, cfg: StreamConfig, io: StreamIo, pages: seq<Page>)
    requires WellPaged(cfg, io, st.pageToken, pages)
    ensures var r := Replay(st, cfg, io, pages);
      && r.emitted == st.emitted + ReversedPages(pages)
      && r.ended && r.failure == st.failure && r.cache == st.cache && !r.hasMore
      && |r.calls| == |st.calls| + |pages|
    decreases |pages|
  {
    var next := Consumed(st, cfg, io, pages[0]);
    if |pages| == 1 {
      assert ReversedPages(pages) == Reverse(pages[0].events) + ReversedPages([]);
    } else {
      ReplayOutcome(next, cfg, io, pages[1..]);
      assert ReversedPages(pages) == Reverse(pages[0].events) + ReversedPages(pages[1..]);
    }
  }

  /**
   * With a consumer that never says "full", the rounds after a fetch of a
   * page with events push out exactly that page, one round per event.
   */
  lemma DrainFetchedPage(st: StreamState, cfg: StreamConfig, io: StreamIo, page: Page, fuel: nat)
    requires NeverFull(io) && st.cache == [] && st.hasMore && Serves(cfg, io, st.pageToken, page)
    requires !(page.hasMore && NextToken(page) == "") && |page.events| > 0
    requires fuel >= |page.events|
    ensures Drain(st, cfg, io, fuel) == Drain(Consumed(st, cfg, io, page), cfg, io, fuel - |page.events|)
  {
    var fetched := Fetched(st, cfg, io, page);
    var left: nat := fuel - |page.events|;
    assert fetched.cache == page.events;
    calc {
      Drain(st, cfg, io, fuel);
    == { FetchRoundPopsLast(st, cfg, io, page, fuel); }
      Drain(Pop(fetched), cfg, io, fuel - 1);
    == { DrainFlush(Pop(fetched), cfg, io, fuel - 1, left); }
      Drain(Flushed(Pop(fetched)), cfg, io, left);
    == { PopThenFlush(fetched); assert Flushed(fetched) == Consumed(st, cfg, io, page); }
      Drain(Consumed(st, cfg, io, page), cfg, io, left);
    }
  }


  /**
   * A stream with nothing buffered and nothing more to fetch ends in one round.
   */
  lemma DrainExhausted(st: StreamState, cfg: StreamConfig, io: StreamIo, fuel: nat)
    requires st.cache == [] && !st.hasMore && fuel > 0
    ensures Drain(st, cfg, io, fuel) == st.(ended := true)
  {
    assert PushStep(st, cfg, io) == (st.(ended := true), false);
  }

  /**
   * With a consumer that never says "full" and enough rounds, a stream at
   * the start of a well-formed history reaches exactly the replayed state;
   * by `ReplayOutcome` it has emitted every page in registry order, each
   * page's events last-first, made one request per page and ended without
   * being destroyed.
   */
  lemma {:induction false} DrainHistory(st: StreamState, cfg: StreamConfig, io: StreamIo, pages: seq<Page>, fuel: nat)
    requires NeverFull(io) && st.cache == [] && st.hasMore
    requires WellPaged(cfg, io, st.pageToken, pages)
    requires fuel > TotalEvents(pages)
    ensures Drain(st, cfg, io, fuel) == Replay(st, cfg, io, pages)
    decreases |pages|
  {
    var page := pages[0];
    var next := Consumed(st, cfg, io, page);
    if |page.events| == 0 {
      // Only the last page of a well-formed history can be empty.
      FetchedPageUpdatesCursor(st, cfg, io, page);
      assert next == FetchStep(st, cfg, io).0;
      assert PushStep(st, cfg, io) == (next.(ended := true), false);
    } else {
      var rest := fuel - |page.events|;
      DrainFetchedPage(st, cfg, io, page, fuel);
      if |pages| == 1 {
        DrainExhausted(next, cfg, io, rest);
      } else {
        DrainHistory(next, cfg, io, pages[1..], rest);
      }
    }
  }

  /**
   * A freshly constructed stream read by a consumer that never says "full"
   * emits the whole history, each page's events last-first, and ends
   * without being destroyed.
   */
  lemma FreshStreamEmitsHistory(cfg: StreamConfig, io: StreamIo, pages: seq<Page>, fuel: nat)
    requires NeverFull(io) && WellPaged(cfg, io, "", pages) && fuel > TotalEvents(pages)
    ensures var r := Drain(InitialState(), cfg, io, fuel);
      r.emitted == ReversedPages(pages) && r.ended && r.failure.None? && |r.calls| == |pages|
  {
    DrainHistory(InitialState(), cfg, io, pages, fuel);
    ReplayOutcome(InitialState(), cfg, io, pages);
  }

  // ---------------------------------------------------------------------
  // Any consumer

  /**
   * A stream part-way through a well-formed history: what it has emitted,
   * then its buffer popped last-first, then the pages still to fetch (each
   * last-first) make up `target`; it has not been destroyed; while it has
   * more to fetch, the registry serves `rest` from its cursor, and once it
   * has no more, no page is left; once it has pushed end-of-stream, nothing
   * is buffered either.
   */
  predicate OnTrack(st: StreamState, cfg: StreamConfig, io: StreamIo, rest: seq<Page>, target: seq<Event>) {
    && st.emitted + Reverse(st.cache) + ReversedPages(rest) == target
    && st.failure.None?
    && (st.hasMore ==> WellPaged(cfg, io, st.pageToken, rest))
    && (!st.hasMore ==> rest == [])
    && (st.ended ==> st.cache == [] && rest == [])
  }

  /** The pages still to fetch after one round: a round on an empty buffer fetches the next page. */
  function Remaining(st: StreamState, rest: seq<Page>): seq<Page> {
    if st.cache == [] && st.hasMore && rest != [] then rest[1..] else rest
  }

  /** What a stream on track has emitted is a prefix of the target. */
  lemma OnTrackPrefix(st: StreamState, cfg: StreamConfig, io: StreamIo, rest: seq<Page>, target: seq<Event>)
    requires OnTrack(st, cfg, io, rest, target)
    ensures st.emitted <= target
  {
    assert target == st.emitted + (Reverse(st.cache) + ReversedPages(rest));
  }

  /** A round that pops from a non-empty buffer keeps the stream on track. */
  lemma PopOnTrack(st: StreamState, cfg: StreamConfig, io: StreamIo, rest: seq<Page>, target: seq<Event>)
    requires OnTrack(st, cfg, io, rest, target) && st.cache != []
    ensures OnTrack(Pop(st), cfg, io, rest, target)
  {
    PopThenFlush(st);
    assert Pop(st).emitted + Reverse(Pop(st).cache) == st.emitted + Reverse(st.cache) by {
      assert Flushed(Pop(st)).emitted == Flushed(st).emitted;
    }
  }

  /**
   * The round that fetches the next page of the history keeps the stream on
   * track: a page with events is buffered and its last event pushed, and an
   * empty page can only be the last one, which ends the stream.
   */
  lemma FetchOnTrack(st: StreamState, cfg: StreamConfig, io: StreamIo, rest: seq<Page>, target: seq<Event>)
    requires OnTrack(st, cfg, io, rest, target) && st.cache == [] && st.hasMore
    ensures OnTrack(PushStep(st, cfg, io).0, cfg, io, rest[1..], target)
  {
    if |rest[0].events| > 0 {
      FetchPageOnTrack(st, cfg, io, rest, target);
    } else {
      FetchEmptyPageOnTrack(st, cfg, io, rest, target);
    }
  }

  lemma FetchPageOnTrack(st: StreamState, cfg: StreamConfig, io: StreamIo, rest: seq<Page>, target: seq<Event>)
    requires OnTrack(st, cfg, io, rest, target) && st.cache == [] && st.hasMore && |rest[0].events| > 0
    ensures OnTrack(PushStep(st, cfg, io).0, cfg, io, rest[1..], target)
  {
    var page := rest[0];
    FetchedPageUpdatesCursor(st, cfg, io, page);
    var fetched := Fetched(st, cfg, io, page);
    FetchStepShape(st, cfg, io);
    assert FetchStep(st, cfg, io) == (fetched, true);
    assert PushStep(st, cfg, io).0 == Pop(fetched);
    assert fetched.cache == page.events;
    assert ReversedPages(rest) == Reverse(page.events) + ReversedPages(rest[1..]);
    assert fetched.emitted + Reverse(fetched.cache) + ReversedPages(rest[1..]) == target;
    PopOnTrack(fetched, cfg, io, rest[1..], target);
  }

  lemma FetchEmptyPageOnTrack(st: StreamState, cfg: StreamConfig, io: StreamIo, rest: seq<Page>, target: seq<Event>)
    requires OnTrack(st, cfg, io, rest, target) && st.cache == [] && st.hasMore && |rest[0].events| == 0
    ensures OnTrack(PushStep(st, cfg, io).0, cfg, io, rest[1..], target)
  {
    var page := rest[0];
    FetchedPageUpdatesCursor(st, cfg, io, page);
    assert |rest| == 1;
    assert ReversedPages(rest) == Reverse(page.events) + ReversedPages(rest[1..]);
    assert Reverse(page.events) == [];
    assert PushStep(st, cfg, io).0 == FetchStep(st, cfg, io).0.(ended := true);
  }

  /** Whatever the consumer answers, every round keeps a stream on track. */
  lemma PushStepOnTrack(st: StreamState, cfg: StreamConfig, io: StreamIo, rest: seq<Page>, target: seq<Event>)
    requires OnTrack(st, cfg, io, rest, target)
    ensures OnTrack(PushStep(st, cfg, io).0, cfg, io, Remaining(st, rest), target)
  {
    if st.cache != [] {
      PushStepShape(st, cfg, io);
      assert PushStep(st, cfg, io).0 == Pop(st);
      PopOnTrack(st, cfg, io, rest, target);
    } else if !st.hasMore {
      assert PushStep(st, cfg, io) == (st.(ended := true), false);
    } else {
      FetchOnTrack(st, cfg, io, rest, target);
    }
  }

  /** A stream that is on track for some rest of its history. */
  ghost predicate Resumable(st: StreamState, cfg: StreamConfig, io: StreamIo, target: seq<Event>) {
    exists rest :: OnTrack(st, cfg, io, rest, target)
  }

  /**
   * Whatever the consumer answers, a `pushTillFull` call on a stream on
   * track leaves it on track, having emitted a prefix of the target.
   */
  lemma {:induction false} DrainOnTrack(st: StreamState, cfg: StreamConfig, io: StreamIo, target: seq<Event>, fuel: nat)
    requires Resumable(st, cfg, io, target)
    ensures Resumable(Drain(st, cfg, io, fuel), cfg, io, target)
    ensures Drain(st, cfg, io, fuel).emitted <= target
    decreases fuel
  {
    var rest :| OnTrack(st, cfg, io, rest, target);
    if fuel == 0 {
      OnTrackPrefix(st, cfg, io, rest, target);
    } else {
      var s := PushStep(st, cfg, io);
      PushStepOnTrack(st, cfg, io, rest, target);
      if s.1 {
        DrainOnTrack(s.0, cfg, io, target, fuel - 1);
      } else {
        OnTrackPrefix(s.0, cfg, io, Remaining(st, rest), target);
      }
    }
  }

  /**
   * Against any consumer, including one that reports "full" and so splits
   * the history over several `_read` calls, a fresh stream over a
   * well-formed history emits a prefix of the whole history (each page
   * last-first) and stays resumable towards the rest of it.
   */
  lemma AnyConsumerFollowsHistory(cfg: StreamConfig, io: StreamIo, pages: seq<Page>, fuel: nat)
    requires WellPaged(cfg, io, "", pages)
    ensures var r := Drain(InitialState(), cfg, io, fuel);
      && Resumable(r, cfg, io, ReversedPages(pages))
      && r.emitted <= ReversedPages(pages) && r.failure.None?
      && (r.ended ==> r.emitted == ReversedPages(pages))
  {
    var st := InitialState();
    var target := ReversedPages(pages);
    assert st.emitted + Reverse(st.cache) + ReversedPages(pages) == target;
    assert OnTrack(st, cfg, io, pages, target);
    DrainOnTrack(st, cfg, io, target, fuel);
    var r := Drain(st, cfg, io, fuel);
    var rest :| OnTrack(r, cfg, io, rest, target);
    if r.ended {
      EndedOnTrackIsComplete(r, cfg, io, rest, target);
    }
  }

  /** A stream on track that has pushed end-of-stream has emitted the whole target. */
  lemma EndedOnTrackIsComplete(st: StreamState, cfg: StreamConfig, io: StreamIo, rest: seq<Page>, target: seq<Event>)
    requires OnTrack(st, cfg, io, rest, target) && st.ended
    ensures st.emitted == target
  {
    assert ReversedPages(rest) == [] && Reverse(st.cache) == [];
    assert st.emitted + Reverse(st.cache) + ReversedPages(rest) == st.emitted;
  }

  /**
   * A stream on track, read from then on by a consumer that never says
   * "full", pushes out the rest of the target and ends without being
   * destroyed, given one round per event left plus one.
   */
  lemma {:induction false} ResumedStreamCompletes(
    st: StreamState, cfg: StreamConfig, io: StreamIo, rest: seq<Page>, target: seq<Event>, fuel: nat)
    requires OnTrack(st, cfg, io, rest, target) && NeverFull(io)
    requires fuel > |st.cache| + TotalEvents(rest)
    ensures var r := Drain(st, cfg, io, fuel);
      r.emitted == target && r.ended && r.failure.None? && r.cache == []
    decreases |st.cache|
  {
    if st.cache == [] {
      EmptyBufferCompletes(st, cfg, io, rest, target, fuel);
    } else {
      PopRound(st, cfg, io, fuel);
      PopOnTrack(st, cfg, io, rest, target);
      ResumedStreamCompletes(Pop(st), cfg, io, rest, target, fuel - 1);
    }
  }

  /**
   * A stream on track with nothing buffered, read by a consumer that never
   * says "full", fetches and pushes out the pages left and ends.
   */
  lemma EmptyBufferCompletes(st: StreamState, cfg: StreamConfig, io: StreamIo, rest: seq<Page>, target: seq<Event>, fuel: nat)
    requires OnTrack(st, cfg, io, rest, target) && NeverFull(io) && st.cache == []
    requires fuel > TotalEvents(rest)
    ensures var r := Drain(st, cfg, io, fuel);
      r.emitted == target && r.ended && r.failure.None? && r.cache == []
  {
    assert st.emitted + ReversedPages(rest) == target by {
      assert Reverse(st.cache) == [];
    }
    if st.hasMore {
      DrainHistory(st, cfg, io, rest, fuel);
      ReplayOutcome(st, cfg, io, rest);
    } else {
      DrainExhausted(st, cfg, io, fuel);
    }
  }

  /** Whether the registry serves a history does not depend on the consumer. */
  lemma {:induction false} WellPagedIgnoresPush(cfg: StreamConfig, io: StreamIo, token: string, pages: seq<Page>, push: seq<Event> -> bool)
    requires WellPaged(cfg, io, token, pages)
    ensures WellPaged(cfg, io.(push := push), token, pages)
    decreases |pages|
  {
    if |pages| > 1 {
      WellPagedIgnoresPush(cfg, io, NextToken(pages[0]), pages[1..], push);
    }
  }

  /**
   * However often a consumer has said "full", a fresh stream over a
   * well-formed history that is then read by a consumer that never says
   * "full" emits the whole history, each page last-first, and ends
   * without being destroyed: back-pressure never truncates the export.
   */
  lemma BackPressureLosesNothing(
    cfg: StreamConfig, io: StreamIo, pages: seq<Page>, fuel: nat, push: seq<Event> -> bool, more: nat)
    requires WellPaged(cfg, io, "", pages) && forall log :: push(log)
    requires more > TotalEvents(pages)
    ensures var r := Drain(Drain(InitialState(), cfg, io, fuel), cfg, io.(push := push), more);
      r.emitted == ReversedPages(pages) && r.ended && r.failure.None?
  {
    var target := ReversedPages(pages);
    var st := Drain(InitialState(), cfg, io, fuel);
    AnyConsumerFollowsHistory(cfg, io, pages, fuel);
    var rest :| OnTrack(st, cfg, io, rest, target);
    if st.hasMore {
      WellPagedIgnoresPush(cfg, io, st.pageToken, rest, push);
    }
    var io2 := io.(push := push);
    assert OnTrack(st, cfg, io2, rest, target);
    assert |st.cache| + TotalEvents(rest) <= |target| by {
      assert |target| == |st.emitted| + |Reverse(st.cache)| + |ReversedPages(rest)|;
    }
    ResumedStreamCompletes(st, cfg, io2, rest, target, more);
  }
}
