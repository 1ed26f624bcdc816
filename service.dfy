/**
 * The Search Console service as the scripts drive it, reduced to what can
 * be observed: a trace of events. A `Batch` stands for `BatchHttpRequest`:
 * `add` queues a query, `execute` sends the queued ones together. Sleeps
 * and synchronous requests are recorded in the same trace; the replies come
 * from the caller.
 */
module Service {
  import opened Reports

  datatype Event =
    | Added(query: Query)          // lBatch.add(...)
    | Executed(batch: seq<Query>)  // lBatch.execute() with the queued queries
    | Slept                        // time.sleep(...)
    | Requested(query: Query)      // ....query(...).execute() outside a batch

  /** The number of queries after which `main` executes a batch (`lPos == 5`). */
  const Capacity: nat := 5

  /** Everything the scripts asked of the service, in order. */
  class Trace {
    var events: seq<Event>

    constructor ()
      ensures events == []
    {
      events := [];
    }

    method Sleep()
      modifies this
      ensures events == old(events) + [Slept]
    {
      events := events + [Slept];
    }

    /** A synchronous `execute()`: `serve` gives the response, or the exception it raises. */
    method Request(q: Query, serve: Query -> Outcome) returns (r: Outcome)
      modifies this
      ensures r == serve(q)
      ensures events == old(events) + [Requested(q)]
    {
      events := events + [Requested(q)];
      r := serve(q);
    }
  }

  /** `BatchHttpRequest()`: queries queued until `Execute`. */
  class Batch {
    const trace: Trace
    var queued: seq<Query>

    constructor (t: Trace)
      ensures trace == t && queued == []
    {
      trace := t;
      queued := [];
    }

    method Add(q: Query)
      modifies this, trace
      ensures queued == old(queued) + [q]
      ensures trace.events == old(trace.events) + [Added(q)]
    {
      queued := queued + [q];
      trace.events := trace.events + [Added(q)];
    }

    method Execute()
      modifies trace
      ensures trace.events == old(trace.events) + [Executed(queued)]
    {
      trace.events := trace.events + [Executed(queued)];
    }
  }

  // ---------------------------------------------------------------------------
  // The schedule of the batching loop in GetKeywords.py and GetPages.py
  // ---------------------------------------------------------------------------

  /** One `Added` event per query, in order. */
  function Adds(qs: seq<Query>): seq<Event> {
    if qs == [] then [] else [Added(qs[0])] + Adds(qs[1..])
  }

  /**
   * The events of the batching loop over `qs`: every five queries one
   * execute and one sleep; a shorter non-empty rest is executed without a sleep.
   */
  function Schedule(qs: seq<Query>): seq<Event>
    decreases |qs|
  {
    if |qs| >= Capacity then Adds(qs[..Capacity]) + [Executed(qs[..Capacity]), Slept] + Schedule(qs[Capacity..])
    else if qs == [] then []
    else Adds(qs) + [Executed(qs)]
  }

  /** The batches executed, in order. */
  function Batches(evs: seq<Event>): seq<seq<Query>> {
    if evs == [] then []
    else (if evs[0].Executed? then [evs[0].batch] else []) + Batches(evs[1..])
  }

  /** The number of sleeps. */
  function Sleeps(evs: seq<Event>): nat {
    if evs == [] then 0 else (if evs[0] == Slept then 1 else 0) + Sleeps(evs[1..])
  }

  /** The queries added, in order. */
  function AddedQueries(evs: seq<Event>): seq<Query> {
    if evs == [] then []
    else (if evs[0].Added? then [evs[0].query] else []) + AddedQueries(evs[1..])
  }

  /** The batches laid end to end. */
  function Flatten(bs: seq<seq<Query>>): seq<Query> {
    if bs == [] then [] else bs[0] + Flatten(bs[1..])
  }

  // ---------------------------------------------------------------------------
  // Lemmas
  // ---------------------------------------------------------------------------

  lemma {:induction false} AddsAt(qs: seq<Query>)
    ensures |Adds(qs)| == |qs|
    ensures forall k :: 0 <= k < |qs| ==> Adds(qs)[k] == Added(qs[k])
  {
    if qs != [] {
      AddsAt(qs[1..]);
    }
  }

  lemma {:induction false} AddsAppend(xs: seq<Query>, ys: seq<Query>)
    ensures Adds(xs + ys) == Adds(xs) + Adds(ys)
  {
    if xs == [] {
      assert xs + ys == ys;
    } else {
      assert (xs + ys)[1..] == xs[1..] + ys;
      AddsAppend(xs[1..], ys);
    }
  }

  lemma {:induction false} BatchesAppend(a: seq<Event>, b: seq<Event>)
    ensures Batches(a + b) == Batches(a) + Batches(b)
  {
    if a == [] {
      assert a + b == b;
    } else {
      assert (a + b)[1..] == a[1..] + b;
      BatchesAppend(a[1..], b);
    }
  }

  lemma {:induction false} SleepsAppend(a: seq<Event>, b: seq<Event>)
    ensures Sleeps(a + b) == Sleeps(a) + Sleeps(b)
  {
    if a == [] {
      assert a + b == b;
    } else {
      assert (a + b)[1..] == a[1..] + b;
      SleepsAppend(a[1..], b);
    }
  }

  lemma {:induction false} AddedAppend(a: seq<Event>, b: seq<Event>)
    ensures AddedQueries(a + b) == AddedQueries(a) + AddedQueries(b)
  {
    if a == [] {
      assert a + b == b;
    } else {
      assert (a + b)[1..] == a[1..] + b;
      AddedAppend(a[1..], b);
    }
  }

  /** The counting functions distribute over concatenation. */
  lemma CountsAppend(a: seq<Event>, b: seq<Event>)
    ensures Batches(a + b) == Batches(a) + Batches(b)
    ensures Sleeps(a + b) == Sleeps(a) + Sleeps(b)
    ensures AddedQueries(a + b) == AddedQueries(a) + AddedQueries(b)
  {
    BatchesAppend(a, b);
    SleepsAppend(a, b);
    AddedAppend(a, b);
  }

  /** Adding queries executes nothing and sleeps never. */
  lemma {:induction false} AddsCounts(qs: seq<Query>)
    ensures Batches(Adds(qs)) == [] && Sleeps(Adds(qs)) == 0 && AddedQueries(Adds(qs)) == qs
  {
    if qs != [] {
      AddsCounts(qs[1..]);
      CountsAppend([Added(qs[0])], Adds(qs[1..]));
      assert [qs[0]] + qs[1..] == qs;
    }
  }

  /** Running the loop over whole batches and then over more queries is the two loops in turn. */
  lemma {:induction false} ScheduleAppend(xs: seq<Query>, ys: seq<Query>)
    requires |xs| % Capacity == 0
    ensures Schedule(xs + ys) == Schedule(xs) + Schedule(ys)
    decreases |xs|
  {
    if xs == [] {
      assert xs + ys == ys;
    } else {
      assert (xs + ys)[..Capacity] == xs[..Capacity];
      assert (xs + ys)[Capacity..] == xs[Capacity..] + ys;
      ScheduleAppend(xs[Capacity..], ys);
    }
  }

  /** The events that close a round: the execute, and after a full batch the sleep. */
  lemma RoundEnds(c: seq<Query>)
    ensures Batches([Executed(c), Slept]) == [c] && Sleeps([Executed(c), Slept]) == 1
    ensures AddedQueries([Executed(c), Slept]) == []
    ensures Batches([Executed(c)]) == [c] && Sleeps([Executed(c)]) == 0 && AddedQueries([Executed(c)]) == []
  {
    assert [Executed(c), Slept][1..] == [Slept];
    assert [Slept][1..] == [] && [Executed(c)][1..] == [];
  }

  /** A full round (its queries added, executed together, a sleep) executes one batch ... */
  lemma FullRoundBatches(c: seq<Query>, rest: seq<Event>)
    ensures Batches(Adds(c) + [Executed(c), Slept] + rest) == [c] + Batches(rest)
  {
    AddsCounts(c);
    RoundEnds(c);
    CountsAppend(Adds(c), [Executed(c), Slept]);
    CountsAppend(Adds(c) + [Executed(c), Slept], rest);
  }

  /** ... sleeps once ... */
  lemma FullRoundSleeps(c: seq<Query>, rest: seq<Event>)
    ensures Sleeps(Adds(c) + [Executed(c), Slept] + rest) == 1 + Sleeps(rest)
  {
    AddsCounts(c);
    RoundEnds(c);
    CountsAppend(Adds(c), [Executed(c), Slept]);
    CountsAppend(Adds(c) + [Executed(c), Slept], rest);
  }

  /** ... and adds its queries. */
  lemma FullRoundAdded(c: seq<Query>, rest: seq<Event>)
    ensures AddedQueries(Adds(c) + [Executed(c), Slept] + rest) == c + AddedQueries(rest)
  {
    AddsCounts(c);
    RoundEnds(c);
    CountsAppend(Adds(c), [Executed(c), Slept]);
    assert AddedQueries(Adds(c) + [Executed(c), Slept]) == c + [] == c;
    CountsAppend(Adds(c) + [Executed(c), Slept], rest);
  }

  /** The last, short round executes one batch, adds its queries and does not sleep. */
  lemma ShortRound(c: seq<Query>)
    ensures Batches(Adds(c) + [Executed(c)]) == [c]
    ensures Sleeps(Adds(c) + [Executed(c)]) == 0
    ensures AddedQueries(Adds(c) + [Executed(c)]) == c
  {
    AddsCounts(c);
    RoundEnds(c);
    CountsAppend(Adds(c), [Executed(c)]);
  }

  /** The sizes of the batches: one to five each, all but the last exactly five. */
  predicate BatchSizes(bs: seq<seq<Query>>) {
    && (forall k :: 0 <= k < |bs| ==> 1 <= |bs[k]| <= Capacity)
    && (forall k :: 0 <= k < |bs| - 1 ==> |bs[k]| == Capacity)
  }

  /** A full batch in front of batches of the right sizes. */
  lemma BatchSizesCons(c: seq<Query>, bs: seq<seq<Query>>)
    requires |c| == Capacity && BatchSizes(bs)
    ensures BatchSizes([c] + bs)
  {
    var cs := [c] + bs;
    forall k | 0 < k < |cs| ensures cs[k] == bs[k - 1] {}
  }

  /** The batches of a round followed by the rest laid end to end. */
  lemma FlattenCons(c: seq<Query>, bs: seq<seq<Query>>)
    ensures Flatten([c] + bs) == c + Flatten(bs)
  {
    assert ([c] + bs)[1..] == bs;
  }

  /** For L queries: ceil(L/5) executes and floor(L/5) sleeps. */
  lemma {:induction false} ScheduleCounts(qs: seq<Query>)
    ensures |Batches(Schedule(qs))| == (|qs| + Capacity - 1) / Capacity
    ensures Sleeps(Schedule(qs)) == |qs| / Capacity
    decreases |qs|
  {
    if |qs| >= Capacity {
      ScheduleCounts(qs[Capacity..]);
      FullRoundBatches(qs[..Capacity], Schedule(qs[Capacity..]));
      FullRoundSleeps(qs[..Capacity], Schedule(qs[Capacity..]));
    } else if qs != [] {
      ShortRound(qs);
    }
  }

  /** The batches taken together, like the added queries, are the input in order. */
  lemma {:induction false} ScheduleFlatten(qs: seq<Query>)
    ensures Flatten(Batches(Schedule(qs))) == qs
    ensures AddedQueries(Schedule(qs)) == qs
    decreases |qs|
  {
    if |qs| >= Capacity {
      var c, rest := qs[..Capacity], qs[Capacity..];
      ScheduleFlatten(rest);
      FullRoundBatches(c, Schedule(rest));
      FullRoundAdded(c, Schedule(rest));
      FlattenCons(c, Batches(Schedule(rest)));
      assert qs == c + rest;
    } else if qs != [] {
      ShortRound(qs);
      assert Flatten([qs]) == qs;
    }
  }

  /** Every batch holds one to five queries, and all but the last exactly five. */
  lemma {:induction false} ScheduleSizes(qs: seq<Query>)
    ensures BatchSizes(Batches(Schedule(qs)))
    decreases |qs|
  {
    if |qs| >= Capacity {
      ScheduleSizes(qs[Capacity..]);
      FullRoundBatches(qs[..Capacity], Schedule(qs[Capacity..]));
      BatchSizesCons(qs[..Capacity], Batches(Schedule(qs[Capacity..])));
    } else if qs != [] {
      ShortRound(qs);
    }
  }

  /**
   * For L queries: ceil(L/5) executes and floor(L/5) sleeps; every batch holds
   * one to five queries and all but the last exactly five; the batches taken
   * together, like the added queries, are the input in order.
   */
  lemma ScheduleShape(qs: seq<Query>)
    ensures var bs := Batches(Schedule(qs));
      && |bs| == (|qs| + Capacity - 1) / Capacity
      && Sleeps(Schedule(qs)) == |qs| / Capacity
      && Flatten(bs) == qs
      && (forall k :: 0 <= k < |bs| ==> 1 <= |bs[k]| <= Capacity)
      && (forall k :: 0 <= k < |bs| - 1 ==> |bs[k]| == Capacity)
      && AddedQueries(Schedule(qs)) == qs
  {
    ScheduleCounts(qs);
    ScheduleFlatten(qs);
    ScheduleSizes(qs);
  }

  /** What a schedule starts with: an `Added` event, unless there is nothing to do. */
  lemma ScheduleHead(qs: seq<Query>)
    ensures Schedule(qs) == [] <==> qs == []
    ensures qs != [] ==> Schedule(qs)[0] == Added(qs[0])
  {
    if |qs| >= Capacity {
      AddsAt(qs[..Capacity]);
    } else if qs != [] {
      AddsAt(qs);
    }
  }

  /** An event that executes a full batch. */
  predicate FullExecute(e: Event) {
    e.Executed? && |e.batch| == Capacity
  }

  /** The loop sleeps exactly right after each full batch, and at no other time. */
  lemma {:induction false} SleepsFollowFullBatches(qs: seq<Query>)
    ensures var evs := Schedule(qs);
      forall k :: 0 <= k < |evs| ==> (evs[k] == Slept <==> k > 0 && FullExecute(evs[k - 1]))
    decreases |qs|
  {
    var evs := Schedule(qs);
    if |qs| >= Capacity {
      var c, rest := qs[..Capacity], qs[Capacity..];
      var head := Adds(c) + [Executed(c), Slept];
      AddsAt(c);
      SleepsFollowFullBatches(rest);
      ScheduleHead(rest);
      assert evs == head + Schedule(rest);
      forall k | 0 <= k < |evs| ensures evs[k] == Slept <==> k > 0 && FullExecute(evs[k - 1]) {
        if k < |head| {
          assert evs[k] == head[k];
          if 0 < k {
            assert evs[k - 1] == head[k - 1];
          }
        } else {
          assert evs[k] == Schedule(rest)[k - |head|];
          if k > |head| {
            assert evs[k - 1] == Schedule(rest)[k - 1 - |head|];
          }
        }
      }
    } else if qs != [] {
      AddsAt(qs);
      forall k | 0 <= k < |evs| ensures evs[k] == Slept <==> k > 0 && FullExecute(evs[k - 1]) {
        if k < |qs| {
          assert evs[k] == Added(qs[k]);
        }
        if 0 < k {
          assert k - 1 < |qs|;
          assert evs[k - 1] == Added(qs[k - 1]);
        }
      }
    }
  }

  /** Adding one more query adds one more event. */
  lemma AddsSnoc(xs: seq<Query>, q: Query)
    ensures Adds(xs + [q]) == Adds(xs) + [Added(q)]
  {
    AddsAppend(xs, [q]);
  }

  /** The loop's schedule grows by one full round when five more queries have been added. */
  lemma ScheduleFull(flushed: seq<Query>, c: seq<Query>)
    requires |flushed| % Capacity == 0 && |c| == Capacity
    ensures |flushed + c| % Capacity == 0
    ensures Schedule(flushed + c) == Schedule(flushed) + Adds(c) + [Executed(c), Slept]
  {
    ScheduleAppend(flushed, c);
    assert c[..Capacity] == c && c[Capacity..] == [];
  }

  /** After the last full round, the rest of the queries form one short round, or none. */
  lemma ScheduleRest(flushed: seq<Query>, rest: seq<Query>)
    requires |flushed| % Capacity == 0 && |rest| < Capacity
    ensures Schedule(flushed + rest) == Schedule(flushed) + if rest != [] then Adds(rest) + [Executed(rest)] else []
  {
    ScheduleAppend(flushed, rest);
  }

  // ---------------------------------------------------------------------------
  // The batching loop, step by step
  // ---------------------------------------------------------------------------

  /** The query built for each line of the URL list, in order. */
  function Built(build: string -> Query, lines: seq<string>): seq<Query> {
    if lines == [] then [] else Built(build, lines[..|lines| - 1]) + [build(lines[|lines| - 1])]
  }

  /** One query per line, and query k is built from line k. */
  lemma {:induction false} BuiltAt(build: string -> Query, lines: seq<string>)
    ensures |Built(build, lines)| == |lines|
    ensures forall k :: 0 <= k < |lines| ==> Built(build, lines)[k] == build(lines[k])
  {
    if lines != [] {
      BuiltAt(build, lines[..|lines| - 1]);
    }
  }

  /**
   * Part way through the batching loop: the whole batches `flushed` have
   * been executed, each followed by a sleep, and `queued` waits in the
   * current batch.
   */
  ghost predicate Scheduled(flushed: seq<Query>, queued: seq<Query>, events: seq<Event>, events0: seq<Event>) {
    && |flushed| % Capacity == 0 && |queued| <= Capacity
    && events == events0 + Schedule(flushed) + Adds(queued)
  }

  /** The loop has added the queries of the first `i` lines, in order. */
  ghost predicate Batching(build: string -> Query, lines: seq<string>, i: nat, flushed: seq<Query>, queued: seq<Query>,
                           events: seq<Event>, events0: seq<Event>)
  {
    && i <= |lines| && |flushed| + |queued| == i
    && flushed + queued == Built(build, lines[..i])
    && Scheduled(flushed, queued, events, events0)
  }

  lemma BatchingStart(build: string -> Query, lines: seq<string>, events0: seq<Event>)
    ensures Batching(build, lines, 0, [], [], events0, events0)
  {
    assert lines[..0] == [];
  }

  /** `lBatch.add(...)` for the next line. */
  lemma BatchingAdd(build: string -> Query, lines: seq<string>, i: nat, flushed: seq<Query>, queued: seq<Query>,
                    events: seq<Event>, events0: seq<Event>)
    requires Batching(build, lines, i, flushed, queued, events, events0) && i < |lines| && |queued| < Capacity
    ensures Batching(build, lines, i + 1, flushed, queued + [build(lines[i])], events + [Added(build(lines[i]))], events0)
  {
    assert lines[..i + 1][..i] == lines[..i];
    AddsSnoc(queued, build(lines[i]));
  }

  /** A full batch executed, then the sleep: the schedule grows by one round. */
  lemma ScheduledFull(flushed: seq<Query>, queued: seq<Query>, events: seq<Event>, events0: seq<Event>)
    requires Scheduled(flushed, queued, events, events0) && |queued| == Capacity
    ensures Scheduled(flushed + queued, [], events + [Executed(queued), Slept], events0)
  {
    ScheduleFull(flushed, queued);
    Regroup(events, events0, Schedule(flushed), Adds(queued), [Executed(queued), Slept], Schedule(flushed + queued));
    assert Adds([]) == [];
  }

  /** Appending `e` to `events0 + s + a` when `t` is `s + a + e`. */
  lemma Regroup(events: seq<Event>, events0: seq<Event>, s: seq<Event>, a: seq<Event>, e: seq<Event>, t: seq<Event>)
    requires events == events0 + s + a && t == s + a + e
    ensures events + e == events0 + t + []
  {
    assert events + e == events0 + (s + a + e);
  }

  lemma BatchingFull(build: string -> Query, lines: seq<string>, i: nat, flushed: seq<Query>, queued: seq<Query>,
                     events: seq<Event>, events0: seq<Event>)
    requires Batching(build, lines, i, flushed, queued, events, events0) && |queued| == Capacity
    ensures Batching(build, lines, i, flushed + queued, [], events + [Executed(queued), Slept], events0)
  {
    assert flushed + queued + [] == flushed + queued;
    ScheduledFull(flushed, queued, events, events0);
  }

  /**
   * When the loop is over, executing the short batch still queued
   * completes the schedule of all the queries ...
   */
  lemma ScheduledShort(flushed: seq<Query>, queued: seq<Query>, events: seq<Event>, events0: seq<Event>)
    requires Scheduled(flushed, queued, events, events0) && 0 < |queued| < Capacity
    ensures events + [Executed(queued)] == events0 + Schedule(flushed + queued)
  {
    ScheduleRest(flushed, queued);
  }

  /** ... and with nothing queued, the schedule is complete already. */
  lemma ScheduledEmpty(flushed: seq<Query>, queued: seq<Query>, events: seq<Event>, events0: seq<Event>)
    requires Scheduled(flushed, queued, events, events0) && queued == []
    ensures events == events0 + Schedule(flushed + queued)
  {
    assert flushed + queued == flushed;
  }

  /** The loop over all lines, then the execute of what is left: the whole schedule. */
  lemma BatchingEnd(build: string -> Query, lines: seq<string>, flushed: seq<Query>, queued: seq<Query>,
                    events: seq<Event>, events0: seq<Event>)
    requires Batching(build, lines, |lines|, flushed, queued, events, events0) && |queued| < Capacity
    ensures queued != [] ==> events + [Executed(queued)] == events0 + Schedule(Built(build, lines))
    ensures queued == [] ==> events == events0 + Schedule(Built(build, lines))
  {
    assert lines[..|lines|] == lines;
    if queued != [] {
      ScheduledShort(flushed, queued, events, events0);
    } else {
      ScheduledEmpty(flushed, queued, events, events0);
    }
  }
}
