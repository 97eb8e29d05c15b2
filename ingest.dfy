/**
 * What one run of the listener does, as a function of the table it starts
 * from and the replies Slack gives: which requests it sends and which rows
 * it inserts. `Listener.Run` is proved to do exactly this; the lemmas here
 * state what the listener promises about it.
 */
module Ingest {
  import opened Slack
  import opened MessageStore

  /** Messages asked for per request (`limit=1`). */
  const HistoryLimit: nat := 1

  /** What the loop body makes of one reply: stop without storing, or store
      a message and go on when `more` holds. */
  datatype Step = Stop | Keep(msg: Message, more: bool)

  function Decide(r: Reply): Step {
    if r.Decoded? && |r.messages| > 0 then Keep(r.messages[0], ToInt(r.hasMore) == 1)
    else Stop
  }

  /** The effect of a run: the `oldest` of every request, in order, and the
      rows inserted, in order. */
  datatype Outcome = Outcome(cursors: seq<real>, stored: seq<Record>)

  /** The run that starts with cursor `cursor` against the replies `pending`. */
  function Trace(channel: string, cursor: real, pending: seq<Reply>): Outcome
    decreases |pending|
  {
    if pending == [] then Outcome([cursor], [])
    else
      match Decide(pending[0])
      case Stop => Outcome([cursor], [])
      case Keep(m, more) =>
        var row := Record(channel, m.ts, m.body);
        if more then
          var rest := Trace(channel, m.ts + 1.0, pending[1..]);
          Outcome([cursor] + rest.cursors, [row] + rest.stored)
        else Outcome([cursor], [row])
  }

  /** The whole of one run, from the table it starts on. */
  function RunOn(channel: string, rows: seq<Record>, pending: seq<Reply>): Outcome {
    Trace(channel, FetchOldest(rows) + 1.0, pending)
  }

  /** The requests a run sends for the cursors `cursors`. */
  function Requests(channel: string, cursors: seq<real>): (r: seq<Request>)
    ensures |r| == |cursors|
  {
    if cursors == [] then []
    else Requests(channel, cursors[..|cursors| - 1]) + [Request(channel, HistoryLimit, cursors[|cursors| - 1])]
  }

  /** The i-th request of a run asks the listener's channel for one message
      from the i-th cursor on. */
  lemma {:induction false} RequestsAt(channel: string, cursors: seq<real>)
    ensures forall i :: 0 <= i < |cursors| ==>
      Requests(channel, cursors)[i] == Request(channel, HistoryLimit, cursors[i])
  {
    if cursors != [] {
      var front := cursors[..|cursors| - 1];
      RequestsAt(channel, front);
      forall i | 0 <= i < |cursors| - 1
        ensures Requests(channel, cursors)[i] == Request(channel, HistoryLimit, cursors[i])
      {
        assert Requests(channel, cursors)[i] == Requests(channel, front)[i];
        assert cursors[i] == front[i];
      }
    }
  }

  /** One request more adds its query at the end. */
  lemma RequestsSnoc(channel: string, cursors: seq<real>, cursor: real)
    ensures Requests(channel, cursors + [cursor])
         == Requests(channel, cursors) + [Request(channel, HistoryLimit, cursor)]
  {
    assert (cursors + [cursor])[..|cursors|] == cursors;
  }

  /** Slack keeps its side of `oldest`: every stored message is at or after
      the cursor of the request that returned it. */
  predicate Honest(t: Outcome) {
    forall i :: 0 <= i < |t.stored| && i < |t.cursors| ==> t.stored[i].ts >= t.cursors[i]
  }

  /** One turn of the loop seen from a run already under way: `sent` and
      `kept` are the requests and rows of the earlier turns, and the turn
      for `cursor` adds one request and at most one row. */
  lemma TraceTurn(channel: string, cursor: real, pending: seq<Reply>, sent: seq<real>, kept: seq<Record>)
    ensures var t := Trace(channel, cursor, pending);
      var d := Decide(NextReply(pending));
      var sent' := sent + [cursor];
      var kept' := kept + if d.Keep? then [Record(channel, d.msg.ts, d.msg.body)] else [];
      if d.Keep? && d.more then
        var rest := Trace(channel, d.msg.ts + 1.0, Rest(pending));
        sent + t.cursors == sent' + rest.cursors && kept + t.stored == kept' + rest.stored
      else sent + t.cursors == sent' && kept + t.stored == kept'
  {
    var d := Decide(NextReply(pending));
    if d.Keep? && d.more {
      var rest := Trace(channel, d.msg.ts + 1.0, Rest(pending));
      var row := Record(channel, d.msg.ts, d.msg.body);
      assert sent + ([cursor] + rest.cursors) == (sent + [cursor]) + rest.cursors;
      assert kept + ([row] + rest.stored) == (kept + [row]) + rest.stored;
    }
  }

  /** A run sends at least one request, the first at the starting cursor,
      and stores one message per request except possibly the last; it sends
      at most one request per reply, plus the one that finds the list
      used up. */
  lemma {:induction false} TraceShape(channel: string, cursor: real, pending: seq<Reply>)
    decreases |pending|
    ensures var t := Trace(channel, cursor, pending);
      |t.cursors| >= 1 && t.cursors[0] == cursor &&
      |t.stored| <= |t.cursors| <= |t.stored| + 1 &&
      |t.cursors| <= |pending| + 1
  {
    var t := Trace(channel, cursor, pending);
    if Continues(pending) {
      var m := pending[0].messages[0];
      var rest := Trace(channel, m.ts + 1.0, pending[1..]);
      assert t == Outcome([cursor] + rest.cursors, [Record(channel, m.ts, m.body)] + rest.stored);
      TraceShape(channel, m.ts + 1.0, pending[1..]);
    } else {
      assert t.cursors == [cursor] && |t.stored| <= 1;
    }
  }

  /** The first reply carries a message and asks for more. */
  predicate Continues(pending: seq<Reply>) {
    pending != [] && Decide(pending[0]).Keep? && Decide(pending[0]).more
  }

  /** After a message with timestamp `ts` is stored, the next request asks
      for messages from `ts + 1` on. */
  lemma {:induction false} TraceAdvancesCursor(channel: string, cursor: real, pending: seq<Reply>)
    decreases |pending|
    ensures var t := Trace(channel, cursor, pending);
      forall i :: 0 <= i < |t.stored| && i + 1 < |t.cursors| ==>
        t.cursors[i + 1] == t.stored[i].ts + 1.0
  {
    var t := Trace(channel, cursor, pending);
    if Continues(pending) {
      var m := pending[0].messages[0];
      var rest := Trace(channel, m.ts + 1.0, pending[1..]);
      assert t == Outcome([cursor] + rest.cursors, [Record(channel, m.ts, m.body)] + rest.stored);
      TraceAdvancesCursor(channel, m.ts + 1.0, pending[1..]);
      TraceShape(channel, m.ts + 1.0, pending[1..]);
      forall i | 0 <= i < |t.stored| && i + 1 < |t.cursors|
        ensures t.cursors[i + 1] == t.stored[i].ts + 1.0
      {
        if i > 0 {
          assert t.cursors[i + 1] == rest.cursors[i] && t.stored[i] == rest.stored[i - 1];
        }
      }
    } else {
      assert |t.cursors| == 1;
    }
  }

  /** The i-th stored row is the first message of the i-th reply, filed
      under the listener's channel; nothing else is stored. */
  lemma {:induction false} TraceStoresFirstMessages(channel: string, cursor: real, pending: seq<Reply>)
    decreases |pending|
    ensures var t := Trace(channel, cursor, pending);
      forall i :: 0 <= i < |t.stored| ==>
        i < |pending| && pending[i].Decoded? && |pending[i].messages| > 0 &&
        t.stored[i] == Record(channel, pending[i].messages[0].ts, pending[i].messages[0].body)
  {
    var t := Trace(channel, cursor, pending);
    if Continues(pending) {
      var m := pending[0].messages[0];
      var rest := Trace(channel, m.ts + 1.0, pending[1..]);
      assert t == Outcome([cursor] + rest.cursors, [Record(channel, m.ts, m.body)] + rest.stored);
      TraceStoresFirstMessages(channel, m.ts + 1.0, pending[1..]);
      forall i | 1 <= i < |t.stored|
        ensures i < |pending| && pending[i].Decoded? && |pending[i].messages| > 0 &&
          t.stored[i] == Record(channel, pending[i].messages[0].ts, pending[i].messages[0].body)
      {
        assert t.stored[i] == rest.stored[i - 1];
        assert pending[i] == pending[1..][i - 1];
      }
    } else {
      assert t.stored == [] || (pending != [] && Decide(pending[0]).Keep? &&
        t.stored == [Record(channel, pending[0].messages[0].ts, pending[0].messages[0].body)]);
    }
  }

  /** A further request follows a reply only when that reply carried a
      message and a `has_more` that casts to 1. */
  lemma {:induction false} TraceContinuesOnHasMore(channel: string, cursor: real, pending: seq<Reply>, i: nat)
    decreases i
    requires i < |Trace(channel, cursor, pending).cursors| - 1
    ensures i < |pending| && Continues(pending[i..])
  {
    var t := Trace(channel, cursor, pending);
    if Continues(pending) {
      var m := pending[0].messages[0];
      var rest := Trace(channel, m.ts + 1.0, pending[1..]);
      assert t == Outcome([cursor] + rest.cursors, [Record(channel, m.ts, m.body)] + rest.stored);
      if i > 0 {
        TraceContinuesOnHasMore(channel, m.ts + 1.0, pending[1..], i - 1);
        assert pending[1..][i - 1..] == pending[i..];
      } else {
        assert pending[0..] == pending;
      }
    } else {
      assert false;
    }
  }

  /** Why a run ends: the reply to its last request either stored nothing
      (a failed call, an undecodable body or an empty `messages`) or stored
      its message and had a `has_more` that does not cast to 1. */
  lemma {:induction false} TraceStopsAtLast(channel: string, cursor: real, pending: seq<Reply>)
    decreases |pending|
    ensures |Trace(channel, cursor, pending).cursors| >= 1
    ensures var t := Trace(channel, cursor, pending);
      var last := Decide(NextReply(Drop(pending, |t.cursors| - 1)));
      (|t.stored| == |t.cursors| <==> last.Keep?) && (last.Keep? ==> !last.more)
  {
    var t := Trace(channel, cursor, pending);
    if Continues(pending) {
      var m := pending[0].messages[0];
      var rest := Trace(channel, m.ts + 1.0, pending[1..]);
      assert t == Outcome([cursor] + rest.cursors, [Record(channel, m.ts, m.body)] + rest.stored);
      TraceStopsAtLast(channel, m.ts + 1.0, pending[1..]);
      DropTail(pending, |rest.cursors| - 1);
    } else {
      assert t.cursors == [cursor] && |t.stored| <= 1;
      assert Drop(pending, 0) == pending;
    }
  }

  /** Against an honest Slack, a run stores messages in strictly increasing
      timestamp order, none before its starting cursor. */
  lemma {:induction false} TraceAscending(channel: string, cursor: real, pending: seq<Reply>)
    decreases |pending|
    requires Honest(Trace(channel, cursor, pending))
    ensures var t := Trace(channel, cursor, pending);
      Ascending(t.stored) && forall i :: 0 <= i < |t.stored| ==> t.stored[i].ts >= cursor
  {
    var t := Trace(channel, cursor, pending);
    if Continues(pending) {
      var m := pending[0].messages[0];
      var row := Record(channel, m.ts, m.body);
      var rest := Trace(channel, m.ts + 1.0, pending[1..]);
      assert t == Outcome([cursor] + rest.cursors, [row] + rest.stored);
      HonestTail(t, rest);
      TraceAscending(channel, m.ts + 1.0, pending[1..]);
      assert t.stored[0] == row && t.cursors[0] == cursor;
      AscendingAppend([row], rest.stored, m.ts + 1.0);
    } else {
      assert t.cursors == [cursor] && |t.stored| <= 1;
    }
  }

  /** What Slack kept to for a run it keeps to for the run's later turns. */
  lemma HonestTail(t: Outcome, rest: Outcome)
    requires Honest(t)
    requires |t.cursors| == |rest.cursors| + 1 && t.cursors[1..] == rest.cursors
    requires |t.stored| == |rest.stored| + 1 && t.stored[1..] == rest.stored
    ensures Honest(rest)
  {
    forall i | 0 <= i < |rest.stored| && i < |rest.cursors|
      ensures rest.stored[i].ts >= rest.cursors[i]
    {
      assert t.stored[i + 1] == rest.stored[i] && t.cursors[i + 1] == rest.cursors[i];
    }
  }

  /** Against an honest Slack, a run keeps an ascending table ascending:
      every message it stores is newer than every row already there, of
      any channel. */
  lemma RunKeepsTableAscending(channel: string, rows: seq<Record>, pending: seq<Reply>)
    requires Ascending(rows)
    requires Honest(RunOn(channel, rows, pending))
    ensures Ascending(rows + RunOn(channel, rows, pending).stored)
  {
    var cursor := FetchOldest(rows) + 1.0;
    FetchOldestIsNewest(rows);
    TraceAscending(channel, cursor, pending);
    AscendingAppend(rows, Trace(channel, cursor, pending).stored, cursor);
  }

  /** A run that ended on a request that found nothing is resumed by the
      next run with that very request: the next run starts from the cursor
      of this run's last request. */
  lemma NextRunRepeatsLastRequest(channel: string, rows: seq<Record>, pending: seq<Reply>)
    requires Honest(RunOn(channel, rows, pending))
    requires |RunOn(channel, rows, pending).stored| < |RunOn(channel, rows, pending).cursors|
    ensures var t := RunOn(channel, rows, pending);
      FetchOldest(rows + t.stored) + 1.0 == t.cursors[|t.cursors| - 1]
  {
    if RunOn(channel, rows, pending).stored == [] {
      EmptyRunRepeatsItsRequest(channel, rows, pending);
    } else {
      NewestAfterRun(channel, rows, pending);
      LastCursorFollowsLastRow(channel, FetchOldest(rows) + 1.0, pending);
    }
  }

  /** A run that stored nothing sent one request, which the next run on the
      unchanged table sends again. */
  lemma EmptyRunRepeatsItsRequest(channel: string, rows: seq<Record>, pending: seq<Reply>)
    requires RunOn(channel, rows, pending).stored == []
    ensures var t := RunOn(channel, rows, pending);
      |t.cursors| == 1 && FetchOldest(rows + t.stored) + 1.0 == t.cursors[0]
  {
    TraceShape(channel, FetchOldest(rows) + 1.0, pending);
    assert rows + [] == rows;
  }

  /** Against an honest Slack, after a run that stored something the
      newest row of the table is the last one it stored. */
  lemma NewestAfterRun(channel: string, rows: seq<Record>, pending: seq<Reply>)
    requires Honest(RunOn(channel, rows, pending))
    requires RunOn(channel, rows, pending).stored != []
    ensures var t := RunOn(channel, rows, pending);
      FetchOldest(rows + t.stored) == t.stored[|t.stored| - 1].ts
  {
    var cursor := FetchOldest(rows) + 1.0;
    var t := Trace(channel, cursor, pending);
    FetchOldestIsNewest(rows);
    TraceAscending(channel, cursor, pending);
    assert t.stored[|t.stored| - 1].ts >= cursor;
    NewestAfterAppend(rows, t.stored);
  }

  /** When a run's last request found nothing, it asked from one second
      after the last message it stored. */
  lemma LastCursorFollowsLastRow(channel: string, cursor: real, pending: seq<Reply>)
    requires 0 < |Trace(channel, cursor, pending).stored| < |Trace(channel, cursor, pending).cursors|
    ensures var t := Trace(channel, cursor, pending);
      t.cursors[|t.cursors| - 1] == t.stored[|t.stored| - 1].ts + 1.0
  {
    var t := Trace(channel, cursor, pending);
    TraceShape(channel, cursor, pending);
    TraceAdvancesCursor(channel, cursor, pending);
    var n := |t.stored|;
    assert |t.cursors| == n + 1;
    assert t.cursors[(n - 1) + 1] == t.stored[n - 1].ts + 1.0;
  }

  /** The first request of a run asks from one second after the newest
      row of any channel, or from one second after the fallback date on an
      empty table: strictly after every row the table holds. */
  lemma FirstRequestFollowsNewestRow(channel: string, rows: seq<Record>, pending: seq<Reply>)
    ensures var t := RunOn(channel, rows, pending);
      |t.cursors| >= 1 &&
      (rows == [] ==> t.cursors[0] == FallbackOldest + 1.0) &&
      (rows != [] ==> exists i :: 0 <= i < |rows| && t.cursors[0] == rows[i].ts + 1.0) &&
      forall i :: 0 <= i < |rows| ==> rows[i].ts < t.cursors[0]
  {
    FetchOldestIsNewest(rows);
    TraceShape(channel, FetchOldest(rows) + 1.0, pending);
  }

  /** A first run on an empty table that receives one message with
      timestamp 1000 and `has_more` false stores exactly that message,
      asks from the fallback date on, and leaves the next run asking from
      1001 on. */
  lemma FirstRunStoresOneMessage(channel: string, body: string, later: seq<Reply>)
    ensures var t := RunOn(channel, [], [Decoded([Message(1000.0, body)], JBool(false))]);
      t.cursors == [FallbackOldest + 1.0] &&
      t.stored == [Record(channel, 1000.0, body)] &&
      RunOn(channel, t.stored, later).cursors[0] == 1001.0
  {
    var t := RunOn(channel, [], [Decoded([Message(1000.0, body)], JBool(false))]);
    TraceShape(channel, FetchOldest(t.stored) + 1.0, later);
  }
}
