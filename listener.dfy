/**
 * The `Listener` class: copies new messages of one Slack channel into the
 * `messages` table, one message per request, pacing its requests.
 */
module SlackListener {
  import opened Slack
  import opened MessageStore
  import opened Pacing
  import opened Ingest
  import opened Sequences

  class Listener {
    /** The channel whose history is read and under which rows are filed. */
    const channel: string
    /** The Slack endpoint the requests go to. */
    const slack: WebApi
    /** The table behind the database connection. */
    const db: MessageTable
    /** How many requests this listener has sent to Slack. */
    var slackRequestCount: nat
    /** Every pause made before a request, in tenths of a second. */
    var slept: seq<nat>

    /** The channel is a parameter rather than read from the environment. */
    constructor (channel: string, slack: WebApi, db: MessageTable)
      ensures this.channel == channel && this.slack == slack && this.db == db
      ensures slackRequestCount == 0 && slept == []
    {
      this.channel := channel;
      this.slack := slack;
      this.db := db;
      slackRequestCount := 0;
      slept := [];
    }

    /** One paced `conversations.history` request for at most one message
        at or after `oldest`. */
    method FetchMessage(oldest: real) returns (r: Reply)
      modifies this, slack
      ensures slackRequestCount == old(slackRequestCount) + 1
      ensures slept == old(slept) + if old(slackRequestCount) > 0 then [12] else []
      ensures slack.received == old(slack.received) + [Request(channel, HistoryLimit, oldest)]
      ensures r == NextReply(old(slack.pending)) && slack.pending == Rest(old(slack.pending))
    {
      var rateLimit := RateLimit;
      if slackRequestCount > 0 {
        var sleepInTenths := PauseTenths(rateLimit);
        slept := slept + [sleepInTenths];
      }
      slackRequestCount := slackRequestCount + 1;
      r := slack.History(Request(channel, HistoryLimit, oldest));
    }

    /** Files one message under this listener's channel. */
    method StoreMessage(ts: real, message: string)
      modifies db
      ensures db.rows == old(db.rows) + [Record(channel, ts, message)]
    {
      db.Insert(channel, ts, message);
    }

    /** A run under way from the state `received0`, `rows0`, `count0`,
        `slept0`: it has sent requests for the cursors `sent` and stored
        `kept`, and while `more` holds it goes on as the run from `cursor`
        against the replies still pending, the whole being `whole`. */
    ghost predicate Tracks(whole: Outcome, more: bool, cursor: real, sent: seq<real>, kept: seq<Record>,
                           received0: seq<Request>, rows0: seq<Record>, count0: nat, slept0: seq<nat>)
      reads this, slack, db
    {
      (more ==>
         whole.cursors == sent + Trace(channel, cursor, slack.pending).cursors &&
         whole.stored == kept + Trace(channel, cursor, slack.pending).stored) &&
      (!more ==> whole.cursors == sent && whole.stored == kept) &&
      slack.received == received0 + Requests(channel, sent) &&
      db.rows == rows0 + kept &&
      slackRequestCount == count0 + |sent| &&
      slept == slept0 + Sleeps(count0, |sent|)
    }

    /** One turn of the loop in `Run`: a request from `cursor` on, and the
        message it brings, if any, stored. */
    method Poll(cursor: real, ghost whole: Outcome, ghost sent: seq<real>, ghost kept: seq<Record>,
                ghost received0: seq<Request>, ghost rows0: seq<Record>, ghost count0: nat, ghost slept0: seq<nat>)
      returns (more: bool, next: real, ghost sent': seq<real>, ghost kept': seq<Record>)
      requires Tracks(whole, true, cursor, sent, kept, received0, rows0, count0, slept0)
      modifies this, slack, db
      ensures Tracks(whole, more, next, sent', kept', received0, rows0, count0, slept0)
      ensures sent' == sent + [cursor] && slack.pending == Rest(old(slack.pending))
      ensures more ==> old(slack.pending) != []
    {
      TraceTurn(channel, cursor, slack.pending, sent, kept);
      RequestsSnoc(channel, sent, cursor);
      AppendAssoc(received0, Requests(channel, sent), [Request(channel, HistoryLimit, cursor)]);
      SleepsSnoc(count0, |sent|);
      AppendAssoc(slept0, Sleeps(count0, |sent|), if slackRequestCount > 0 then [12] else []);
      var result := FetchMessage(cursor);
      sent' := sent + [cursor];
      if result.Decoded? && |result.messages| > 0 {
        var timestamp := result.messages[0].ts;
        ghost var row := Record(channel, timestamp, result.messages[0].body);
        AppendAssoc(rows0, kept, [row]);
        StoreMessage(timestamp, result.messages[0].body);
        kept' := kept + [row];
        more := ToInt(result.hasMore) == 1;
        next := timestamp + 1.0;
      } else {
        more, next, kept' := false, cursor, kept;
      }
    }

    /** Fetches and stores messages, one per request, from just after the
        newest stored timestamp on, until a reply brings no message or says
        there are no more. */
    method Run()
      modifies this, slack, db
      ensures var t := RunOn(channel, old(db.rows), old(slack.pending));
        slack.received == old(slack.received) + Requests(channel, t.cursors)
      ensures var t := RunOn(channel, old(db.rows), old(slack.pending));
        slack.pending == Drop(old(slack.pending), |t.cursors|)
      ensures var t := RunOn(channel, old(db.rows), old(slack.pending));
        db.rows == old(db.rows) + t.stored
      ensures var t := RunOn(channel, old(db.rows), old(slack.pending));
        slackRequestCount == old(slackRequestCount) + |t.cursors| &&
        slept == old(slept) + Sleeps(old(slackRequestCount), |t.cursors|)
    {
      var hasMore := true;
      var nextOldest := FetchOldest(db.rows) + 1.0;
      ghost var whole := Trace(channel, nextOldest, slack.pending);
      ghost var sent: seq<real> := [];
      ghost var kept: seq<Record> := [];
      while hasMore
        invariant Tracks(whole, hasMore, nextOldest, sent, kept,
                         old(slack.received), old(db.rows), old(slackRequestCount), old(slept))
        invariant slack.pending == Drop(old(slack.pending), |sent|)
        decreases if hasMore then |slack.pending| + 1 else 0
      {
        DropRest(old(slack.pending), |sent|);
        hasMore, nextOldest, sent, kept := Poll(nextOldest, whole, sent, kept,
          old(slack.received), old(db.rows), old(slackRequestCount), old(slept));
      }
    }
  }
}
