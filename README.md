# Slack listener — a Dafny model

This project models the ingestion loop of the Slack listener: the `Listener`
class that reads one Slack channel's history one message per request and
appends each message to the `messages` table.

- A run starts its cursor one second after the newest `message_ts` in the
  table. On an empty table it starts one second after the fallback date
  1630447200 (2021-09-01 00:00 at UTC+2).
- Each turn of the loop asks `conversations.history` for at most one message
  (`limit=1`) from the cursor on.
- Every request but the first of the listener's life waits 1.2 seconds first.
- A returned message is filed under the listener's channel. The cursor then
  moves to the message's `ts` plus one.
- The loop goes on only while `has_more` casts to the integer 1.

The model has one module per part of the program:

| file | module | what it holds |
|---|---|---|
| `wrappers.dfy` | `Wrappers`, `Sequences` | `Option`, sequence associativity |
| `slack.dfy` | `Slack` | decoded replies, PHP's `(int)` cast of `has_more`, and the `WebApi` class that stands in for Slack |
| `message_store.dfy` | `MessageStore` | table rows, the newest-timestamp lookup with its fallback, and the `MessageTable` class |
| `pacing.dfy` | `Pacing` | the pause before a request, in tenths of a second |
| `ingest.dfy` | `Ingest` | `Trace`, the run as a function of the replies, and the lemmas about it |
| `listener.dfy` | `SlackListener` | the `Listener` class: `FetchMessage`, `StoreMessage` and the `Run` loop |

`Listener` keeps the source's fields:

- the channel;
- the request counter `slackRequestCount`;
- the Slack endpoint and the database handle, as objects the methods modify;
- `slept`, a field that records every pause, standing for the `usleep` calls.

`Run` is proved against `Trace`. It sends exactly the requests `Trace` lists, appends exactly the rows `Trace` lists, and leaves the counter, the pauses and the remaining replies as `Trace` implies. The lemmas in `Ingest` state what a run promises:

- where the cursor starts and how it advances;
- what is stored;
- why the loop goes on and why it stops;
- how many requests and rows a run makes;
- that an honest Slack keeps the table in ascending order;
- that a run which ended on an empty answer is resumed by the next run with the same request.

### Two points about the code

The model follows the code on both.

- The newest-timestamp lookup (`src/Listener.php:72`) is not filtered by channel. It takes the newest row of any channel (`MessageStore.FetchOldestIsNewest`, `Ingest.FirstRequestFollowsNewestRow`).
- The cursor moves to the stored timestamp plus one whole second (`src/Listener.php:28`, `src/Listener.php:37`), not by a small step. A message posted less than a second after a stored one is never asked for by a later request.

## Model

| member | source | states |
|---|---|---|
| Slack.ToIntIsOne | src/Listener.php:36 | `(int) has_more === 1` holds exactly for `true`, the integer 1 and floats in [1, 2). Every other value ends the loop. |
| Slack.WebApi.History | src/Listener.php:54-67 | One history call logs its request and answers the next pending reply. Once the replies are used up, it answers a failed call. |
| MessageStore.NewestIsLargest | src/Listener.php:72-76 | The newest-first lookup returns the timestamp of some row, and no row has a larger one. |
| MessageStore.FetchOldestIsNewest | src/Listener.php:70-77 | On an empty table, `fetchOldest` gives 1630447200. Otherwise it gives a stored timestamp that no row of any channel exceeds. |
| MessageStore.FetchOldestOfAscending | src/Listener.php:72-76 | On a table in ascending timestamp order, `fetchOldest` gives the last row's timestamp. |
| MessageStore.NewestAfterAppend | src/Listener.php:72-76 | Once ascending rows newer than every existing row are appended, `fetchOldest` gives the last appended row's timestamp, whatever order the existing rows are in. |
| MessageStore.MessageTable.Insert | src/Listener.php:81-85 | An insert appends one row with the given channel, timestamp and message. Earlier rows are unchanged. |
| Pacing.PauseTenths | src/Listener.php:47-49 | The pause is the smallest whole number of tenths of a second that spaces `rateLimit` requests over at least one minute. That is `ceil(60/rateLimit*10)/10` seconds. |
| Pacing.SleepsAreUniform | src/Listener.php:47-52 | Over consecutive requests, the first request of the listener's life does not pause. Every other request pauses exactly 12 tenths (1.2 s). |
| Ingest.RequestsAt | src/Listener.php:64 | The i-th request of a run asks the listener's channel for `limit` 1 message with `oldest` equal to the i-th cursor. |
| Ingest.TraceShape | src/Listener.php:27-41 | A run sends at least one request, and the first one is at the starting cursor. It stores one row for every request except possibly the last, so requests equal rows or rows + 1. It sends at most one request per reply, plus the one that finds the replies used up. |
| Ingest.TraceAdvancesCursor | src/Listener.php:34-37 | After a row with timestamp `t` is stored, the next request asks from `t + 1`. |
| Ingest.TraceStoresFirstMessages | src/Listener.php:32-35 | The i-th row stored is the first message of the i-th reply: the listener's channel, that message's `ts` and its body. Replies without a message store nothing. |
| Ingest.TraceContinuesOnHasMore | src/Listener.php:36 | A request is followed by another only if its reply decoded, carried a message, and had a `has_more` that casts to 1. |
| Ingest.TraceStopsAtLast | src/Listener.php:29-40 | The last request's reply either stored nothing, or stored its message and had a `has_more` that does not cast to 1. A nothing-reply is a failed call, an undecodable body or an empty `messages`. The run stores as many rows as it sends requests exactly when the last reply stored one. |
| Ingest.TraceAscending | src/Listener.php:34-37 | If Slack honours `oldest`, a run stores rows in strictly increasing timestamp order, none before its starting cursor. |
| Ingest.RunKeepsTableAscending | src/Listener.php:28-35 | If Slack honours `oldest`, a run keeps an ascending table ascending. |
| Ingest.NewestAfterRun | src/Listener.php:70-77 | If Slack honours `oldest`, the newest row after a run that stored something is the last row it stored, on a table of any content and order. |
| Ingest.LastCursorFollowsLastRow | src/Listener.php:34-37 | When a run's last request stored nothing, that request asked from one second after the last row the run stored. |
| Ingest.EmptyRunRepeatsItsRequest | src/Listener.php:28-39 | A run that stored nothing sent one request, and the next run sends that same request. |
| Ingest.NextRunRepeatsLastRequest | src/Listener.php:28-39 | If Slack honours `oldest`, when a run ends on a request that stored nothing, the next run starts from exactly that request's cursor, on a table of any content and order. |
| Ingest.FirstRequestFollowsNewestRow | src/Listener.php:28 | The first request asks from the newest row's timestamp plus one, over rows of every channel. On an empty table it asks from 1630447200 + 1. Either way it asks strictly after every stored row. |
| Ingest.FirstRunStoresOneMessage | src/Listener.php:27-41 | Worked example: a run on an empty table that gets one message at 1000 with `has_more` false makes one request from the fallback date and stores that message. The next run then asks from 1001. |
| SlackListener.Listener.constructor | src/Listener.php:18-21 | A new listener has sent no request and slept no time. The channel is given rather than read from the environment. |
| SlackListener.Listener.FetchMessage | src/Listener.php:45-68 | The counter goes up by one. The call pauses 12 tenths exactly when an earlier request was made. It sends one `limit=1` request from `oldest` for the channel and returns the reply. |
| SlackListener.Listener.StoreMessage | src/Listener.php:79-86 | Appends the message under the listener's channel and changes nothing else. |
| SlackListener.Listener.Poll | src/Listener.php:30-40 | One turn of the `run` loop keeps `Run`'s invariant: requests, rows, counter and pauses so far, plus the rest of the run given by `Trace`. |
| SlackListener.Listener.Run | src/Listener.php:23-43 | A run does what `Trace` gives for the table and the replies it starts from. It sends exactly the listed requests, appends exactly the listed rows, and uses one reply per request. The counter rises by the number of requests. Every request but the listener's very first pauses 12 tenths. |

## Left out

- HTTP transport is not modelled: the bearer-token header, the URL built from channel, limit and `oldest`, and `file_get_contents`. A `WebApi` object replays a fixed list of replies instead. An exhausted list answers a failed call, so a run always ends. A real Slack could keep answering `has_more` forever.
- The Slack server's own behaviour is not modelled. Whether the returned message really is at or after `oldest` is an assumption (`Honest`) that only the ordering lemmas make. The loop itself does not check it.
- JSON decoding and encoding are not modelled. A reply arrives already classified as a failed call, an undecodable body, or a decoded object with `messages` and `has_more`. A message's `ts` arrives already converted to a number, and its body is an opaque string.
- `messages[0]` being `null` and a message without `ts` are left out: `isset` and `(float)` would treat those specially.
- `has_more` is modelled as null, a boolean, an integer or a number. String and array values, and their `(int)` casts, are left out. So are NaN, infinities and floats outside the integer range.
- Timestamps and the pause are exact numbers (`real`, and integer tenths of a second), not IEEE doubles. `usleep` and the real passage of time are represented by the `slept` record.
- The PDO connection, its lazy creation in `getPDO`, SQL text and exceptions are not modelled. The table is the sequence of its rows in insertion order.
- `getenv` is not modelled. The channel is a constructor parameter, and the token and DSN do not appear.
- The log lines (`out`, `gmdate`, `echo`) are not modelled.
- Content splitting, relay dispatch, retry/backoff, the user-profile cache, relay modes and the relay-state flag are not part of this model. They are not part of `src/Listener.php`.
