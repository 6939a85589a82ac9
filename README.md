# micro-matrix-bot core, modelled in Dafny

The Rust program is a bot for a Matrix chat server. It logs in with a password and keeps the bearer token
it gets back. It primes a sync cursor (`next_batch`) from an SQLite table, runs one sync and logs out.
A `Task` reads and writes that cursor in the same database. This project models what that code does:

- `wrappers.dfy`: `Option` and `Result`.
- `text.dfy`: Rust's `char::is_whitespace`, which is the Unicode White_Space property, and `str::trim`.
- `transport.dfy`: an HTTP status code (100 to 999), `is_success` (2xx), `is_server_error` (5xx).
  It also gives the outcome of one request: no response, or a status plus a body that either decodes
  as `{access_token}` or does not.
- `store.dfy`: the `matrix` table as a map from row id to `next_batch`, plus a flag that says whether
  statements can run. The `Database` class stands for the database file. `src/main.rs:34-35` opens the
  bot's and the task's connections on the same file, `events.db`. A caller that wires the model the same
  way passes one `Database` object to both, and then a write by one is seen by the other. The constructors
  do not require this, just as `Bot::new` accepts any `Task`.
  The model takes `id` to be the table's unique rowid, and takes `SELECT next_batch FROM matrix LIMIT 1`
  (which has no ORDER BY) to return the row with the smallest id. An empty table is an error (`NoRows`),
  as `query_row` reports it.
  `UPDATE ... WHERE id = 1` rewrites row 1 if that row exists. Otherwise it changes nothing.
- `task.dfy`: `Task` with `get_last_known_batch`, `tick` and `parse`.
- `bot.dfy`: `Bot` with its changing fields `access_token`, `last_batch` and `logged_in`.
  Its operations are `get_access_token`, `login`, `get_last_known_batch`, `sync`, `logout` and `start`.

The HTTP client is an oracle. `login` takes a sequence of predetermined replies and uses one per attempt.
`logout` takes the one reply its request gets. When the replies run out and the token is still empty,
`Login` reports `pending`. The Rust loop would go on retrying at that point.

Details of the code that the model keeps:

- `login` leaves its loop on the first successful reply even when the token in it is empty
  (src/bot/bot.rs:113-116). So it can return with an empty token, although its loop condition and its
  comment at src/bot/bot.rs:108 aim at a connection.
- `Bot::get_last_known_batch` does not trim the stored value (src/bot/bot.rs:161-164). A blank stored
  cursor therefore primes `last_batch` with that blank value. Only `Task::get_last_known_batch` drops a
  blank value, as its comment at src/bot/task.rs:23 explains.
- `logged_in` is never set to true. The constructor sets it false and `logout` clears it
  (src/bot/bot.rs:61, 172).
- `start` never calls `tick`, so the cursor returned by `sync` is never persisted
  (src/bot/bot.rs:93-99).

## Model

| member | source | states |
|---|---|---|
| `Bot.GetAccessToken` | src/bot/bot.rs:127-157 | a 2xx reply whose body decodes gives `Ok` with exactly that token; a 2xx reply that does not decode gives `LogonFailure`; a 5xx reply gives `ServerFailure`; any other status, and no response at all, give `OtherFailure` (each as an if-and-only-if) |
| `Bot.FirstToken` | src/bot/bot.rs:109-116 | the index of the first login reply that yields a token; every reply before it, and every reply when there is none, yields an error |
| `Bot.Bot.Login` | src/bot/bot.rs:107-125 | with a token already held: no attempt and the token is unchanged; otherwise the token becomes the value of the first `Ok` reply, even an empty one, after exactly that many attempts; failed attempts leave the token unchanged; if no reply succeeds, all replies are used and the token stays empty |
| `Bot.StoredBatch` | src/bot/bot.rs:161-164 | the bot's read gives `Some(v)` for every successful query, blank `v` included, and `None` only when the query fails |
| `Bot.Bot.GetLastKnownBatch` | src/bot/bot.rs:159-165 | reads the shared table without changing it and returns the untrimmed stored cursor, or nothing on a query error |
| `Bot.BotReadKeepsBlankCursor` | src/bot/bot.rs:159-165 | whenever the task's read yields a cursor, the bot's read yields the same one; a blank stored cursor is kept by the bot's read and dropped by the task's |
| `Bot.Bot.Sync` | src/bot/bot.rs:167-169 | the sync stub always returns the cursor "hello" |
| `Bot.Bot.Logout` | src/bot/bot.rs:171-174 | `logged_in` becomes false and the token and `last_batch` are kept; the process aborts exactly when the logout request gets no response |
| `Bot.Bot.Start` | src/bot/bot.rs:67-105 | after login, `last_batch` is primed to the stored value when the read returns one and is kept otherwise; after the one sync it is "hello"; the bot is then logged out; the store is never written; if login never succeeds, nothing after it happens |
| `Bot.Bot.constructor` | src/bot/bot.rs:43-65 | a new bot has an empty token, an empty cursor and is not logged in |
| `Task.NormaliseBatch` | src/bot/task.rs:20-29 | `None` exactly when the query failed or the stored value is empty or whitespace-only; otherwise `Some` of the stored string, untrimmed |
| `Task.Task.GetLastKnownBatch` | src/bot/task.rs:14-30 | reads the shared table without changing it and returns the normalised cursor |
| `Task.TickedTable` | src/bot/task.rs:32-46 | an empty cursor, a failing engine or a missing row 1 leave the table unchanged; otherwise row 1 holds the new cursor; no other row and no row id changes |
| `Task.Task.Tick` | src/bot/task.rs:32-46 | the shared table becomes the ticked table; the process aborts exactly when a non-empty cursor meets a failing engine |
| `Task.Task.Parse` | src/bot/task.rs:48-50 | handling a message leaves the store unchanged |
| `Task.Task.constructor` | src/bot/task.rs:8-12 | the task holds the given database |
| `Task.TickEmptyIsNoOp` | src/bot/task.rs:36 | `tick("")` leaves the whole table as it was |
| `Task.TickThenReadRoundTrip` | src/bot/task.rs:14-46 | on a working table whose first row is row 1 (a single-row table in particular), a cursor that is not whitespace-only is read back exactly as `tick` wrote it |
| `Task.BlankCursorWrittenButNotRead` | src/bot/task.rs:22-36 | on a working table whose first row is row 1 (a single-row table in particular), a non-empty, whitespace-only cursor is written into row 1 by `tick`, every other row kept, but read back as no cursor |
| `Text.TrimStart` | src/bot/task.rs:22 | the result is a suffix of the input; everything dropped is whitespace and the result does not start with whitespace |
| `Text.TrimEnd` | src/bot/task.rs:22 | the result is a prefix of the input; everything dropped is whitespace and the result does not end with whitespace |
| `Text.TrimEmptyIffBlank` | src/bot/task.rs:22 | for `Text.Trim`, the model of `str::trim` (`TrimEnd` after `TrimStart`): `trim().is_empty()` holds exactly when every character is whitespace |
| `Store.FirstId` | src/bot/task.rs:17 | the row `LIMIT 1` picks is a present id no larger than any other |
| `Store.SelectNextBatch` | src/bot/task.rs:15-19 | the query fails with `Unavailable` exactly when the engine fails, and with `NoRows` exactly when the table is empty; otherwise it returns the value of the row with the smallest id |
| `Store.UpdateNextBatch` | src/bot/task.rs:38-43 | the update fails exactly when the engine fails; otherwise it keeps every row id, rewrites the matching row (one row affected) or changes nothing (zero rows affected), and leaves every other row alone |

## Left out

- HTTP transport: the `reqwest` client, JSON encoding of the login body and URL formatting are replaced by
  the reply oracle. `MatrixConfig` and the credentials are carried but never used.
- Store.SelectNextBatch: SQL does not fix which row `LIMIT 1` without ORDER BY returns, and the
  schema of `matrix` is not in the code. The model takes `id` to be the unique rowid and the least id
  to be the row returned, which is SQLite's rowid scan order. Task.TickThenReadRoundTrip depends on this
  for tables with more than one row.
- Store.UpdateNextBatch: the table is a map keyed by `id`, so `WHERE id = 1` hits at most one row.
  This also takes `id` to be the unique rowid.
- SQLite engine details: opening the file, SQL text, column types and NULL values are left out.
  `Connection::open_with_flags(...).unwrap()` in both constructors is assumed to succeed.
- Sleeps (30 s between login attempts, 2.5 s after sync, 10 s before the pass ends) and all `println!` output.
  They are timing and logging only.
- Bot.Bot.Login: the retry loop is bounded by the number of replies given, not unbounded. A run that would
  retry forever ends with `pending` set.
- `unwrap` panics in `logout` and `tick` are reported as an `aborted` result. Nothing after them is modelled.
- `src/main.rs`: environment variables and constant configuration. It is pure start-up wiring.
- `src/bot/matrix.rs`: serde record declarations with no logic, and nothing shown uses them.
  Its duplicate of `MatrixError` is the one datatype `Bot.MatrixError`.
- The chat command language, the calendar event store and the sync long-poll are not in this code.
  `parse` only prints the message, and `sync` is a stub.
- The commented-out sync URI and filter code in `start`.
