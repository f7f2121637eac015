# Bot message sender: retry loop and payload builder

This project models the decision logic of the bot's outbound sender,
`bot/send_msg.py`. The sender's other code is HTTP, file and logging glue.

* **`post_request_with_retries`** is a bounded retry loop around one HTTP POST
  (module `Retry`, file `retry.dfy`). The network is an oracle: attempt `i`
  sees `outcomes[i]`. That outcome is either a response with a status code or
  a transport exception (`requests.exceptions.RequestException`, which covers
  connection errors and timeouts). The loop runs at most `max_retries` times
  (default 3):
  * status 200 returns the response at once;
  * status 502 sleeps 5 seconds and goes on to the next attempt;
  * any other status, or a `RequestException`, breaks out of the loop;
  * every other exit the model covers returns no response (`None`).

  The method `PostRequestWithRetries` is a `while` loop with the source's early
  `return` and `break`. It returns the result, the number of POSTs made and the
  number of 5-second sleeps. Its contract ties these to the recursive reference
  semantics `Run`. Lemmas then characterise `Run` in closed form: the exact POST
  count, what is returned, and how many sleeps happen.
* **`create_request_data`** builds the outbound payload dict (module
  `RequestData`, file `request_data.dfy`). The method `CreateRequestData` starts
  from `{"to": to}` and adds `"data"` and `"isRoom"` by successive updates of a
  local map (the source's dict is fresh and local, so nothing else sees it).
  Its contract gives the exact key set and every value. It also states a
  round trip: `ReadRequestData`, a reading of the payload shape, recovers the
  recipient, the content and the room flag. `ReadRequestDataInjective` shows
  that the reading accepts only one map per message. So the payload for a given
  input is unique.

Module `Wrappers` (`wrappers.dfy`) holds the `Option` type. `None` stands for
Python's `None`.

A detail of the source, kept in the model: a 502 on the last allowed attempt
still sleeps 5 seconds before the loop ends and returns `None`. So when every
attempt answers 502, the number of sleeps equals the number of POSTs
(`ExhaustsOnBadGateways`, `RunResult`).

## Model

| member | source | states |
|---|---|---|
| `Retry.PostRequestWithRetries` | bot/send_msg.py:17-48 | the loop's result, POST count and sleep count equal the reference semantics `Run` over the oracle; at most `max_retries` POSTs; none and no response when `max_retries <= 0`; a returned response has status 200 |
| `Retry.Run` | bot/send_msg.py:28-48 | reference semantics, one attempt at a time; the POST count never exceeds the budget, a returned response has status 200, and sleeps never outnumber POSTs |
| `Retry.RunPosts` | bot/send_msg.py:28-46 | `Run` makes `p` POSTs if and only if `p` is within the budget, is positive when the budget is, all attempts before the last answered 502, and an early stop happened on a non-502 answer |
| `Retry.RunPostCount` | bot/send_msg.py:28-46 | the POST count of `Run` satisfies that characterisation (the existence half of `RunPosts`) |
| `Retry.RunResult` | bot/send_msg.py:34-48 | the result is the last attempt's response exactly when that attempt answered 200, otherwise `None`; one sleep per 502, including a 502 on the final attempt |
| `Retry.StopsAt` | bot/send_msg.py:34-46 | when attempt `k` gives the first non-502 answer within the budget, exactly `k + 1` POSTs and `k` sleeps happen, and the result is that response only if it is a 200 |
| `Retry.OkAfterBadGateways` | bot/send_msg.py:28-35 | a 200 after only 502s returns that response after exactly `k + 1` POSTs (`k = 0`: a first answer of 200 returns after one POST) |
| `Retry.StopsOnOtherStatus` | bot/send_msg.py:36-42 | a status other than 200 and 502 ends the loop after that attempt, with no further POST and no response |
| `Retry.StopsOnException` | bot/send_msg.py:44-46 | a transport exception ends the loop after that attempt, with no response |
| `Retry.ExhaustsOnBadGateways` | bot/send_msg.py:38-48 | 502 on every attempt makes exactly `max_retries` POSTs and as many sleeps (5 seconds each), and returns no response |
| `Retry.ResponseOnlyAfterBadGateways` | bot/send_msg.py:26-42 | a returned response came from the last POST, has status 200, and every earlier attempt answered 502 |
| `RequestData.CreateRequestData` | bot/send_msg.py:51-68 | `"to"` always maps to the recipient; `"data"` is present, equal to the content, exactly when content is supplied; `"isRoom"` is present, equal to true, exactly when the room flag is set; no other key; the payload reads back as the same message |
| `RequestData.ReadRequestDataInjective` | bot/send_msg.py:60-68 | two payload maps that read back as the same message are equal, so the builder's output is the only map of its shape for its inputs |

## Left out

- `requests.post`, its headers, `files` and `timeout` arguments (bot/send_msg.py:31): foreign network I/O. The oracle sequence of outcomes replaces them. A timeout is one kind of `RequestException`.
- `time.sleep(5)` (bot/send_msg.py:40): the model counts the sleeps (`SleptSeconds` gives their total length) but has no clock.
- Exceptions other than `requests.exceptions.RequestException` raised inside the `try` (bot/send_msg.py:29-42), for example a `ValueError` from `requests.post` for a string body with files, or a `KeyboardInterrupt` during the sleep, propagate out of `post_request_with_retries` instead of returning `None`. The outcome type has no case for them, so the model does not capture that exit.
- The `print` calls (bot/send_msg.py:37, 39, 45): console output with no logical content.
- `PostRequestWithRetries`: the oracle must hold an outcome for every attempt the budget allows (`Budget(maxRetries) <= |outcomes|`). This describes the oracle; the source makes no such demand.
- JSON and multipart serialisation (`json.dumps`, `response.json()`): library calls. The response body is an opaque string. `send_to_room` passes the payload dict itself to the POST (bot/send_msg.py:99), while `send_to_user` passes `json.dumps` text (bot/send_msg.py:83). This difference is not modelled.
- `send_to_user`, `send_to_room`, `send_to_rooms`, `send_to_url`, `send_to_local_file` and `run` (bot/send_msg.py:71-198): thin glue that builds a payload and calls the retry loop. They call `.json()` on the result without checking for `None` (for example bot/send_msg.py:84). This fails whenever the loop gives up. `send_to_local_file` also opens a file (bot/send_msg.py:163), which is I/O.
- `server.py`: a FastAPI endpoint that logs and echoes five form fields, loguru configuration and a uvicorn launch. It is web-framework plumbing with no decision logic.
- `settings` (`BOT_URL`, `BOT_URL_FILE`): external configuration; settings.py is not part of this model.
- `create_request_data` accepts any value other than `None` as content at run time. The model takes its type annotation at its word: content is a dict or a list. It stores the content unchanged (bot/send_msg.py:63). The model's `Json` values have string keys only and no floating-point case, so content holding floats or non-string keys is not represented. No proved property depends on the content's inner values.
