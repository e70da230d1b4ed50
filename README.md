# ws-chat relay, modelled in Dafny

This project models `main.py` of ws-chat, a Tornado chat server over WebSockets.
Browsers connect to `/websocket`. The process-wide list `APP.clients` holds one
`Client` record per open connection, in connection order, and each record has a
mutable `nick`. Inbound frames are JSON objects with an `action`. A `message` is
echoed to everybody. A `changenick` renames the sender when it names the current
nick, and is then broadcast. A `getallnicks` is answered to the sender with an
`allnicks` roster. Opening and closing a connection sends every connected
browser the new roster.

Files and modules:

- `wrappers.dfy` (`Wrappers`): `Option`, `Result` and `Outcome`.
- `json.dfy` (`Json`): the value `json.loads` returns, as `Value`. It also holds
  the Python operations the server applies to such a value: truth testing
  (`Truthy`), subscripting (`Index`, which raises `KeyError` or `TypeError`),
  item assignment (`Assign`) and `str.join` (`Join`).
- `lists.dfy` (`Lists`): `list.remove` (`Remove`, which raises `ValueError`) and
  the lemma that removing a registered client keeps the others in order.
- `outbox.dfy` (`Outbox`): each socket's log of sent frames as a map, and the
  broadcast loop `for client in APP.clients: client.socket.send(...)` as
  `SendAll`. `Delivered` states that every recipient got exactly one copy and
  nobody else got anything.
- `codec.dfy` (`Codec`): `parse_message`.
- `chat.dfy` (`Chat`): the `Client` class with `ChangeNick`. The `App` class
  holds the registry `clients: seq<Client>` and the send logs
  `sent: map<Client, seq<Value>>`. Its methods are `open`, `on_close`,
  `on_message`, `process_message` and `all_nicks`. The twostate predicate
  `App.Processed` states what `process_message` does for each action.
- `scenarios.dfy` (`Scenarios`): two browsers connect, rename, ask for the
  roster, send frames that are dropped, and disconnect. A last walk-through shows
  the effect of a non-string nick. These methods only assert what the contracts
  above let a caller conclude.

Exceptions the source raises are modelled as error results (`Fail(e)` or
`Failure(e)`), with the state left as it was when the exception escaped. Each of
them happens before any mutation, except in `open` and `on_close`. There the
registry has already changed when building the roster raises. Tornado's
handling of an escaped exception is not part of this model.

In four places the code behaves differently from what a reader might expect,
and the model follows the code:

- `on_close` for a client that is not registered raises `ValueError`
  (`list.remove`, main.py:91). It is not a no-op.
- A decoded frame without an `action` key raises (`KeyError` for an object,
  `TypeError` for any other JSON value; main.py:144). It is not dropped
  silently.
- A `changenick` frame whose `data` lacks `oldnick` or `newnick` raises
  `KeyError`. If `data` is not an object, it raises `TypeError`. Both happen
  whether or not the nick matches, because the log line of the rejecting
  branch also subscripts `newnick` (main.py:58-61).
- A nick can be any JSON value. A non-string `newnick` is accepted
  (main.py:51-52). While some registered client's nick is not a string, the
  `', '.join` in `all_nicks`' log line (main.py:130) raises `TypeError`
  whenever the roster is built. During that time roster requests get no
  reply, and connections and disconnections are still registered without
  anybody being sent the roster. It ends when that client disconnects or
  renames itself back to a string nick.

## Model

| member | source | states |
|---|---|---|
| Codec.ParseMessage | main.py:133-147 | A decode error or a falsy `action` gives None, and a missing `action` raises the error Python raises. Otherwise the decoded message comes back unchanged. The result is Some exactly when the frame is a dict with a truthy `action` |
| Chat.NickPair | main.py:51-61 | The `(oldnick, newnick)` pair is found exactly when `data`, `data.oldnick` and `data.newnick` can all be subscripted, and it is `data.oldnick` and `data.newnick` in that order. Otherwise the error is the first failing lookup's exception, in the order `data`, `oldnick`, `newnick` |
| Chat.Client.constructor | main.py:40-42 | A new record holds the nick it was given |
| Chat.Client.ChangeNick | main.py:44-62 | The result is true iff the current nick equals `oldnick`, and then the nick becomes `newnick`. On false or on an exception the nick is unchanged |
| Chat.Nicks | main.py:128-129 | The roster has one entry per registered client, and entry i is client i's nick |
| Chat.NicksAppend | main.py:72-74 | Appending a client to the registry appends exactly its nick to the roster |
| Chat.RosterMessage | main.py:121-127 | The `allnicks` frame carries exactly the given nick list under `data.allnicks`, and its `serverdate` is set |
| Chat.Stamp | main.py:103 | `serverdate` is overwritten with the server's time. Every other key of the message is unchanged |
| Chat.App.constructor | main.py:167 | The registry starts empty and nothing has been sent |
| Chat.App.AllNicks | main.py:117-131 | The frame lists the registry's nicks in registry order and with the same length. It raises TypeError exactly when some nick is not a string |
| Chat.App.Broadcast | main.py:106-107 | Every registered client's log grows by exactly one copy of the frame. Every other log is unchanged |
| Chat.App.AnnounceRoster | main.py:74-76 | Every registered client is sent the current roster, or nothing is sent when building it raises |
| Chat.App.Open | main.py:69-76 | The registry grows by one fresh "Anonymous" client at the end, and earlier entries and their nicks are untouched. Every client, the new one included, is sent the new roster once, and the newcomer is sent only that frame |
| Chat.App.OnClose | main.py:89-95 | An unregistered client raises ValueError and nothing changes. Otherwise exactly that client is removed and the others keep their order. Each remaining client is sent the new roster, and the removed client is sent nothing |
| Chat.App.ProcessMessage | main.py:97-115 | A `message` goes, stamped, to every registered client. A `changenick` is broadcast iff the nick matched, and only the sender's nick can change. A `getallnicks` is answered to the sender alone, by exactly one roster frame. Other actions change nothing, and the registry never changes |
| Chat.App.OnMessage | main.py:78-83 | A frame that parses to None changes nothing, and a parse exception changes nothing. An accepted frame is processed as `process_message` says |
| Lists.IndexOf | main.py:91 | The position found holds the client, and no earlier position does |
| Lists.Remove | main.py:91 | `list.remove` raises ValueError iff the element is absent. Otherwise it deletes exactly the first occurrence and keeps everything else in order |
| Lists.RemoveDistinct | main.py:91 | Removing a registered client from a duplicate-free registry leaves exactly the other clients, duplicate-free and one fewer |
| Outbox.SendAllDelivers | main.py:75-76 | Sending a frame to each of a list of distinct clients gives each exactly one copy and leaves every other log as it was |
| Outbox.SendDelivers | main.py:114-115 | A reply to the sender grows only the sender's log, by that one frame |
| Json.Join | main.py:130 | `', '.join` succeeds iff every nick is a string, and otherwise raises TypeError |

## Left out

- `ChatPage.get` and template rendering (main.py:22-33) are HTML output with no registry state.
- `SETTINGS`, `make_app`, static-file routing, `APP.listen(8888)` and the IOLoop (main.py:149-168) are framework configuration and start-up. Only `APP.clients = []` is modelled, as the `App` constructor.
- `json.loads` is not modelled. Its outcome is an input, `Option<Value>`, where None stands for the `ValueError` it raises on malformed text. `json.dumps` is the identity: a socket's log holds the `Value`s sent.
- `time.time()` is an input, `now: real`. In a `getallnicks` dispatch the two clock readings (main.py:103 and main.py:126) are the same `now`. The stamp of the request itself is never sent, so this is not observable.
- `write_message` and the WebSocket transport (main.py:85-87) are foreign calls. A send appends the frame to the client's entry in `App.sent`. A socket's handler is identified with its `Client` record.
- `print` logging is left out. Where evaluating a log line's arguments can raise (`newnick` at main.py:58-61, the join at main.py:130), that evaluation is kept.
- Tornado's reaction to an exception escaping a handler (logging and closing the connection) is outside `main.py` and is not modelled.
- Concurrency is not modelled. The server runs on a single-threaded event loop and each handler runs to completion.
- Chat.Client.ChangeNick: compares nicks with structural equality on `Value`, so Python's equalities between a bool and a number (`True == 1.0`, `False == 0`) are not captured.
- Codec.ParseMessage and Chat.Client.ChangeNick: JSON numbers are `real`, so the `NaN` and infinities that `json.loads` accepts are not modelled (a frame `{"action": NaN}` is truthy and accepted at main.py:144). Lone surrogates, which `json.loads` can put in a string, are outside Dafny's `string`.
- Chat.App.Broadcast: a send never fails in the model. In main.py the send loops (main.py:75-76, 94-95, 106-107, 111-112) and `send` (main.py:85-87) have no exception handling. A `write_message` that raises stops the loop, later clients in the registry get nothing, and the exception leaves the handler. `Delivered`'s one copy to every registered client therefore relies on sends not raising. This also applies to Chat.App.AnnounceRoster, Chat.App.Open, Chat.App.OnClose and Chat.App.ProcessMessage.
- Chat.App.ProcessMessage: requires a dict with an `action` key. Only `on_message` calls it, after `parse_message` has guaranteed that.
