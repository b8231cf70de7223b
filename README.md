# Live message delivery of the messenger chat

This project models the live message path of a two-party chat server in
Dafny, and proves properties of that model. The path covered is:

- the process-wide `ConnectionManager`, the list of open sockets that
  `connect` appends to, `disconnect` removes from and `broadcast` walks in order;
- one pass of the socket endpoint's receive loop for a text frame. It
  computes the conversation cache key `messages:{min}:{max}`, appends a
  `(text, name, HH:MM)` triple to the cached history and resets its expiry
  to 600 seconds, and writes one record to the message store. When the
  recipient has a Telegram id and is logged out, it enqueues a notification
  job. Last, it broadcasts `'{user_name}: {HH:MM} - {message}'` to every socket;
- the endpoint's disconnect handling: the socket is unregistered, then
  `User {user_id} left the chat` goes out as plain text. Any other exception
  ends the loop and leaves the socket registered;
- the history page's read-through: it serves the cached list on a hit. On a
  miss it serves the stored history and caches it for 600 seconds.

The outside world is plain state on a `ChatServer` object:

- the cache backend is a map from key to (history, seconds to live);
- the messages table is a sequence of records;
- the task queue is a sequence of `(telegram_id, text)` jobs;
- every externally visible effect is also logged, in order, in `trace`.

Sends are recorded in the manager's outbox. Inputs the handler gets from
collaborators are parameters (an `Env`):

- the sender's display name;
- the two clock readings, because `datetime.now()` is called once for the
  cached triple and again for the broadcast line;
- the recipient's `telegram_id` and `token` columns, each of which may be
  missing;
- the I/O call that raises, if one does;
- the sockets whose `send_text` raises.

Modules: `Keys` (id rendering and the cache key), `Conversation` (cache
entries, append, read-through, expiry), `Escalation` (the notification rule
and notice text), `Registry` (the connection manager), `Router` (the
handler, its effect order and the receive loop), and `Wrappers` (`Option`).

Where the code and the design description disagree, the model follows the
code:

- `broadcast` has no `try` around each send. The first send that raises ends
  the loop, and later sockets get nothing.
- A failing store write, recipient lookup or task enqueue is not swallowed.
  It ends the receive loop through `except Exception`, so no broadcast
  happens and the socket stays registered.
- `disconnect` is `list.remove`, which raises on an absent socket. It is not
  a no-op.

## Model

| member | source | states |
|---|---|---|
| Keys.NatToString | app/communication/router.py:84 | the decimal text of an id is non-empty, all digits, with a leading '0' only for zero |
| Keys.ParseNatToString | app/communication/router.py:84 | reading the decimal text back yields the number, so rendering loses nothing |
| Keys.NatToStringInjective | app/communication/router.py:84 | different naturals render to different digit strings |
| Keys.IntToString | app/communication/router.py:84 | f"{id}" is non-empty, has no ':' and starts with '-' exactly for negative ids |
| Keys.IntToStringInjective | app/communication/router.py:84 | different ids render to different text |
| Keys.CacheKey | app/communication/router.py:84 | the key is `messages:` + smaller id + `:` + larger id, also when the ids are equal |
| Keys.CacheKeySymmetric | app/communication/router.py:152 | key(a, b) = key(b, a): both participants, and the write and read paths, address one entry |
| Keys.CacheKeyInjective | app/communication/router.py:84 | two id pairs share a key if and only if they are the same unordered pair |
| Conversation.Appended | app/communication/router.py:85-94 | hit: the old history plus exactly one triple; miss: the one-element list; TTL 600; other keys unchanged |
| Conversation.AppendedAllHistory | app/communication/router.py:85-94 | n appends grow the entry by exactly those n triples in send order after the earlier ones, and leave other keys alone |
| Conversation.ReadAfterWrite | app/communication/router.py:85-94 | a read right after a message's write hits, with the earlier history plus that message's triple |
| Conversation.ReadThrough | app/communication/router.py:152-160 | hit: the cached list, cache untouched (no expiry refresh); miss: the stored history, also cached with TTL 600 |
| Conversation.ReadAfterFill | app/communication/router.py:155-160 | after the history page's read, a second read hits with exactly what the first one returned |
| Conversation.Elapse | app/communication/router.py:90 | after t seconds without writes an entry survives exactly when its TTL exceeds t, with t taken off |
| Conversation.WriteLivesForTtl | app/communication/router.py:90-94 | a written entry is live for 600 seconds after its last write and not after, whatever it had left before |
| Conversation.ExpiredReadFallsBack | app/communication/router.py:153-160 | once the TTL has run out, the history page returns the stored history |
| Conversation.BothDirectionsShareHistory | app/communication/router.py:84-94 | messages a→b then b→a land in one entry; reads from either side return both, in send order |
| Escalation.ShouldEscalate | app/communication/router.py:112-113 | escalate if and only if telegram_id is present and non-zero and token is exactly 0 |
| Escalation.NoChannelNoEscalation | app/communication/router.py:112 | a missing or zero telegram_id never escalates, whatever the token |
| Escalation.PresentRecipientNoEscalation | app/communication/router.py:113 | a missing or non-zero token never escalates |
| Escalation.NoticeFormat | app/communication/router.py:99 | the notice is the fixed lead, then the sender's name, then the fixed middle, and it ends with the message |
| Escalation.EscalationJobs | app/communication/router.py:112-115 | one job exactly when telegram_id is a non-zero int and token is 0; it goes to that id with this message's notice |
| Registry.FirstIndex | app/communication/router.py:53 | the first position holding the socket |
| Registry.RemoveFirst | app/communication/router.py:53 | `list.remove` drops one occurrence: one shorter, same multiset minus that socket |
| Registry.RemoveFirstKeepsOrder | app/communication/router.py:53 | entries before the removed one stay put and later ones move up by one, so the order is kept |
| Registry.RemoveAfterAppend | app/communication/router.py:48-53 | connecting an unregistered socket and then disconnecting it restores the list |
| Registry.Deliveries | app/communication/router.py:59-60 | one send per registered socket, in list order, all carrying the payload |
| Registry.DeliveriesCount | app/communication/router.py:59-60 | a socket gets the payload once per registration; an unregistered socket gets nothing |
| Registry.Reach | app/communication/router.py:59-60 | the loop gets as far as the first socket whose send raises, or to the end |
| Registry.ReachAll | app/communication/router.py:59-60 | with no failing socket registered, the broadcast reaches the whole list |
| Registry.ConnectionManager.constructor | app/communication/router.py:45-46 | the manager starts with no sockets and no sends |
| Registry.ConnectionManager.Connect | app/communication/router.py:48-50 | the socket is appended at the end of the list; nothing is sent |
| Registry.ConnectionManager.Disconnect | app/communication/router.py:52-53 | requires the socket to be registered; the list becomes RemoveFirst of the old list |
| Registry.ConnectionManager.SendPersonal | app/communication/router.py:55-56 | exactly one plain send to that socket; the list is unchanged |
| Registry.ConnectionManager.Broadcast | app/communication/router.py:58-60 | the outbox grows by the deliveries up to the first failing send; it reports whether all were sent; the list is unchanged |
| Router.ChatLineFormat | app/communication/router.py:117 | the line is the name, then ": ", the time, " - " and the message, each at its position |
| Router.LeaveNoticeFormat | app/communication/router.py:121 | the notice is "User ", the decimal user id, then " left the chat" |
| Router.LeaveNoticeInjective | app/communication/router.py:121 | departure notices of different users differ |
| Router.MessageEffects | app/communication/router.py:85-117 | at most four effects; none exactly when the name lookup or cache step raised; the last is a broadcast exactly when the message reaches the broadcast |
| Router.MessageEffectsCases | app/communication/router.py:83-117 | the effects of one message for each step where it can stop |
| Router.MessageEffectsOrder | app/communication/router.py:85-117 | fault-free order: cache write, store write, the job if escalating, broadcast; a fault only cuts this list short |
| Router.OneStoreWritePerMessage | app/communication/router.py:96 | one store record (user_id, other_id, message) right after the cache write; an earlier fault leaves no record |
| Router.EnqueueIff | app/communication/router.py:99-115 | a job is enqueued if and only if telegram_id is a non-zero int, token is 0 and the enqueue does not fail; the job carries that id and the notice |
| Router.LeaverNotNotified | app/communication/router.py:119-121 | a socket registered once gets no copy of its own departure notice |
| Router.ChatServer.AppendToCache | app/communication/router.py:85-94 | the cache becomes Appended of the old cache; one cache write is logged |
| Router.ChatServer.Escalate | app/communication/router.py:99-115 | the jobs grow by EscalationJobs unless the enqueue raised; it reports whether the loop may go on |
| Router.ChatServer.ReceiveMessage | app/communication/router.py:81-117 | the new cache, store, jobs, outbox and trace are Handle of the old ones: each step happens exactly when every earlier step passed; the registry is unchanged; the loop goes on exactly when nothing raised |
| Router.ChatServer.Persist | app/communication/router.py:96-117 | the record is stored unless the store write raised; then the jobs, outbox and trace grow as the later steps allow; the cache is untouched |
| Router.ChatServer.Announce | app/communication/router.py:103-117 | the job is enqueued when escalating and the enqueue passes; the line is broadcast up to the first failing socket when nothing earlier raised; cache and store are untouched |
| Router.ChatServer.Leave | app/communication/router.py:119-121 | the socket is removed first, then the plain departure notice goes to the sockets that remain (Depart); nothing else changes |
| Router.ChatServer.GetMessages | app/communication/router.py:150-160 | returns and caches exactly what ReadThrough gives for the canonical key |
| Router.ChatServer.RunSession | app/communication/router.py:73-123 | the socket is registered, and only a clean close removes it; a socket that was not registered before leaves the list as it was; the whole new state is Session of the old: frames handled in order until one stops the loop |
| Router.ChatServer.Tick | app/communication/router.py:90 | time passing changes only the cache, by Elapse: each TTL runs down and spent entries vanish |
| Router.Handled | app/communication/router.py:79-117 | the number of leading text frames that the loop handles to the end; the frame after them is not one |
| Router.Through | app/communication/router.py:79-117 | the handled frames plus the stopping frame exactly when it is a text frame that got past a given step |
| Router.SessionStore | app/communication/router.py:79-123 | a session stores one record per text frame that got past the store step, in receive order, after the earlier records |
| Router.SessionCache | app/communication/router.py:79-123 | a session changes only the conversation's entry: its earlier history followed by the triples of the frames that got past the cache step, in receive order, TTL 600; no such frame, no change |
| Router.SessionJobs | app/communication/router.py:79-123 | a session's jobs are those of each frame that got past the enqueue step, in receive order, never to chat 0 |

## Left out

- FastAPI routing, Jinja templates and the pages `start_page`, `all_users` and `login_form` are presentation glue.
- `get_messages` also looks up two display names for its template. Those lookups are not modelled.
- `send_message` (app/communication/router.py:179-182) writes to the store without touching the cache. It is outside the live path modelled here.
- Registration, login and logout are left out: password hashing, JWTs and cookies are done by modules that are not shown. Their only effect here is the `token` column, which is an input.
- The Redis client, the SQLAlchemy sessions and the DAOs are foreign code. They are modelled as a map, a sequence and input values. The store's history query is a parameter of `GetMessages`.
- `send_msg_task.delay` is an external queue. It is modelled only as an appended job record.
- `datetime.now().strftime("%H:%M")` is a clock. Both of its readings are opaque string inputs.
- `websocket.accept()`, `receive_text()` and `get_redis()` are network I/O. Receiving is modelled as a finite sequence of inbound events.
- `print(e)` is logging and is not modelled.
- JSON: the cached triple list goes through `json.dumps`/`json.loads` unchanged.
- Router.ChatLineFormat: the broadcast payload is tagged `Json(line)` instead of the quoted, escaped JSON text (`ensure_ascii` escapes non-ASCII as `\uXXXX`), because that encoding is library code.
- Router.ChatServer.ReceiveMessage: at most one I/O call fails per message. The two recipient queries share one fault point.
- Router.ChatServer.ReceiveMessage: a failing send is assumed to raise an exception other than WebSocketDisconnect. If the server raised WebSocketDisconnect there, the sender's own loop would unregister the sender. That case is not modelled.
- Router.ChatServer.RunSession: which sockets' sends raise is an input per message (`dead`), so the model does not tie a socket left registered after its loop died to its later sends raising.
- Concurrency between connection loops is not modelled, because events are handled one at a time. This also leaves out lost updates from concurrent cache read-modify-writes and list changes during a broadcast.
- `UsersDAO.get_user_name_by_id` can return None, which the f-strings render as "None". The display name is an input string.
- app/config.py is settings loading. Its one f-string builds the database URL.
