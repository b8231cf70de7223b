/**
 * The live message handler: what one received chat message does to the
 * conversation cache, the message store, the notification queue and the
 * connected sockets, in that order; the departure of a socket; the history
 * page's read-through; and the per-socket receive loop around them.
 */
module Router {
  import opened Wrappers
  import opened Keys
  import opened Conversation
  import opened Escalation
  import opened Registry

  /** The row `put_message_to_db` writes. */
  datatype Record = Record(sender: int, recipient: int, text: string)

  /**
   * The I/O call that raises while one message is handled, if one does, named
   * by the step it interrupts; the steps run in the order listed.
   */
  datatype Fault =
    | NameLookupFails       // UsersDAO.get_user_name_by_id
    | CacheFails            // redis get/set
    | StoreFails            // MessagesDAO.put_message_to_db
    | RecipientLookupFails  // the telegram_id and token queries
    | EnqueueFails          // send_msg_task.delay

  function Stage(f: Fault): nat {
    match f
    case NameLookupFails => 0
    case CacheFails => 1
    case StoreFails => 2
    case RecipientLookupFails => 3
    case EnqueueFails => 4
  }

  /** The step f has been carried out to completion: no fault, or a fault in a later step. */
  predicate Passed(fault: Option<Fault>, f: Fault) {
    fault.None? || Stage(fault.value) > Stage(f)
  }

  /**
   * What the world supplies while one message is handled: the sender's name,
   * the two clock readings (cache triple, broadcast line), the recipient's
   * telegram_id and token columns, the failing I/O step if any, and the
   * sockets whose send raises.
   */
  datatype Env = Env(userName: string, cacheTime: string, lineTime: string,
                     telegramId: Option<int>, token: Option<int>,
                     fault: Option<Fault>, dead: set<Conn>)

  /** An externally visible effect, in the order the handler performs them. */
  datatype Effect =
    | CacheWrite(key: string, entry: Entry)
    | StoreWrite(record: Record)
    | Enqueue(job: Job)
    | Broadcast(payload: Payload)
    | Unregister(conn: Conn)

  /** Whether the receive loop goes on after a message. */
  datatype Outcome = Continue | Stopped

  /** One inbound event on a socket: a text frame, a clean close, or any other failure. */
  datatype Inbound = Text(message: string, env: Env) | Closed(dead: set<Conn>) | Broken

  /** The broadcast line '{user_name}: {HH:MM} - {message}'. */
  function ChatLine(userName: string, time: string, message: string): string {
    userName + ": " + time + " - " + message
  }

  /** The broadcast line, position by position: the name, ": ", the time, " - ", the message. */
  lemma ChatLineFormat(userName: string, time: string, message: string)
    ensures var r := ChatLine(userName, time, message);
            && |r| == |userName| + |time| + |message| + 5
            && r[..|userName|] == userName
            && r[|userName|..|userName| + 2] == ": "
            && r[|userName| + 2..|userName| + 2 + |time|] == time
            && r[|userName| + 2 + |time|..|userName| + 5 + |time|] == " - "
            && r[|r| - |message|..] == message
  {
  }

  /** The departure notice "User {user_id} left the chat". */
  function LeaveNotice(userId: int): string {
    "User " + IntToString(userId) + " left the chat"
  }

  /** The departure notice, position by position: "User ", the id's decimal text, " left the chat". */
  lemma LeaveNoticeFormat(userId: int)
    ensures var r := LeaveNotice(userId);
            && |r| == |IntToString(userId)| + 19
            && r[..5] == "User " && r[|r| - 14..] == " left the chat"
            && r[5..|r| - 14] == IntToString(userId)
  {
  }

  /** Departure notices of different users differ. */
  lemma LeaveNoticeInjective(a: int, b: int)
    requires LeaveNotice(a) == LeaveNotice(b)
    ensures a == b
  {
    LeaveNoticeFormat(a);
    LeaveNoticeFormat(b);
    var s, t := IntToString(a), IntToString(b);
    assert |s| == |t|;
    assert s == LeaveNotice(a)[5..5 + |s|];
    assert t == LeaveNotice(b)[5..5 + |t|];
    IntToStringInjective(a, b);
  }

  /** The handler gets to the broadcast: every earlier step passed (the enqueue only matters when attempted). */
  predicate Broadcasts(env: Env) {
    && Passed(env.fault, RecipientLookupFails)
    && (ShouldEscalate(env.telegramId, env.token) ==> Passed(env.fault, EnqueueFails))
  }

  /** The cache entry a message leaves behind. */
  function NewEntry(cache: Cache, userId: int, otherId: int, message: string, env: Env): Entry {
    Entry(Prior(cache, CacheKey(userId, otherId)) + [View(message, env.userName, env.cacheTime)], Ttl)
  }

  /** The effects of one received message, in order, cut off at the faulting step. */
  function MessageEffects(cache: Cache, userId: int, otherId: int, message: string, env: Env): (effects: seq<Effect>)
    ensures |effects| <= 4
    ensures effects != [] <==> Passed(env.fault, CacheFails)
    ensures Broadcasts(env) <==> effects != [] && effects[|effects| - 1].Broadcast?
  {
    (if Passed(env.fault, CacheFails)
     then [CacheWrite(CacheKey(userId, otherId), NewEntry(cache, userId, otherId, message, env))] else [])
    + StoreEffects(userId, otherId, message, env)
  }

  /** The effects from the store write on. */
  function StoreEffects(userId: int, otherId: int, message: string, env: Env): seq<Effect> {
    (if Passed(env.fault, StoreFails) then [StoreWrite(Record(userId, otherId, message))] else [])
    + AnnounceEffects(message, env)
  }

  /** The effects after the store write: the job if escalating, then the broadcast. */
  function AnnounceEffects(message: string, env: Env): seq<Effect> {
    (if Passed(env.fault, EnqueueFails) && ShouldEscalate(env.telegramId, env.token)
     then [Enqueue(Job(env.telegramId.value, Notice(env.userName, message)))] else [])
    + (if Broadcasts(env) then [Broadcast(Json(ChatLine(env.userName, env.lineTime, message)))] else [])
  }

  /** MessageEffects by where the handler stops. */
  lemma MessageEffectsCases(cache: Cache, userId: int, otherId: int, message: string, env: Env)
    ensures var effects := MessageEffects(cache, userId, otherId, message, env);
            var written := CacheWrite(CacheKey(userId, otherId), NewEntry(cache, userId, otherId, message, env));
            var stored := StoreWrite(Record(userId, otherId, message));
            var sent := Broadcast(Json(ChatLine(env.userName, env.lineTime, message)));
            && (!Passed(env.fault, CacheFails) ==> effects == [])
            && (env.fault == Some(StoreFails) ==> effects == [written])
            && (Passed(env.fault, StoreFails) && !Broadcasts(env) ==> effects == [written, stored])
            && (Broadcasts(env) && !ShouldEscalate(env.telegramId, env.token) ==> effects == [written, stored, sent])
            && (Broadcasts(env) && ShouldEscalate(env.telegramId, env.token) ==>
                  effects == [written, stored, Enqueue(Job(env.telegramId.value, Notice(env.userName, message))), sent])
  {
    AnnounceEffectsCases(message, env);
    var written := CacheWrite(CacheKey(userId, otherId), NewEntry(cache, userId, otherId, message, env));
    var stored := StoreWrite(Record(userId, otherId, message));
    if Passed(env.fault, StoreFails) {
      assert StoreEffects(userId, otherId, message, env) == [stored] + AnnounceEffects(message, env);
      assert MessageEffects(cache, userId, otherId, message, env) == [written] + StoreEffects(userId, otherId, message, env);
    } else {
      assert StoreEffects(userId, otherId, message, env) == [];
    }
  }

  /** The effects after the store write, by whether the handler gets to the broadcast. */
  lemma AnnounceEffectsCases(message: string, env: Env)
    ensures var sent := Broadcast(Json(ChatLine(env.userName, env.lineTime, message)));
            && (!Broadcasts(env) ==> AnnounceEffects(message, env) == [])
            && (Broadcasts(env) && !ShouldEscalate(env.telegramId, env.token) ==> AnnounceEffects(message, env) == [sent])
            && (Broadcasts(env) && ShouldEscalate(env.telegramId, env.token) ==>
                  AnnounceEffects(message, env) == [Enqueue(Job(env.telegramId.value, Notice(env.userName, message))), sent])
  {
  }

  /** Whether the receive loop survives a message: no fault stopped it and no send raised. */
  function MessageOutcome(active: seq<Conn>, env: Env): Outcome {
    if Broadcasts(env) && Reach(active, env.dead) == |active| then Continue else Stopped
  }

  /** Everything the handler acts on except the registry: cache, store, jobs, sends and the effect log. */
  datatype World = World(cache: Cache, store: seq<Record>, jobs: seq<Job>, outbox: seq<Send>, trace: seq<Effect>)

  /**
   * What one received text frame does to the world, with active the
   * registered sockets: each step happens when every step before it passed.
   */
  function Handle(w: World, active: seq<Conn>, userId: int, otherId: int, message: string, env: Env): World {
    World(if Passed(env.fault, CacheFails)
          then Appended(w.cache, CacheKey(userId, otherId), View(message, env.userName, env.cacheTime))
          else w.cache,
          w.store + (if Passed(env.fault, StoreFails) then [Record(userId, otherId, message)] else []),
          w.jobs + (if Passed(env.fault, EnqueueFails)
                    then EscalationJobs(env.telegramId, env.token, env.userName, message) else []),
          w.outbox + (if Broadcasts(env)
                      then Deliveries(active[..Reach(active, env.dead)], Json(ChatLine(env.userName, env.lineTime, message)))
                      else []),
          w.trace + MessageEffects(w.cache, userId, otherId, message, env))
  }

  /** The world Handle leaves at each step where the handler can stop before the broadcast. */
  lemma HandleStops(w: World, active: seq<Conn>, userId: int, otherId: int, message: string, env: Env)
    ensures var h := Handle(w, active, userId, otherId, message, env);
            var key := CacheKey(userId, otherId);
            var cached := Appended(w.cache, key, View(message, env.userName, env.cacheTime));
            var written := CacheWrite(key, NewEntry(w.cache, userId, otherId, message, env));
            var r := Record(userId, otherId, message);
            && (!Passed(env.fault, CacheFails) ==> h == w)
            && (env.fault == Some(StoreFails) ==> h == w.(cache := cached, trace := w.trace + [written]))
            && (Passed(env.fault, StoreFails) && !Broadcasts(env) ==>
                  h == w.(cache := cached, store := w.store + [r], trace := w.trace + [written, StoreWrite(r)]))
  {
    MessageEffectsCases(w.cache, userId, otherId, message, env);
  }

  /** What the disconnect handler does to the world: the notice goes to the sockets that remain. */
  function Depart(w: World, active: seq<Conn>, conn: Conn, userId: int, dead: set<Conn>): World
    requires conn in active
  {
    var rest := RemoveFirst(active, conn);
    var notice := Plain(LeaveNotice(userId));
    w.(outbox := w.outbox + Deliveries(rest[..Reach(rest, dead)], notice),
       trace := w.trace + [Unregister(conn), Broadcast(notice)])
  }

  predicate IsPrefix(a: seq<Effect>, b: seq<Effect>) {
    |a| <= |b| && b[..|a|] == a
  }

  /**
   * The order of effects: without a fault a message writes the cache, then
   * the store, then (when escalating) enqueues one job, then broadcasts; a
   * fault anywhere cuts this list short and never reorders or adds to it.
   */
  lemma MessageEffectsOrder(cache: Cache, userId: int, otherId: int, message: string, env: Env)
    ensures var full := MessageEffects(cache, userId, otherId, message, env.(fault := None));
            full == [CacheWrite(CacheKey(userId, otherId), NewEntry(cache, userId, otherId, message, env)),
                     StoreWrite(Record(userId, otherId, message))]
                    + (if ShouldEscalate(env.telegramId, env.token)
                       then [Enqueue(Job(env.telegramId.value, Notice(env.userName, message)))] else [])
                    + [Broadcast(Json(ChatLine(env.userName, env.lineTime, message)))]
    ensures IsPrefix(MessageEffects(cache, userId, otherId, message, env),
                     MessageEffects(cache, userId, otherId, message, env.(fault := None)))
  {
    MessageEffectsCases(cache, userId, otherId, message, env);
    MessageEffectsCases(cache, userId, otherId, message, env.(fault := None));
  }

  /**
   * Exactly one store record per message that gets past the cache step, with
   * sender userId, recipient otherId and the message text, right after the
   * cache write; a fault before the store leaves the cache written and the
   * store untouched.
   */
  lemma OneStoreWritePerMessage(cache: Cache, userId: int, otherId: int, message: string, env: Env)
    ensures var effects := MessageEffects(cache, userId, otherId, message, env);
            && (Passed(env.fault, StoreFails) ==>
                  |effects| >= 2 && effects[0].CacheWrite? && effects[1] == StoreWrite(Record(userId, otherId, message))
                  && forall i :: 2 <= i < |effects| ==> !effects[i].StoreWrite?)
            && (!Passed(env.fault, StoreFails) ==> forall e :: e in effects ==> !e.StoreWrite?)
  {
  }

  /**
   * A notification job is enqueued exactly when the recipient has a non-zero
   * telegram_id and a zero token (and the queue call does not fail); the job
   * goes to that id and carries the notice of this message.
   */
  lemma EnqueueIff(cache: Cache, userId: int, otherId: int, message: string, env: Env)
    ensures var effects := MessageEffects(cache, userId, otherId, message, env);
            && ((exists e :: e in effects && e.Enqueue?) <==>
                  (Passed(env.fault, EnqueueFails)
                   && env.telegramId.Some? && env.telegramId.value != 0 && env.token == Some(0)))
            && forall e :: e in effects && e.Enqueue? ==>
                 e.job == Job(env.telegramId.value, Notice(env.userName, message))
  {
    MessageEffectsCases(cache, userId, otherId, message, env);
    var effects := MessageEffects(cache, userId, otherId, message, env);
    if Passed(env.fault, EnqueueFails) && ShouldEscalate(env.telegramId, env.token) {
      var e := Enqueue(Job(env.telegramId.value, Notice(env.userName, message)));
      assert effects[2] == e;
    }
  }

  /** A departing socket that was registered once is not sent its own departure notice. */
  lemma LeaverNotNotified(active: seq<Conn>, conn: Conn, dead: set<Conn>, p: Payload)
    requires conn in active && multiset(active)[conn] == 1
    ensures var rest := RemoveFirst(active, conn);
            Send(conn, p) !in Deliveries(rest[..Reach(rest, dead)], p)
  {
  }

  /** Whether the events on one socket end with a clean close, every earlier message having let the loop go on. */
  predicate ClosesCleanly(active: seq<Conn>, events: seq<Inbound>)
    decreases |events|
  {
    if events == [] then false
    else match events[0]
      case Text(_, env) => MessageOutcome(active, env) == Continue && ClosesCleanly(active, events[1..])
      case Closed(_) => true
      case Broken => false
  }

  /**
   * What the receive loop of socket conn, registered in active, does to the
   * world over its events: text frames are handled in order until one stops
   * the loop; a clean close runs the disconnect handler; any other failure
   * ends the loop with nothing more done.
   */
  function Session(w: World, active: seq<Conn>, conn: Conn, userId: int, otherId: int,
                   events: seq<Inbound>): World
    requires conn in active
    decreases |events|
  {
    if events == [] then w
    else match events[0]
      case Text(message, env) =>
        var next := Handle(w, active, userId, otherId, message, env);
        if MessageOutcome(active, env) == Continue
        then Session(next, active, conn, userId, otherId, events[1..])
        else next
      case Closed(dead) => Depart(w, active, conn, userId, dead)
      case Broken => w
  }

  /** How many leading events are text frames that the loop handles to the end. */
  function Handled(active: seq<Conn>, events: seq<Inbound>): (n: nat)
    ensures n <= |events|
    ensures forall k :: 0 <= k < n ==> events[k].Text? && MessageOutcome(active, events[k].env) == Continue
    ensures n < |events| ==> !(events[n].Text? && MessageOutcome(active, events[n].env) == Continue)
    decreases |events|
  {
    if events != [] && events[0].Text? && MessageOutcome(active, events[0].env) == Continue
    then 1 + Handled(active, events[1..])
    else 0
  }

  /**
   * How many leading events are text frames that carry out step f: the
   * handled ones, and the frame that stopped the loop if it got past f.
   */
  function Through(active: seq<Conn>, events: seq<Inbound>, f: Fault): (n: nat)
    ensures Handled(active, events) <= n <= Handled(active, events) + 1 && n <= |events|
    ensures forall k :: 0 <= k < n ==> events[k].Text?
    ensures n == Handled(active, events) + 1 <==>
              Handled(active, events) < |events| && events[Handled(active, events)].Text?
              && Passed(events[Handled(active, events)].env.fault, f)
  {
    var h := Handled(active, events);
    if h < |events| && events[h].Text? && Passed(events[h].env.fault, f) then h + 1 else h
  }

  predicate AllText(frames: seq<Inbound>) {
    forall k :: 0 <= k < |frames| ==> frames[k].Text?
  }

  /** The cached triple of each text frame, in receive order. */
  function ViewsOf(frames: seq<Inbound>): (vs: seq<View>)
    requires AllText(frames)
    ensures |vs| == |frames|
    ensures forall k :: 0 <= k < |frames| ==>
              vs[k] == View(frames[k].message, frames[k].env.userName, frames[k].env.cacheTime)
    decreases |frames|
  {
    if frames == [] then []
    else [View(frames[0].message, frames[0].env.userName, frames[0].env.cacheTime)] + ViewsOf(frames[1..])
  }

  /** The store record of each text frame from userId to otherId, in receive order. */
  function RecordsOf(userId: int, otherId: int, frames: seq<Inbound>): (rs: seq<Record>)
    requires AllText(frames)
    ensures |rs| == |frames|
    ensures forall k :: 0 <= k < |frames| ==> rs[k] == Record(userId, otherId, frames[k].message)
    decreases |frames|
  {
    if frames == [] then []
    else [Record(userId, otherId, frames[0].message)] + RecordsOf(userId, otherId, frames[1..])
  }

  /** The notification jobs of the text frames, in receive order: at most one each, never to chat 0. */
  function JobsOf(frames: seq<Inbound>): (js: seq<Job>)
    requires AllText(frames)
    ensures |js| <= |frames|
    ensures forall j :: j in js ==> j.chatId != 0
    decreases |frames|
  {
    if frames == [] then []
    else EscalationJobs(frames[0].env.telegramId, frames[0].env.token, frames[0].env.userName, frames[0].message)
         + JobsOf(frames[1..])
  }

  /** Dropping the first of several handled frames shifts both counts down by one. */
  lemma ThroughFirst(active: seq<Conn>, events: seq<Inbound>, f: Fault)
    requires events != [] && events[0].Text? && MessageOutcome(active, events[0].env) == Continue
    ensures Handled(active, events) == 1 + Handled(active, events[1..])
    ensures Through(active, events, f) == 1 + Through(active, events[1..], f)
    ensures events[..Through(active, events, f)] == [events[0]] + events[1..][..Through(active, events[1..], f)]
  {
    var h := Handled(active, events[1..]);
    var t := Through(active, events[1..], f);
    assert Handled(active, events) == 1 + h;
    if h < |events[1..]| {
      assert events[1..][h] == events[h + 1];
    }
    assert Through(active, events, f) == 1 + t;
    assert events[..1 + t] == [events[0]] + events[1..][..t];
  }

  lemma AppendAssoc<T>(a: seq<T>, b: seq<T>, c: seq<T>)
    ensures (a + b) + c == a + (b + c)
  {
  }

  /** After a frame handled to the end, the session goes on with the rest from the world Handle leaves. */
  lemma SessionFirst(w: World, active: seq<Conn>, conn: Conn, userId: int, otherId: int, events: seq<Inbound>)
    requires conn in active
    requires events != [] && events[0].Text? && MessageOutcome(active, events[0].env) == Continue
    ensures Session(w, active, conn, userId, otherId, events)
            == Session(Handle(w, active, userId, otherId, events[0].message, events[0].env),
                       active, conn, userId, otherId, events[1..])
  {
  }

  /** A frame handled to the end got through every step before the broadcast. */
  lemma HandledPassed(active: seq<Conn>, env: Env, f: Fault)
    requires MessageOutcome(active, env) == Continue
    requires f != EnqueueFails
    ensures Passed(env.fault, f)
  {
  }

  /**
   * One store record per frame that got past the cache step, in receive
   * order: every handled message, and the one that stopped the loop when it
   * failed after the store write.
   */
  lemma {:induction false} SessionStore(w: World, active: seq<Conn>, conn: Conn, userId: int, otherId: int,
                                        events: seq<Inbound>)
    requires conn in active
    ensures Session(w, active, conn, userId, otherId, events).store
            == w.store + RecordsOf(userId, otherId, events[..Through(active, events, StoreFails)])
    decreases |events|, 1
  {
    if events != [] && events[0].Text? {
      var e := events[0];
      var next := Handle(w, active, userId, otherId, e.message, e.env);
      var r := Record(userId, otherId, e.message);
      if MessageOutcome(active, e.env) == Continue {
        SessionStoreHandled(w, active, conn, userId, otherId, events);
      } else {
        assert Handled(active, events) == 0;
        if Passed(e.env.fault, StoreFails) {
          assert RecordsOf(userId, otherId, events[..1]) == [r];
        }
      }
    }
  }

  /** SessionStore when the first frame is handled to the end. */
  lemma {:induction false} SessionStoreHandled(w: World, active: seq<Conn>, conn: Conn, userId: int, otherId: int,
                                               events: seq<Inbound>)
    requires conn in active
    requires events != [] && events[0].Text? && MessageOutcome(active, events[0].env) == Continue
    ensures Session(w, active, conn, userId, otherId, events).store
            == w.store + RecordsOf(userId, otherId, events[..Through(active, events, StoreFails)])
    decreases |events|, 0
  {
    var e := events[0];
    var next := Handle(w, active, userId, otherId, e.message, e.env);
    var r := Record(userId, otherId, e.message);
    HandledPassed(active, e.env, StoreFails);
    assert next.store == w.store + [r];
    SessionFirst(w, active, conn, userId, otherId, events);
    SessionStore(next, active, conn, userId, otherId, events[1..]);
    RecordsThroughFirst(active, userId, otherId, events, StoreFails);
    AppendAssoc(w.store, [r], RecordsOf(userId, otherId, events[1..][..Through(active, events[1..], StoreFails)]));
  }

  /** The records through step f of frames whose first is handled to the end: that frame's, then the rest's. */
  lemma RecordsThroughFirst(active: seq<Conn>, userId: int, otherId: int, events: seq<Inbound>, f: Fault)
    requires events != [] && events[0].Text? && MessageOutcome(active, events[0].env) == Continue
    ensures RecordsOf(userId, otherId, events[..Through(active, events, f)])
            == [Record(userId, otherId, events[0].message)]
               + RecordsOf(userId, otherId, events[1..][..Through(active, events[1..], f)])
  {
    ThroughFirst(active, events, f);
    var rest := events[1..][..Through(active, events[1..], f)];
    assert ([events[0]] + rest)[1..] == rest;
  }

  /**
   * The cache after a session: unchanged when no frame got through the cache
   * step; otherwise only the conversation's entry differs, holding its earlier
   * history followed by those frames' triples in the order they were
   * received, with a fresh Ttl.
   */
  lemma {:induction false} SessionCache(w: World, active: seq<Conn>, conn: Conn, userId: int, otherId: int,
                                        events: seq<Inbound>)
    requires conn in active
    ensures var c := Session(w, active, conn, userId, otherId, events).cache;
            var key := CacheKey(userId, otherId);
            var vs := ViewsOf(events[..Through(active, events, CacheFails)]);
            && (vs == [] ==> c == w.cache)
            && (vs != [] ==> c == w.cache[key := Entry(Prior(w.cache, key) + vs, Ttl)])
    decreases |events|, 1
  {
    if events != [] && events[0].Text? {
      var e := events[0];
      if MessageOutcome(active, e.env) == Continue {
        SessionCacheHandled(w, active, conn, userId, otherId, events);
      } else {
        assert Handled(active, events) == 0;
        if Passed(e.env.fault, CacheFails) {
          assert ViewsOf(events[..1]) == [View(e.message, e.env.userName, e.env.cacheTime)];
        } else {
          assert ViewsOf(events[..0]) == [];
        }
      }
    } else {
      assert ViewsOf(events[..0]) == [];
    }
  }

  /** SessionCache when the first frame is handled to the end. */
  lemma {:induction false} SessionCacheHandled(w: World, active: seq<Conn>, conn: Conn, userId: int, otherId: int,
                                               events: seq<Inbound>)
    requires conn in active
    requires events != [] && events[0].Text? && MessageOutcome(active, events[0].env) == Continue
    ensures var c := Session(w, active, conn, userId, otherId, events).cache;
            var key := CacheKey(userId, otherId);
            c == w.cache[key := Entry(Prior(w.cache, key) + ViewsOf(events[..Through(active, events, CacheFails)]), Ttl)]
    decreases |events|, 0
  {
    var e := events[0];
    var key := CacheKey(userId, otherId);
    var next := Handle(w, active, userId, otherId, e.message, e.env);
    var v := View(e.message, e.env.userName, e.env.cacheTime);
    var rest := ViewsOf(events[1..][..Through(active, events[1..], CacheFails)]);
    HandledPassed(active, e.env, CacheFails);
    assert next.cache == w.cache[key := Entry(Prior(w.cache, key) + [v], Ttl)];
    SessionFirst(w, active, conn, userId, otherId, events);
    SessionCache(next, active, conn, userId, otherId, events[1..]);
    ViewsThroughFirst(active, events, CacheFails);
    if rest == [] {
      assert [v] + rest == [v];
    } else {
      assert Prior(next.cache, key) == Prior(w.cache, key) + [v];
      AppendAssoc(Prior(w.cache, key), [v], rest);
      Overwrite(w.cache, key, Entry(Prior(w.cache, key) + [v], Ttl), Entry(Prior(w.cache, key) + [v] + rest, Ttl));
    }
  }

  /** The triples through step f of frames whose first is handled to the end: that frame's, then the rest's. */
  lemma ViewsThroughFirst(active: seq<Conn>, events: seq<Inbound>, f: Fault)
    requires events != [] && events[0].Text? && MessageOutcome(active, events[0].env) == Continue
    ensures ViewsOf(events[..Through(active, events, f)])
            == [View(events[0].message, events[0].env.userName, events[0].env.cacheTime)]
               + ViewsOf(events[1..][..Through(active, events[1..], f)])
  {
    ThroughFirst(active, events, f);
    var rest := events[1..][..Through(active, events[1..], f)];
    assert ([events[0]] + rest)[1..] == rest;
  }

  /**
   * The notification jobs of a session: those of each frame that got through
   * the enqueue step, in receive order.
   */
  lemma {:induction false} SessionJobs(w: World, active: seq<Conn>, conn: Conn, userId: int, otherId: int,
                                       events: seq<Inbound>)
    requires conn in active
    ensures Session(w, active, conn, userId, otherId, events).jobs
            == w.jobs + JobsOf(events[..Through(active, events, EnqueueFails)])
    decreases |events|, 1
  {
    if events != [] && events[0].Text? {
      var e := events[0];
      if MessageOutcome(active, e.env) == Continue {
        SessionJobsHandled(w, active, conn, userId, otherId, events);
      } else {
        assert Handled(active, events) == 0;
        if Passed(e.env.fault, EnqueueFails) {
          assert events[..1] == [e] && events[..1][1..] == [];
        }
      }
    }
  }

  /** SessionJobs when the first frame is handled to the end. */
  lemma {:induction false} SessionJobsHandled(w: World, active: seq<Conn>, conn: Conn, userId: int, otherId: int,
                                              events: seq<Inbound>)
    requires conn in active
    requires events != [] && events[0].Text? && MessageOutcome(active, events[0].env) == Continue
    ensures Session(w, active, conn, userId, otherId, events).jobs
            == w.jobs + JobsOf(events[..Through(active, events, EnqueueFails)])
    decreases |events|, 0
  {
    var e := events[0];
    var next := Handle(w, active, userId, otherId, e.message, e.env);
    var js := EscalationJobs(e.env.telegramId, e.env.token, e.env.userName, e.message);
    assert next.jobs == w.jobs + js;
    SessionFirst(w, active, conn, userId, otherId, events);
    SessionJobs(next, active, conn, userId, otherId, events[1..]);
    ThroughFirst(active, events, EnqueueFails);
    var rest := events[1..][..Through(active, events[1..], EnqueueFails)];
    assert ([e] + rest)[1..] == rest;
    AppendAssoc(w.jobs, js, JobsOf(rest));
  }

  class ChatServer {
    /** The cache backend: key to (history, seconds to live). */
    var cache: Cache
    /** The messages table, in insertion order. */
    var store: seq<Record>
    /** The jobs handed to the notification queue, oldest first. */
    var jobs: seq<Job>
    /** Every effect on the outside world, oldest first. */
    var trace: seq<Effect>
    /** The process-wide connection manager. */
    const manager: ConnectionManager

    /** The world as this server and its manager hold it. */
    function Snapshot(): World
      reads this, manager
    {
      World(cache, store, jobs, manager.outbox, trace)
    }

    constructor (manager: ConnectionManager)
      ensures this.manager == manager
      ensures cache == map[] && store == [] && jobs == [] && trace == []
    {
      this.manager := manager;
      cache := map[];
      store := [];
      jobs := [];
      trace := [];
    }

    /**
     * The cache step of a message: read the conversation's cached list, append
     * the triple (or start a one-element list on a miss), write it back with
     * the expiry reset to Ttl.
     */
    method AppendToCache(key: string, v: View)
      modifies this
      ensures cache == Appended(old(cache), key, v)
      ensures trace == old(trace) + [CacheWrite(key, Entry(Prior(old(cache), key) + [v], Ttl))]
      ensures store == old(store) && jobs == old(jobs)
    {
      var messages: seq<View>;
      match Lookup(cache, key) {
        case Some(history) =>
          messages := history + [v];
        case None =>
          messages := [v];
      }
      cache := cache[key := Entry(messages, Ttl)];
      trace := trace + [CacheWrite(key, Entry(messages, Ttl))];
    }

    /**
     * The escalation step of a message: with the recipient's telegram_id and
     * token in hand, enqueue the notice when the recipient has a Telegram id
     * and is logged out. ok is false when the enqueue call raised.
     */
    method Escalate(telegramId: Option<int>, token: Option<int>, enqueueFails: bool,
                    userName: string, message: string) returns (ok: bool)
      modifies this
      ensures ok <==> !(ShouldEscalate(telegramId, token) && enqueueFails)
      ensures jobs == old(jobs) + if ok then EscalationJobs(telegramId, token, userName, message) else []
      ensures trace == old(trace) + if ok && ShouldEscalate(telegramId, token)
                                    then [Enqueue(Job(telegramId.value, Notice(userName, message)))] else []
      ensures cache == old(cache) && store == old(store)
    {
      var notice := Notice(userName, message);
      match telegramId {
        case Some(id) =>
          if id != 0 {
            if token == Some(0) {
              if enqueueFails {
                return false;
              }
              jobs := jobs + [Job(id, notice)];
              trace := trace + [Enqueue(Job(id, notice))];
            }
          }
        case None =>
      }
      return true;
    }

    /**
     * One pass of the receive loop for a text frame from userId to otherId:
     * look up the sender's name, append the triple to the conversation's
     * cached history (TTL reset), store the record, escalate when the
     * recipient is reachable only by Telegram, and broadcast the line.
     */
    method ReceiveMessage(userId: int, otherId: int, message: string, env: Env) returns (outcome: Outcome)
      modifies this, manager
      ensures manager.active == old(manager.active)
      ensures Snapshot() == Handle(old(Snapshot()), manager.active, userId, otherId, message, env)
      ensures outcome == MessageOutcome(manager.active, env)
    {
      HandleStops(Snapshot(), manager.active, userId, otherId, message, env);
      if env.fault == Some(NameLookupFails) {
        return Stopped;
      }
      var userName := env.userName;
      var key := CacheKey(userId, otherId);
      if env.fault == Some(CacheFails) {
        return Stopped;
      }
      ghost var written := CacheWrite(key, NewEntry(cache, userId, otherId, message, env));
      AppendToCache(key, View(message, userName, env.cacheTime));
      outcome := Persist(userId, otherId, message, env);
      AppendAssoc(old(trace), [written], StoreEffects(userId, otherId, message, env));
    }

    /** The steps of a message from its store write on. */
    method Persist(userId: int, otherId: int, message: string, env: Env) returns (outcome: Outcome)
      requires Passed(env.fault, CacheFails)
      modifies this, manager
      ensures manager.active == old(manager.active)
      ensures cache == old(cache)
      ensures store == old(store) + if Passed(env.fault, StoreFails) then [Record(userId, otherId, message)] else []
      ensures jobs == old(jobs) + if Passed(env.fault, EnqueueFails)
                                  then EscalationJobs(env.telegramId, env.token, env.userName, message) else []
      ensures manager.outbox == old(manager.outbox) +
                if Broadcasts(env)
                then Deliveries(manager.active[..Reach(manager.active, env.dead)],
                                Json(ChatLine(env.userName, env.lineTime, message)))
                else []
      ensures trace == old(trace) + StoreEffects(userId, otherId, message, env)
      ensures outcome == MessageOutcome(manager.active, env)
    {
      if env.fault == Some(StoreFails) {
        return Stopped;
      }
      var r := Record(userId, otherId, message);
      store := store + [r];
      trace := trace + [StoreWrite(r)];
      outcome := Announce(message, env);
      AppendAssoc(old(trace), [StoreWrite(r)], AnnounceEffects(message, env));
    }

    /**
     * The steps of a message after its store write: look up the recipient,
     * escalate when the recipient is reachable only by Telegram, and
     * broadcast the line.
     */
    method Announce(message: string, env: Env) returns (outcome: Outcome)
      requires Passed(env.fault, StoreFails)
      modifies this, manager
      ensures manager.active == old(manager.active)
      ensures cache == old(cache) && store == old(store)
      ensures jobs == old(jobs) + if Passed(env.fault, EnqueueFails)
                                  then EscalationJobs(env.telegramId, env.token, env.userName, message) else []
      ensures manager.outbox == old(manager.outbox) +
                if Broadcasts(env)
                then Deliveries(manager.active[..Reach(manager.active, env.dead)],
                                Json(ChatLine(env.userName, env.lineTime, message)))
                else []
      ensures trace == old(trace) + AnnounceEffects(message, env)
      ensures outcome == MessageOutcome(manager.active, env)
    {
      if env.fault == Some(RecipientLookupFails) {
        return Stopped;
      }
      var ok := Escalate(env.telegramId, env.token, env.fault == Some(EnqueueFails), env.userName, message);
      if !ok {
        return Stopped;
      }
      var payload := Json(ChatLine(env.userName, env.lineTime, message));
      trace := trace + [Broadcast(payload)];
      var delivered := manager.Broadcast(payload, env.dead);
      outcome := if delivered then Continue else Stopped;
    }

    /**
     * The WebSocketDisconnect handler: unregister the socket, then broadcast
     * the plain-text departure notice to the sockets that remain.
     */
    method Leave(conn: Conn, userId: int, dead: set<Conn>)
      requires conn in manager.active
      modifies this, manager
      ensures manager.active == RemoveFirst(old(manager.active), conn)
      ensures Snapshot() == Depart(old(Snapshot()), old(manager.active), conn, userId, dead)
    {
      manager.Disconnect(conn);
      trace := trace + [Unregister(conn)];
      var payload := Plain(LeaveNotice(userId));
      trace := trace + [Broadcast(payload)];
      var _ := manager.Broadcast(payload, dead);
    }

    /**
     * The history page's read: serve the cached list for the pair on a hit,
     * else the stored history (what `get_messages_between_users` returns),
     * which is then cached for Ttl seconds.
     */
    method GetMessages(userId: int, otherUserId: int, stored: seq<View>) returns (views: seq<View>)
      modifies this
      ensures var r := ReadThrough(old(cache), CacheKey(userId, otherUserId), stored);
              views == r.views && cache == r.cache
      ensures store == old(store) && jobs == old(jobs)
      ensures trace == old(trace) + if CacheKey(userId, otherUserId) in old(cache) then []
                                    else [CacheWrite(CacheKey(userId, otherUserId), Entry(stored, Ttl))]
    {
      var key := CacheKey(userId, otherUserId);
      match Lookup(cache, key)
      case Some(history) =>
        views := history;
      case None =>
        views := stored;
        cache := cache[key := Entry(views, Ttl)];
        trace := trace + [CacheWrite(key, Entry(views, Ttl))];
    }

    /** Time passing with no write: every cached entry's TTL runs down, spent entries vanish. */
    method Tick(seconds: nat)
      modifies this
      ensures cache == Elapse(old(cache), seconds)
      ensures store == old(store) && jobs == old(jobs) && trace == old(trace)
    {
      cache := Elapse(cache, seconds);
    }

    /**
     * The socket endpoint: register the socket, then handle its events in
     * order until a clean close (unregister and notify), a message whose
     * handling raised, any other failure, or the end of the events. Only a
     * clean close takes the socket out of the registry.
     */
    method RunSession(conn: Conn, userId: int, otherId: int, events: seq<Inbound>)
      modifies this, manager
      ensures conn in old(manager.active) + [conn]
      ensures manager.active == if ClosesCleanly(old(manager.active) + [conn], events)
                                then RemoveFirst(old(manager.active) + [conn], conn)
                                else old(manager.active) + [conn]
      ensures conn !in old(manager.active) && ClosesCleanly(old(manager.active) + [conn], events)
              ==> manager.active == old(manager.active)
      ensures Snapshot() == Session(old(Snapshot()), old(manager.active) + [conn], conn, userId, otherId, events)
    {
      manager.Connect(conn);
      ghost var registered := manager.active;
      assert registered[|registered| - 1] == conn;
      if conn !in old(manager.active) {
        RemoveAfterAppend(old(manager.active), conn);
      }
      var i := 0;
      while i < |events|
        invariant 0 <= i <= |events|
        invariant manager.active == registered
        invariant ClosesCleanly(registered, events) == ClosesCleanly(registered, events[i..])
        invariant Session(old(Snapshot()), registered, conn, userId, otherId, events)
                  == Session(Snapshot(), registered, conn, userId, otherId, events[i..])
      {
        assert events[i..][0] == events[i] && events[i..][1..] == events[i + 1..];
        match events[i] {
          case Text(message, env) =>
            var outcome := ReceiveMessage(userId, otherId, message, env);
            if outcome == Stopped {
              return;
            }
          case Closed(dead) =>
            Leave(conn, userId, dead);
            return;
          case Broken =>
            return;
        }
        i := i + 1;
      }
    }
  }
}
