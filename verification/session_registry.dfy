/**
 * The collaborative session registry of `app/services/enhanced_websocket.py`:
 * per-pipeline connection maps, the single-holder edit lock with its
 * owner-checked auto-release, the debounced draft auto-save, recipient sets
 * of the two broadcasts, and the 50-character streaming of agent replies.
 *
 * The manager's coroutines are run one at a time. The timers it starts with
 * `asyncio.create_task` are kept in the state as pending tasks, and their
 * firing is an explicit event (`FireRelease`, `FireAutoSave`). A websocket is
 * named by its user id; the sockets whose sends raise are a parameter
 * `down`, since `_send_safe` swallows those errors.
 */
module SessionRegistry {
  import opened Base

  /** An open websocket, by identity. */
  type Socket = nat

  const ChunkSize := 50
  const LockSeconds := 30
  const AutoSaveSeconds := 5

  /** The shared pipeline state every collaborator sees. */
  datatype PipelineState = PipelineState(urls: seq<string>, schema: Schema, code: string, status: string,
                                         collaborators: seq<string>)

  const FreshState := PipelineState([], map[], "", "idle", [])

  /**
   * One pipeline's entry: its connections and its state. `connect` creates
   * both together and `disconnect` deletes both together, so the two maps of
   * the source share their keys and are kept here as one.
   */
  datatype Room = Room(conns: map<string, Socket>, state: PipelineState)

  datatype UserInfo = UserInfo(pipelineId: string, connectedAt: int, isEditing: bool)

  /** A pending `_auto_release_lock(pipeline_id, user_id, 30)`. */
  datatype ReleaseTask = ReleaseTask(pipelineId: string, userId: string, due: int)

  /** A `_auto_save_draft` task; `done` once it has run. */
  datatype DraftTimer = DraftTimer(pipelineId: string, userId: string, due: int, done: bool)

  datatype Session = Session(
    rooms: map<string, Room>,
    users: map<string, UserInfo>,
    locks: map<string, string>,
    releases: seq<ReleaseTask>,
    drafts: map<string, DraftTimer>,
    streams: map<string, seq<string>>)

  const EmptySession := Session(map[], map[], map[], [], map[], map[])

  /** The messages the manager sends, without their timestamps. */
  datatype Msg =
    | Connected(userId: string, pipelineId: string, state: PipelineState, collaborators: set<string>)
    | UserJoined(userId: string, totalUsers: nat)
    | EditWarning(holder: string)
    | PipelineUpdated(userId: string, field: Option<string>)
    | LockReleasedInfo
    | DraftSavedInfo(pipelineId: string)
    | ChunkMsg(messageId: string, chunk: string)
    | CompleteMsg(messageId: string, content: string)

  datatype Delivery = Delivery(to: string, msg: Msg)

  /** The key under which `_schedule_auto_save` files a user's draft timer. */
  function TimerKey(pipelineId: string, userId: string): string
  {
    pipelineId + ":" + userId
  }

  /**
   * The registry's standing invariant: a listed pipeline has at least one
   * connection, and every draft timer is filed under its own pipeline:user key.
   */
  predicate Wf(s: Session)
  {
    && (forall p :: p in s.rooms ==> |s.rooms[p].conns| > 0)
    && (forall k :: k in s.drafts ==> k == TimerKey(s.drafts[k].pipelineId, s.drafts[k].userId))
  }

  // ---------------------------------------------------------------------
  // Broadcast
  // ---------------------------------------------------------------------

  /** `broadcast`: every connection of the pipeline whose send does not raise. */
  function Broadcast(s: Session, pipelineId: string, msg: Msg, down: set<string>): (ds: set<Delivery>)
    ensures pipelineId !in s.rooms ==> ds == {}
    ensures forall d :: d in ds ==> d.msg == msg && pipelineId in s.rooms && d.to in s.rooms[pipelineId].conns
    ensures forall u :: pipelineId in s.rooms && u in s.rooms[pipelineId].conns && u !in down ==> Delivery(u, msg) in ds
    ensures forall u :: u in down ==> Delivery(u, msg) !in ds
  {
    if pipelineId !in s.rooms then {}
    else set u | u in s.rooms[pipelineId].conns.Keys && u !in down :: Delivery(u, msg)
  }

  /** `broadcast_to_others`: the same, leaving out the sender. */
  function BroadcastToOthers(s: Session, pipelineId: string, sender: string, msg: Msg, down: set<string>)
    : (ds: set<Delivery>)
    ensures pipelineId !in s.rooms ==> ds == {}
    ensures Delivery(sender, msg) !in ds
  {
    if pipelineId !in s.rooms then {}
    else set u | u in s.rooms[pipelineId].conns.Keys && u != sender && u !in down :: Delivery(u, msg)
  }

  /** The two broadcasts differ exactly in the sender's delivery. */
  lemma OthersIsBroadcastMinusSender(s: Session, pipelineId: string, sender: string, msg: Msg, down: set<string>)
    ensures BroadcastToOthers(s, pipelineId, sender, msg, down) == Broadcast(s, pipelineId, msg, down) - {Delivery(sender, msg)}
  {
  }

  /** A failing socket costs only its own delivery: every other recipient still gets the message. */
  lemma FailedSendIsolated(s: Session, pipelineId: string, msg: Msg, failing: string)
    ensures Broadcast(s, pipelineId, msg, {failing}) == Broadcast(s, pipelineId, msg, {}) - {Delivery(failing, msg)}
  {
  }

  // ---------------------------------------------------------------------
  // Connect and disconnect
  // ---------------------------------------------------------------------

  /**
   * The registration step of `connect`: the first connection of a pipeline
   * creates its state; every connection registers the socket, records the
   * user and appends the user to `collaborators`. Nothing else changes.
   */
  function Register(s: Session, pipelineId: string, userId: string, socket: Socket, now: int): (r: Session)
    ensures r.rooms.Keys == s.rooms.Keys + {pipelineId}
    ensures forall p :: p in s.rooms && p != pipelineId ==> r.rooms[p] == s.rooms[p]
    ensures pipelineId !in s.rooms ==>
              r.rooms[pipelineId] == Room(map[userId := socket], FreshState.(collaborators := [userId]))
    ensures pipelineId in s.rooms ==>
              var room := s.rooms[pipelineId];
              r.rooms[pipelineId]
              == Room(room.conns[userId := socket], room.state.(collaborators := room.state.collaborators + [userId]))
    ensures r.users == s.users[userId := UserInfo(pipelineId, now, false)]
    ensures r == s.(rooms := r.rooms, users := r.users)
  {
    var room := if pipelineId in s.rooms then s.rooms[pipelineId] else Room(map[], FreshState);
    var room' := Room(room.conns[userId := socket], room.state.(collaborators := room.state.collaborators + [userId]));
    s.(rooms := s.rooms[pipelineId := room'], users := s.users[userId := UserInfo(pipelineId, now, false)])
  }

  /** What `connect` sends once the newcomer is registered: the confirmation, then the join to the others. */
  function Announce(s: Session, pipelineId: string, userId: string, down: set<string>): (ds: set<Delivery>)
    requires pipelineId in s.rooms
  {
    var room := s.rooms[pipelineId];
    {Delivery(userId, Connected(userId, pipelineId, room.state, room.conns.Keys))}
    + BroadcastToOthers(s, pipelineId, userId, UserJoined(userId, |room.conns|), down)
  }

  datatype Joined = Joined(session: Session, userId: string, sent: set<Delivery>)

  /**
   * `connect`: a missing or empty user id is replaced by `freshId` (the
   * source's eight-character uuid prefix); the user is registered, then
   * confirmed and announced.
   */
  function Connect(s: Session, pipelineId: string, userId: Option<string>, freshId: string, socket: Socket,
                   now: int, down: set<string>): (r: Joined)
    ensures r.userId == (if userId.Some? && userId.value != "" then userId.value else freshId)
    ensures r.session == Register(s, pipelineId, r.userId, socket, now)
    ensures pipelineId in r.session.rooms && r.sent == Announce(r.session, pipelineId, r.userId, down)
  {
    var uid := if userId.Some? && userId.value != "" then userId.value else freshId;
    var s' := Register(s, pipelineId, uid, socket, now);
    Joined(s', uid, Announce(s', pipelineId, uid, down))
  }

  /**
   * The newcomer is sent the confirmation with the pipeline's state and
   * users, and every other reachable user the join with the new head count.
   */
  lemma ConnectAnnounces(s: Session, pipelineId: string, userId: Option<string>, freshId: string, socket: Socket,
                         now: int, down: set<string>)
    ensures var r := Connect(s, pipelineId, userId, freshId, socket, now, down);
            var room := r.session.rooms[pipelineId];
            && Delivery(r.userId, Connected(r.userId, pipelineId, room.state, room.conns.Keys)) in r.sent
            && (forall d :: d in r.sent && d.to != r.userId ==> d.msg == UserJoined(r.userId, |room.conns|))
            && (forall u :: u in room.conns && u != r.userId && u !in down ==>
                  Delivery(u, UserJoined(r.userId, |room.conns|)) in r.sent)
  {
  }

  lemma ConnectKeepsWf(s: Session, pipelineId: string, userId: Option<string>, freshId: string, socket: Socket,
                       now: int, down: set<string>)
    requires Wf(s)
    ensures Wf(Connect(s, pipelineId, userId, freshId, socket, now, down).session)
  {
    var r := Connect(s, pipelineId, userId, freshId, socket, now, down);
    assert r.userId in r.session.rooms[pipelineId].conns;
  }

  /** A room after `userId` leaves it: its connection goes, and its first listing among the collaborators. */
  function LeaveRoom(room: Room, userId: string): (r: Room)
    ensures r.conns == room.conns - {userId}
    ensures multiset(r.state.collaborators) == multiset(room.state.collaborators) - multiset{userId}
    ensures var xs := room.state.collaborators;
            var i := if userId in xs then IndexOf(xs, userId) else |xs|;
            r.state == room.state.(collaborators := if userId in xs then xs[..i] + xs[i + 1..] else xs)
  {
    var xs := room.state.collaborators;
    if userId !in xs then
      assert multiset(xs)[userId] == 0;
      Room(room.conns - {userId}, room.state)
    else
      Room(room.conns - {userId}, room.state.(collaborators := RemoveFirst(xs, userId).value))
  }

  /**
   * The body of `disconnect`, with the key under which it cancels a draft
   * timer as a parameter: `timerKey` is the bare user id in the source and
   * the pipeline:user key in the corrected version.
   */
  function DisconnectCancelling(s: Session, pipelineId: string, userId: string, timerKey: string): (r: Session)
  {
    if pipelineId !in s.rooms then s.(users := s.users - {userId})
    else
      var left := LeaveRoom(s.rooms[pipelineId], userId);
      var locks := if pipelineId in s.locks && s.locks[pipelineId] == userId then s.locks - {pipelineId} else s.locks;
      var drafts := s.drafts - {timerKey};
      var rooms := if |left.conns| == 0 then s.rooms - {pipelineId} else s.rooms[pipelineId := left];
      Session(rooms, s.users - {userId}, locks, s.releases, drafts, s.streams)
  }

  /** `disconnect` as written: the draft timer is looked up under the bare user id. */
  function DisconnectAsWritten(s: Session, pipelineId: string, userId: string): (r: Session)
    ensures pipelineId in s.rooms ==> r.drafts == s.drafts - {userId}
    ensures pipelineId !in s.rooms ==> r.drafts == s.drafts
  {
    DisconnectCancelling(s, pipelineId, userId, userId)
  }

  /**
   * `disconnect`, cancelling the draft timer under the key it is filed under.
   * For a known pipeline the user's connection goes, the first listing of the
   * user among the collaborators goes, the lock goes if the user held it,
   * and the room goes with its last connection. The user's info always goes.
   */
  function Disconnect(s: Session, pipelineId: string, userId: string): (r: Session)
    ensures r.users == s.users - {userId}
    ensures r.releases == s.releases && r.streams == s.streams
    ensures pipelineId !in s.rooms ==> r == s.(users := s.users - {userId})
    ensures r.rooms.Keys <= s.rooms.Keys
    ensures forall p :: p in r.rooms && p != pipelineId ==> r.rooms[p] == s.rooms[p]
    ensures pipelineId in s.rooms ==>
              && (pipelineId in r.rooms <==> s.rooms[pipelineId].conns.Keys - {userId} != {})
              && (pipelineId in r.rooms ==>
                    && r.rooms[pipelineId].conns == s.rooms[pipelineId].conns - {userId}
                    && multiset(r.rooms[pipelineId].state.collaborators)
                       == multiset(s.rooms[pipelineId].state.collaborators) - multiset{userId}
                    && var xs := s.rooms[pipelineId].state.collaborators;
                       var i := if userId in xs then IndexOf(xs, userId) else |xs|;
                       r.rooms[pipelineId].state
                       == s.rooms[pipelineId].state.(collaborators := if userId in xs then xs[..i] + xs[i + 1..] else xs))
              && (pipelineId in r.locks <==> pipelineId in s.locks && s.locks[pipelineId] != userId)
              && (forall p :: p in s.locks && p != pipelineId ==> p in r.locks && r.locks[p] == s.locks[p])
              && r.drafts == s.drafts - {TimerKey(pipelineId, userId)}
    ensures pipelineId in r.locks ==> r.locks[pipelineId] != userId || pipelineId !in s.rooms
  {
    var r := DisconnectCancelling(s, pipelineId, userId, TimerKey(pipelineId, userId));
    assert pipelineId in s.rooms ==>
             (pipelineId in r.rooms <==> s.rooms[pipelineId].conns.Keys - {userId} != {}) by {
      if pipelineId in s.rooms {
        var conns := s.rooms[pipelineId].conns - {userId};
        assert conns.Keys == s.rooms[pipelineId].conns.Keys - {userId};
        assert |conns| == 0 <==> conns.Keys == {};
      }
    }
    r
  }

  lemma DisconnectKeepsWf(s: Session, pipelineId: string, userId: string)
    requires Wf(s)
    ensures Wf(Disconnect(s, pipelineId, userId))
  {
    var r := Disconnect(s, pipelineId, userId);
    forall p | p in r.rooms ensures |r.rooms[p].conns| > 0 {
      if p == pipelineId {
        assert r.rooms[p].conns.Keys != {};
      }
    }
  }

  /**
   * The timer filed under the leaving user's pipeline:user key survives the
   * disconnect as written, and the corrected disconnect cancels it.
   */
  lemma DraftTimerSurvivesDisconnect(s: Session, pipelineId: string, userId: string)
    requires pipelineId in s.rooms && TimerKey(pipelineId, userId) in s.drafts
    ensures TimerKey(pipelineId, userId) in DisconnectAsWritten(s, pipelineId, userId).drafts
    ensures DisconnectAsWritten(s, pipelineId, userId).drafts[TimerKey(pipelineId, userId)]
            == s.drafts[TimerKey(pipelineId, userId)]
    ensures TimerKey(pipelineId, userId) !in Disconnect(s, pipelineId, userId).drafts
  {
    assert |TimerKey(pipelineId, userId)| > |userId|;
  }

  /**
   * The bare lookup can even cancel another user's timer: a user named "a:b"
   * leaving pipeline "x" cancels the draft of user "b" on pipeline "a".
   */
  lemma BareKeyCancelsForeignTimer()
    ensures var t := DraftTimer("a", "b", 5, false);
            var s := EmptySession.(rooms := map["x" := Room(map["a:b" := 0], FreshState)],
                                   drafts := map[TimerKey("a", "b") := t]);
            && Wf(s)
            && TimerKey("a", "b") !in DisconnectAsWritten(s, "x", "a:b").drafts
            && TimerKey("a", "b") in Disconnect(s, "x", "a:b").drafts
  {
    var t := DraftTimer("a", "b", 5, false);
    var s := EmptySession.(rooms := map["x" := Room(map["a:b" := 0], FreshState)],
                           drafts := map[TimerKey("a", "b") := t]);
    assert TimerKey("a", "b") == "a:b";
    assert TimerKey("x", "a:b") != "a:b" by { assert |TimerKey("x", "a:b")| == 5; }
  }

  /**
   * Collaborators are appended on every connect and removed once per
   * disconnect, so a user who connects twice stays listed after leaving.
   */
  lemma RejoinLeavesCollaborator(s: Session, pipelineId: string, user: string, a: Socket, b: Socket, now: int)
    requires pipelineId !in s.rooms && user != ""
    ensures var s1 := Connect(s, pipelineId, Some(user), "", a, now, {}).session;
            var s2 := Connect(s1, pipelineId, Some(user), "", b, now, {}).session;
            var s3 := Disconnect(s2, pipelineId, user);
            && s2.rooms[pipelineId].state.collaborators == [user, user]
            && pipelineId !in s3.rooms
  {
    var s2 := Register(Register(s, pipelineId, user, a, now), pipelineId, user, b, now);
    TwoJoins(s, pipelineId, user, a, b, now);
    assert s2.rooms[pipelineId].conns.Keys - {user} == {};
  }

  /** Two joins of one user to a new room: one connection, the user listed twice. */
  lemma TwoJoins(s: Session, pipelineId: string, user: string, a: Socket, b: Socket, now: int)
    requires pipelineId !in s.rooms
    ensures var s2 := Register(Register(s, pipelineId, user, a, now), pipelineId, user, b, now);
            && s2.rooms[pipelineId].conns == map[user := b]
            && s2.rooms[pipelineId].state.collaborators == [user, user]
  {
    var s1 := Register(s, pipelineId, user, a, now);
    assert s1.rooms[pipelineId].conns == map[user := a];
    assert s1.rooms[pipelineId].state.collaborators == [user];
  }

  // ---------------------------------------------------------------------
  // Collaborative editing
  // ---------------------------------------------------------------------

  /** The edit dictionary, by the field it names; a missing `value` is `None`. */
  datatype Edit =
    | EditUrls(urls: Option<seq<string>>)
    | EditSchema(schema: Option<Schema>)
    | EditCode(code: Option<string>)
    | EditOther(field: Option<string>)

  function FieldName(e: Edit): Option<string>
  {
    match e
    case EditUrls(_) => Some("urls")
    case EditSchema(_) => Some("schema")
    case EditCode(_) => Some("code")
    case EditOther(f) => f
  }

  /** The new state of the edited field; a missing value reads as the field's empty value. */
  function ApplyEdit(st: PipelineState, e: Edit): (r: PipelineState)
    ensures r.collaborators == st.collaborators && r.status == st.status
    ensures e.EditUrls? ==> r == st.(urls := e.urls.GetOr([]))
    ensures e.EditSchema? ==> r == st.(schema := e.schema.GetOr(map[]))
    ensures e.EditCode? ==> r == st.(code := e.code.GetOr(""))
    ensures e.EditOther? ==> r == st
  {
    match e
    case EditUrls(v) => st.(urls := v.GetOr([]))
    case EditSchema(v) => st.(schema := v.GetOr(map[]))
    case EditCode(v) => st.(code := v.GetOr(""))
    case EditOther(_) => st
  }

  /** `_schedule_auto_save`: the pipeline:user timer is replaced by a fresh one due in five seconds. */
  function ScheduleAutoSave(s: Session, pipelineId: string, userId: string, now: int): (r: Session)
    ensures r.drafts.Keys == s.drafts.Keys + {TimerKey(pipelineId, userId)}
    ensures r.drafts[TimerKey(pipelineId, userId)] == DraftTimer(pipelineId, userId, now + AutoSaveSeconds, false)
    ensures forall k :: k in s.drafts && k != TimerKey(pipelineId, userId) ==> r.drafts[k] == s.drafts[k]
    ensures r == s.(drafts := r.drafts)
  {
    s.(drafts := s.drafts[TimerKey(pipelineId, userId) := DraftTimer(pipelineId, userId, now + AutoSaveSeconds, false)])
  }

  /**
   * The outcome of `handle_collaborative_edit`: the new session, the value
   * returned (`None` where the source raises `KeyError`), and the messages sent.
   */
  datatype EditOutcome = EditOutcome(session: Session, accepted: Option<bool>, sent: set<Delivery>)

  /** The editor takes a free lock, which also schedules its release thirty seconds on. */
  function TakeLock(s: Session, pipelineId: string, userId: string, now: int): (r: Session)
    requires pipelineId !in s.locks || s.locks[pipelineId] == userId
    ensures r.locks == s.locks[pipelineId := userId]
    ensures r.releases == s.releases + (if pipelineId in s.locks then [] else [ReleaseTask(pipelineId, userId, now + LockSeconds)])
    ensures r == s.(locks := r.locks, releases := r.releases)
  {
    if pipelineId in s.locks then s
    else s.(locks := s.locks[pipelineId := userId], releases := s.releases + [ReleaseTask(pipelineId, userId, now + LockSeconds)])
  }

  /** The edit written into a known pipeline's state. */
  function EditRoom(s: Session, pipelineId: string, e: Edit): (r: Session)
    ensures pipelineId in s.rooms ==> r.rooms == s.rooms[pipelineId := s.rooms[pipelineId].(state := ApplyEdit(s.rooms[pipelineId].state, e))]
    ensures pipelineId !in s.rooms ==> r == s
    ensures r == s.(rooms := r.rooms)
  {
    if pipelineId in s.rooms
    then s.(rooms := s.rooms[pipelineId := s.rooms[pipelineId].(state := ApplyEdit(s.rooms[pipelineId].state, e))])
    else s
  }

  /** Whether another user holds the pipeline's lock. */
  predicate LockedByOther(s: Session, pipelineId: string, userId: string)
  {
    pipelineId in s.locks && s.locks[pipelineId] != userId
  }

  /**
   * `handle_collaborative_edit`. Another user's lock refuses the edit with a
   * warning to the editor (whose connection must exist); otherwise the editor
   * takes the lock if it is free, the named field is written (the state of an
   * unknown pipeline raises here), the others are told, and the editor's
   * draft auto-save is rescheduled.
   */
  function HandleEdit(s: Session, pipelineId: string, userId: string, e: Edit, now: int, down: set<string>)
    : (r: EditOutcome)
    ensures r.accepted == Some(true) <==> !LockedByOther(s, pipelineId, userId) && (pipelineId in s.rooms || e.EditOther?)
    ensures r.accepted == Some(false) <==>
              LockedByOther(s, pipelineId, userId) && pipelineId in s.rooms && userId in s.rooms[pipelineId].conns
  {
    if LockedByOther(s, pipelineId, userId) then
      if pipelineId in s.rooms && userId in s.rooms[pipelineId].conns then
        EditOutcome(s, Some(false), if userId in down then {} else {Delivery(userId, EditWarning(s.locks[pipelineId]))})
      else EditOutcome(s, None, {})
    else
      var s1 := TakeLock(s, pipelineId, userId, now);
      if !e.EditOther? && pipelineId !in s1.rooms then EditOutcome(s1, None, {})
      else
        var s2 := EditRoom(s1, pipelineId, e);
        EditOutcome(ScheduleAutoSave(s2, pipelineId, userId, now), Some(true),
                    BroadcastToOthers(s2, pipelineId, userId, PipelineUpdated(userId, FieldName(e)), down))
  }

  /** Another user's lock refuses the edit and changes nothing; at most the editor is warned. */
  lemma EditRefusedWhenLocked(s: Session, pipelineId: string, userId: string, e: Edit, now: int, down: set<string>)
    requires LockedByOther(s, pipelineId, userId)
    ensures var r := HandleEdit(s, pipelineId, userId, e, now, down);
            && r.session == s && r.accepted != Some(true)
            && r.sent <= {Delivery(userId, EditWarning(s.locks[pipelineId]))}
  {
  }

  /**
   * Otherwise the editor holds the lock afterwards, and a release is
   * scheduled only when the lock was free.
   */
  lemma EditTakesLock(s: Session, pipelineId: string, userId: string, e: Edit, now: int, down: set<string>)
    requires !LockedByOther(s, pipelineId, userId)
    ensures var r := HandleEdit(s, pipelineId, userId, e, now, down).session;
            && r.locks == s.locks[pipelineId := userId]
            && r.releases
               == s.releases + (if pipelineId in s.locks then [] else [ReleaseTask(pipelineId, userId, now + LockSeconds)])
            && r.users == s.users && r.streams == s.streams
  {
  }

  /**
   * An accepted edit writes exactly the named field of its pipeline, leaves
   * every other pipeline alone, reschedules the editor's auto-save and tells
   * the other users.
   */
  lemma EditChangesOnlyField(s: Session, pipelineId: string, userId: string, e: Edit, now: int, down: set<string>)
    requires !LockedByOther(s, pipelineId, userId) && (pipelineId in s.rooms || e.EditOther?)
    ensures var r := HandleEdit(s, pipelineId, userId, e, now, down);
            && r.session.rooms.Keys == s.rooms.Keys
            && (forall p :: p in s.rooms && p != pipelineId ==> r.session.rooms[p] == s.rooms[p])
            && (pipelineId in s.rooms ==>
                  r.session.rooms[pipelineId] == s.rooms[pipelineId].(state := ApplyEdit(s.rooms[pipelineId].state, e)))
            && r.session.drafts == ScheduleAutoSave(s, pipelineId, userId, now).drafts
            && r.sent == BroadcastToOthers(s, pipelineId, userId, PipelineUpdated(userId, FieldName(e)), down)
  {
    var s1 := TakeLock(s, pipelineId, userId, now);
    var s2 := EditRoom(s1, pipelineId, e);
    assert BroadcastToOthers(s2, pipelineId, userId, PipelineUpdated(userId, FieldName(e)), down)
           == BroadcastToOthers(s, pipelineId, userId, PipelineUpdated(userId, FieldName(e)), down);
  }

  /** A field edit of an unknown pipeline raises with the lock already taken and nothing else done. */
  lemma EditUnknownPipelineRaises(s: Session, pipelineId: string, userId: string, e: Edit, now: int, down: set<string>)
    requires !LockedByOther(s, pipelineId, userId) && pipelineId !in s.rooms && !e.EditOther?
    ensures var r := HandleEdit(s, pipelineId, userId, e, now, down);
            && r.accepted.None? && r.sent == {}
            && r.session == s.(locks := s.locks[pipelineId := userId], releases := r.session.releases)
  {
  }

  lemma EditKeepsWf(s: Session, pipelineId: string, userId: string, e: Edit, now: int, down: set<string>)
    requires Wf(s)
    ensures Wf(HandleEdit(s, pipelineId, userId, e, now, down).session)
  {
    var r := HandleEdit(s, pipelineId, userId, e, now, down).session;
    if !LockedByOther(s, pipelineId, userId) && (pipelineId in s.rooms || e.EditOther?) {
      var s2 := EditRoom(TakeLock(s, pipelineId, userId, now), pipelineId, e);
      assert r == ScheduleAutoSave(s2, pipelineId, userId, now);
      forall p | p in r.rooms ensures |r.rooms[p].conns| > 0 {
        assert r.rooms[p].conns == s.rooms[p].conns;
      }
      forall k | k in r.drafts ensures k == TimerKey(r.drafts[k].pipelineId, r.drafts[k].userId) {
        if k != TimerKey(pipelineId, userId) {
          assert r.drafts[k] == s.drafts[k];
        }
      }
    } else {
      assert r.rooms == s.rooms && r.drafts == s.drafts;
    }
  }

  /** Only the lock's holder, or anybody while it is free, gets an edit through. */
  lemma EditNeedsLock(s: Session, pipelineId: string, userId: string, e: Edit, now: int, down: set<string>)
    ensures HandleEdit(s, pipelineId, userId, e, now, down).accepted == Some(true) ==>
              pipelineId !in s.locks || s.locks[pipelineId] == userId
  {
  }

  /** Editing again while holding the lock schedules no second release. */
  lemma HolderEditsScheduleNoRelease(s: Session, pipelineId: string, userId: string, e1: Edit, e2: Edit,
                                     t1: int, t2: int, down: set<string>)
    requires pipelineId !in s.locks
    ensures var s1 := HandleEdit(s, pipelineId, userId, e1, t1, down).session;
            var s2 := HandleEdit(s1, pipelineId, userId, e2, t2, down).session;
            s2.releases == s.releases + [ReleaseTask(pipelineId, userId, t1 + LockSeconds)]
  {
  }

  // ---------------------------------------------------------------------
  // Timer events
  // ---------------------------------------------------------------------

  datatype Fired = Fired(session: Session, sent: set<Delivery>)

  /**
   * The `i`-th pending `_auto_release_lock` wakes up: the lock goes only if
   * the user it was scheduled for still holds it, and that user, if still
   * connected, is told.
   */
  function FireRelease(s: Session, i: nat, down: set<string>): (r: Fired)
    requires i < |s.releases|
    ensures |r.session.releases| + 1 == |s.releases|
    ensures var t := s.releases[i];
            && (t.pipelineId in s.locks && s.locks[t.pipelineId] == t.userId ==> r.session.locks == s.locks - {t.pipelineId})
            && (!(t.pipelineId in s.locks && s.locks[t.pipelineId] == t.userId) ==> r.session.locks == s.locks && r.sent == {})
            && (r.sent != {} ==> r.sent == {Delivery(t.userId, LockReleasedInfo)})
    ensures r.session.rooms == s.rooms && r.session.drafts == s.drafts && r.session.users == s.users
  {
    var t := s.releases[i];
    var s1 := s.(releases := s.releases[..i] + s.releases[i + 1..]);
    if t.pipelineId in s.locks && s.locks[t.pipelineId] == t.userId then
      var notify := t.pipelineId in s.rooms && t.userId in s.rooms[t.pipelineId].conns && t.userId !in down;
      Fired(s1.(locks := s.locks - {t.pipelineId}), if notify then {Delivery(t.userId, LockReleasedInfo)} else {})
    else Fired(s1, {})
  }

  /** A lock that changed hands is not released by the previous holder's timer. */
  lemma StaleReleaseKeepsNewHolder(s: Session, i: nat, down: set<string>)
    requires i < |s.releases|
    requires var t := s.releases[i]; t.pipelineId in s.locks && s.locks[t.pipelineId] != t.userId
    ensures FireRelease(s, i, down).session.locks == s.locks
  {
  }

  /** An edit that takes a free lock is undone by its own release timer, if nothing intervenes. */
  lemma EditLockExpires(s: Session, pipelineId: string, userId: string, e: Edit, now: int, down: set<string>)
    requires pipelineId !in s.locks
    ensures var s1 := HandleEdit(s, pipelineId, userId, e, now, down).session;
            && s1.releases[|s.releases|] == ReleaseTask(pipelineId, userId, now + LockSeconds)
            && pipelineId !in FireRelease(s1, |s.releases|, down).session.locks
  {
  }

  /**
   * The draft timer under `key` runs: it is marked done and its user, if
   * still connected to the pipeline, is told the draft was saved.
   */
  function FireAutoSave(s: Session, key: string, down: set<string>): (r: Fired)
    requires key in s.drafts && !s.drafts[key].done
    ensures r.session == s.(drafts := s.drafts[key := s.drafts[key].(done := true)])
    ensures var t := s.drafts[key];
            r.sent == (if t.pipelineId in s.rooms && t.userId in s.rooms[t.pipelineId].conns && t.userId !in down
                       then {Delivery(t.userId, DraftSavedInfo(t.pipelineId))} else {})
  {
    var t := s.drafts[key];
    var notify := t.pipelineId in s.rooms && t.userId in s.rooms[t.pipelineId].conns && t.userId !in down;
    Fired(s.(drafts := s.drafts[key := t.(done := true)]),
          if notify then {Delivery(t.userId, DraftSavedInfo(t.pipelineId))} else {})
  }

  /** Two edits in a row leave one live draft timer, due five seconds after the second. */
  lemma AutoSaveDebounces(s: Session, pipelineId: string, userId: string, e1: Edit, e2: Edit, t1: int, t2: int,
                          down: set<string>)
    requires pipelineId in s.rooms && pipelineId !in s.locks
    ensures var s1 := HandleEdit(s, pipelineId, userId, e1, t1, down).session;
            var s2 := HandleEdit(s1, pipelineId, userId, e2, t2, down).session;
            && s2.drafts[TimerKey(pipelineId, userId)] == DraftTimer(pipelineId, userId, t2 + AutoSaveSeconds, false)
            && s2.drafts.Keys == s.drafts.Keys + {TimerKey(pipelineId, userId)}
  {
  }

  // ---------------------------------------------------------------------
  // Streaming
  // ---------------------------------------------------------------------

  /**
   * The chunks `process_message` streams from position `i` on: the slices
   * `text[i:i + 50]`, `text[i + 50:i + 100]`, ... while the start is inside
   * the text, Python's slice clipping the last one.
   */
  function ChunksFrom(text: string, i: nat): seq<string>
    decreases |text| - i
  {
    if i >= |text| then [] else [text[i..Min(i + ChunkSize, |text|)]] + ChunksFrom(text, i + ChunkSize)
  }

  /** Joined again, the chunks from position `i` give back the text from `i`. */
  lemma {:induction false} ConcatChunksFrom(text: string, i: nat)
    requires i <= |text|
    ensures Concat(ChunksFrom(text, i)) == text[i..]
    decreases |text| - i
  {
    if i < |text| {
      var c := text[i..Min(i + ChunkSize, |text|)];
      var rest := ChunksFrom(text, i + ChunkSize);
      assert ([c] + rest)[1..] == rest;
      if i + ChunkSize <= |text| {
        ConcatChunksFrom(text, i + ChunkSize);
        assert text[i..] == c + text[i + ChunkSize..];
      }
    }
  }

  /** The chunks of the whole reply, `range(0, len(text), 50)`, join back into the reply. */
  function Chunks(text: string): (cs: seq<string>)
    ensures Concat(cs) == text
  {
    ConcatChunksFrom(text, 0);
    ChunksFrom(text, 0)
  }

  /** The frames `send_chunk` emits for a run of chunks. */
  function ChunkFrames(messageId: string, cs: seq<string>): (fs: seq<Msg>)
    ensures |fs| == |cs|
    ensures forall k :: 0 <= k < |cs| ==> fs[k] == ChunkMsg(messageId, cs[k])
  {
    seq(|cs|, k requires 0 <= k < |cs| => ChunkMsg(messageId, cs[k]))
  }

  /** One loop round of the streaming: the next chunk is sent and the rest is still to come. */
  lemma StreamStep(text: string, i: nat, messageId: string, sent: seq<string>, frames: seq<Msg>)
    requires i < |text| && sent + ChunksFrom(text, i) == Chunks(text) && frames == ChunkFrames(messageId, sent)
    ensures var c := text[i..Min(i + ChunkSize, |text|)];
            && (sent + [c]) + ChunksFrom(text, i + ChunkSize) == Chunks(text)
            && frames + [ChunkMsg(messageId, c)] == ChunkFrames(messageId, sent + [c])
  {
    var c := text[i..Min(i + ChunkSize, |text|)];
    assert ChunksFrom(text, i) == [c] + ChunksFrom(text, i + ChunkSize);
    assert (sent + [c]) + ChunksFrom(text, i + ChunkSize) == sent + ChunksFrom(text, i);
  }

  /** Chunk `k` from position `i` is the slice starting at `i + 50 * k`. */
  lemma {:induction false} ChunkFromIsSlice(text: string, i: nat, k: nat)
    requires k < |ChunksFrom(text, i)|
    ensures i + ChunkSize * k < |text|
    ensures ChunksFrom(text, i)[k] == text[i + ChunkSize * k .. Min(i + ChunkSize * k + ChunkSize, |text|)]
    decreases |text| - i
  {
    if k > 0 {
      ChunkFromIsSlice(text, i + ChunkSize, k - 1);
    }
  }

  /** Every chunk is non-empty and at most 50 long, and all but the last are exactly 50 long. */
  lemma ChunkLengths(text: string)
    ensures forall k :: 0 <= k < |Chunks(text)| ==> 0 < |Chunks(text)[k]| <= ChunkSize
    ensures forall k :: 0 <= k < |Chunks(text)| - 1 ==> |Chunks(text)[k]| == ChunkSize
  {
    forall k | 0 <= k < |Chunks(text)|
      ensures 0 < |Chunks(text)[k]| <= ChunkSize
      ensures k < |Chunks(text)| - 1 ==> |Chunks(text)[k]| == ChunkSize
    {
      ChunkFromIsSlice(text, 0, k);
      if k < |Chunks(text)| - 1 {
        ChunkFromIsSlice(text, 0, k + 1);
      }
    }
  }

  /** From position `i` there are `ceil((|text| - i) / 50)` chunks. */
  lemma {:induction false} ChunkCount(text: string, i: nat)
    requires i <= |text|
    ensures |ChunksFrom(text, i)| == (|text| - i + ChunkSize - 1) / ChunkSize
    decreases |text| - i
  {
    if i + ChunkSize <= |text| {
      ChunkCount(text, i + ChunkSize);
    }
  }

  /** `StreamingResponse`: the chunks sent so far under one message id. */
  datatype Stream = Stream(messageId: string, chunks: seq<string>)

  /** `send_chunk`: the chunk is recorded and sent as a streaming frame. */
  function SendChunk(st: Stream, chunk: string): (r: (Stream, Msg))
    ensures r.0.messageId == st.messageId && r.0.chunks == st.chunks + [chunk]
    ensures r.1 == ChunkMsg(st.messageId, chunk)
  {
    (st.(chunks := st.chunks + [chunk]), ChunkMsg(st.messageId, chunk))
  }

  /** `finish`: the complete frame carries the concatenation of every chunk sent. */
  function Finish(st: Stream): (m: Msg)
    ensures m.CompleteMsg? && m.messageId == st.messageId
  {
    CompleteMsg(st.messageId, Concat(st.chunks))
  }

  /** Finishing a stream of a reply's chunks sends the reply itself. */
  lemma FinishSendsText(messageId: string, text: string)
    ensures Finish(Stream(messageId, Chunks(text))) == CompleteMsg(messageId, text)
  {
  }

  /**
   * The streaming loop of `process_message`: one frame per chunk, then the
   * complete frame, whose content is the original text.
   */
  method StreamText(messageId: string, text: string) returns (st: Stream, frames: seq<Msg>)
    ensures st == Stream(messageId, Chunks(text))
    ensures frames == ChunkFrames(messageId, Chunks(text)) + [CompleteMsg(messageId, text)]
  {
    st := Stream(messageId, []);
    frames := [];
    var i := 0;
    while i < |text|
      invariant st.messageId == messageId
      invariant st.chunks + ChunksFrom(text, i) == Chunks(text)
      invariant frames == ChunkFrames(messageId, st.chunks)
      decreases |text| - i
    {
      StreamStep(text, i, messageId, st.chunks, frames);
      var next := SendChunk(st, text[i..Min(i + ChunkSize, |text|)]);
      st := next.0;
      frames := frames + [next.1];
      i := i + ChunkSize;
    }
    assert st.chunks + [] == st.chunks;
    frames := frames + [Finish(st)];
  }

  // ---------------------------------------------------------------------
  // Messages
  // ---------------------------------------------------------------------

  /** The `updated_context` of the agent's result, by the keys it holds. */
  datatype UpdatedContext = UpdatedContext(urls: Option<seq<string>>, schema: Option<Schema>,
                                           generatedCode: Option<string>, currentPhase: Option<string>)

  /** The agent's result: its `message` and its optional `updated_context`. */
  datatype AgentResult = AgentResult(message: Option<string>, updated: Option<UpdatedContext>)

  datatype Reply = AgentReply(result: AgentResult) | Pong | ErrorReply(message: string)

  /** The reply (`None` where the source raises `KeyError`) and the frames sent to the requesting user. */
  datatype Processed = Processed(session: Session, reply: Option<Reply>, frames: seq<Msg>)

  /** The state update of `process_message`: each key present overrides its field, `generated_code` the code and `current_phase` the status. */
  function ApplyContext(st: PipelineState, u: UpdatedContext): (r: PipelineState)
    ensures r.urls == u.urls.GetOr(st.urls) && r.schema == u.schema.GetOr(st.schema)
    ensures r.code == u.generatedCode.GetOr(st.code) && r.status == u.currentPhase.GetOr(st.status)
    ensures r.collaborators == st.collaborators
  {
    var a := if u.urls.Some? then st.(urls := u.urls.value) else st;
    var b := if u.schema.Some? then a.(schema := u.schema.value) else a;
    var c := if u.generatedCode.Some? then b.(code := u.generatedCode.value) else b;
    if u.currentPhase.Some? then c.(status := u.currentPhase.value) else c
  }

  /**
   * `process_message`. A missing type reads as "chat". A chat message needs
   * the sender's connection; the agent's `result` (a parameter) is streamed
   * in chunks under `messageId` and its updated context is written back.
   * "ping" gets "pong"; any other type is answered with an error naming it.
   */
  function ProcessMessage(s: Session, pipelineId: string, userId: string, msgType: Option<string>,
                          result: AgentResult, messageId: string): (r: Processed)
    ensures msgType.GetOr("chat") == "ping" ==> r == Processed(s, Some(Pong), [])
    ensures msgType.GetOr("chat") !in {"chat", "ping"} ==>
              r == Processed(s, Some(ErrorReply("Unknown message type: " + msgType.value)), [])
    ensures msgType.GetOr("chat") == "chat" ==>
              (r.reply.None? <==> pipelineId !in s.rooms || userId !in s.rooms[pipelineId].conns)
    ensures msgType.GetOr("chat") == "chat" && r.reply.Some? ==>
              var text := result.message.GetOr("");
              && r.reply == Some(AgentReply(result))
              && r.frames == ChunkFrames(messageId, Chunks(text)) + [CompleteMsg(messageId, text)]
              && r.session.streams == s.streams[messageId := Chunks(text)]
              && r.session.rooms.Keys == s.rooms.Keys
              && r.session.rooms[pipelineId].conns == s.rooms[pipelineId].conns
              && (result.updated.None? ==> r.session.rooms[pipelineId] == s.rooms[pipelineId])
              && (result.updated.Some? ==>
                    r.session.rooms[pipelineId].state == ApplyContext(s.rooms[pipelineId].state, result.updated.value))
    ensures r.session.locks == s.locks && r.session.drafts == s.drafts && r.session.users == s.users
    ensures Wf(s) ==> Wf(r.session)
  {
    var t := msgType.GetOr("chat");
    if t == "chat" then
      if pipelineId !in s.rooms || userId !in s.rooms[pipelineId].conns then Processed(s, None, [])
      else
        var text := result.message.GetOr("");
        var chunks := Chunks(text);
        var frames := ChunkFrames(messageId, chunks) + [Finish(Stream(messageId, chunks))];
        var room := s.rooms[pipelineId];
        var room' := if result.updated.Some? then room.(state := ApplyContext(room.state, result.updated.value)) else room;
        Processed(s.(rooms := s.rooms[pipelineId := room'], streams := s.streams[messageId := chunks]),
                  Some(AgentReply(result)), frames)
    else if t == "ping" then Processed(s, Some(Pong), [])
    else Processed(s, Some(ErrorReply("Unknown message type: " + t)), [])
  }

  /** `get_active_users`: the users connected to the pipeline, none for an unknown one. */
  function ActiveUsers(s: Session, pipelineId: string): (us: set<string>)
    ensures pipelineId !in s.rooms ==> us == {}
    ensures forall u :: u in us <==> pipelineId in s.rooms && u in s.rooms[pipelineId].conns
  {
    if pipelineId in s.rooms then s.rooms[pipelineId].conns.Keys else {}
  }

  /** A user is active right after connecting and no longer after disconnecting. */
  lemma ConnectDisconnectActive(s: Session, pipelineId: string, user: string, socket: Socket, now: int)
    requires user != ""
    ensures var s1 := Connect(s, pipelineId, Some(user), "", socket, now, {}).session;
            && user in ActiveUsers(s1, pipelineId)
            && user !in ActiveUsers(Disconnect(s1, pipelineId, user), pipelineId)
  {
  }
}
