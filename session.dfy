/** The impersonation session of `start` (scripts/impersonate.js,
    lines 71-203) as pure transitions over one state value: the impersonated
    user, the last message text seen, the restricted rooms, the chain cache
    and the brain. The chat host's regular expressions, random draw and user
    directory are inputs. */
module Session {
  import opened Types
  import opened Configuration
  import opened Markov
  import opened ModelStore
  import opened Rooms

  datatype State = State(
    target: Option<UserId>,       // `impersonating`, with `false` as None
    last: Option<Text>,           // `lastMessageText`, None while undefined
    restricted: seq<Room>,        // RESTRICTED_AREAS
    cache: Cache,                 // `cache`
    brain: Brain)                 // the brain's values, as far as this script uses them

  function Initial(brain: Brain): State
  {
    State(None, None, [], map[], brain)
  }

  /** What every reachable state satisfies: a user is impersonated only in a
      mode that responds (only `impersonate` sets a target, and only in such a
      mode), and no room is listed twice. */
  ghost predicate Invariant(cfg: Config, st: State)
  {
    (st.target.Some? ==> ShouldRespondMode(cfg.mode)) && NoDuplicates(st.restricted)
  }

  lemma InitialInvariant(cfg: Config, brain: Brain)
    ensures Invariant(cfg, Initial(brain))
  {
  }

  /** `shouldRespond()`: a responding mode and someone to impersonate. In
      a state that keeps the invariant, the mode part is implied. */
  predicate ShouldRespond(cfg: Config, st: State): (b: bool)
    ensures b <==> st.target.Some? && ModeName(cfg.mode) in ["respond", "train_respond"]
    ensures Invariant(cfg, st) ==> (b <==> st.target.Some?)
  {
    ShouldRespondMode(cfg.mode) && st.target.Some?
  }

  /** The new state of a command, and what it says in the room. */
  datatype Outcome<N> = Outcome(state: State, notice: N)

  // ---------------------------------------------------------------- impersonate

  datatype SelectNotice = WillImpersonate(name: string) | ImpersonatingMyself | UnknownName(name: string)

  /** "impersonate <name>" (lines 88-110). `users` is what the user directory's
      fuzzy lookup of `username` returned. The first match becomes the target
      unless it is the bot; in a mode that does not respond nothing happens. */
  function Impersonate(cfg: Config, botName: string, st: State, username: string, users: seq<User>)
    : (r: Outcome<Option<SelectNotice>>)
    ensures r.state == st.(target := r.state.target)
    ensures r.notice.None? <==> !ShouldRespondMode(cfg.mode)
    ensures (r.notice.Some? && r.notice.value.WillImpersonate?)
            <==> ShouldRespondMode(cfg.mode) && |users| > 0 && users[0].name != botName
    ensures r.notice.Some? && r.notice.value.WillImpersonate? ==>
              r.state.target == Some(users[0].id) && r.notice.value.name == users[0].name
    ensures !(r.notice.Some? && r.notice.value.WillImpersonate?) ==> r.state == st
    ensures r.notice == Some(UnknownName(username)) <==> ShouldRespondMode(cfg.mode) && |users| == 0
    ensures r.notice == Some(ImpersonatingMyself)
            <==> ShouldRespondMode(cfg.mode) && |users| > 0 && users[0].name == botName
    ensures Invariant(cfg, st) ==> Invariant(cfg, r.state)
  {
    if !ShouldRespondMode(cfg.mode) then Outcome(st, None)
    else if |users| > 0 then
      var user := users[0];
      if user.name != botName then Outcome(st.(target := Some(user.id)), Some(WillImpersonate(user.name)))
      else Outcome(st, Some(ImpersonatingMyself))
    else Outcome(st, Some(UnknownName(username)))
  }

  /** Asking for a name nobody has leaves an idle session idle, and the
      status then reports that nobody is impersonated. */
  lemma UnknownNameLeavesIdle(cfg: Config, botName: string, st: State, username: string, targetName: string)
    requires st.target == None
    ensures var r := Impersonate(cfg, botName, st, username, []);
            r.state == st &&
            (r.notice.None? || r.notice == Some(UnknownName(username))) &&
            Status(cfg, r.state, targetName) == NotImpersonating
  {
  }

  // ---------------------------------------------------------- stop impersonating

  datatype StopNotice = ShuttingUp | StoppedUnrecognised | WasNotImpersonating

  /** "stop impersonating" (lines 112-125). `recognised` says whether the user
      directory still has a record for the target. */
  function StopImpersonating(cfg: Config, st: State, recognised: bool): (r: Outcome<StopNotice>)
    ensures r.state == st.(target := r.state.target)
    ensures Invariant(cfg, st) ==> r.state.target == None
    ensures r.notice != WasNotImpersonating ==> r.state.target == None
    ensures r.notice == WasNotImpersonating <==> !ShouldRespond(cfg, st)
    ensures r.notice == WasNotImpersonating ==> r.state == st
    ensures r.notice == StoppedUnrecognised <==> ShouldRespond(cfg, st) && !recognised
    ensures Invariant(cfg, st) ==> Invariant(cfg, r.state)
  {
    if ShouldRespond(cfg, st) then
      Outcome(st.(target := None), if recognised then ShuttingUp else StoppedUnrecognised)
    else
      Outcome(st, WasNotImpersonating)
  }

  // ---------------------------------------------------------------------- status

  datatype StatusReport =
    | ImpersonatingUser(name: string, restrictedFrom: seq<Room>)
    | ImpersonatingNobody(restrictedFrom: seq<Room>)
    | NotImpersonating

  /** "give impersonation status" (lines 166-180). `targetName` is the name on
      the record the user directory returns for the target. The restricted
      rooms are reported whenever a target is set (the reply lists them when
      there are any). */
  function Status(cfg: Config, st: State, targetName: string): (r: StatusReport)
    ensures r.NotImpersonating? <==> !ShouldRespond(cfg, st)
    ensures r.ImpersonatingUser? <==> ShouldRespond(cfg, st) && targetName != ""
    ensures r.ImpersonatingUser? ==> r.name == targetName
    ensures !r.NotImpersonating? ==> r.restrictedFrom == st.restricted
  {
    if ShouldRespond(cfg, st) then
      if targetName != "" then ImpersonatingUser(targetName, st.restricted)
      else ImpersonatingNobody(st.restricted)
    else NotImpersonating
  }

  // ------------------------------------------------------------ room restrictions

  datatype RoomNotice = NowAllowed(room: Room) | AlreadyAllowed | NowRestricted(rooms: seq<Room>) | AlreadyRestricted

  /** "start impersonation in here" (lines 182-191): the room leaves the
      restricted list if it is on it. */
  function StartHere(cfg: Config, st: State, room: Room): (r: Outcome<Option<RoomNotice>>)
    ensures r.state == st.(restricted := r.state.restricted)
    ensures !ShouldRespondMode(cfg.mode) ==> r == Outcome(st, None)
    ensures ShouldRespondMode(cfg.mode) && room in st.restricted ==>
              r.notice == Some(NowAllowed(room)) &&
              r.state.restricted == Without(st.restricted, room) &&
              forall x :: x in r.state.restricted <==> x in st.restricted && x != room
    ensures ShouldRespondMode(cfg.mode) && room !in st.restricted ==> r == Outcome(st, Some(AlreadyAllowed))
    ensures ShouldRespondMode(cfg.mode) ==> room !in r.state.restricted
    ensures Invariant(cfg, st) ==> Invariant(cfg, r.state)
  {
    if !ShouldRespondMode(cfg.mode) then Outcome(st, None)
    else if room in st.restricted then
      Outcome(st.(restricted := Without(st.restricted, room)), Some(NowAllowed(room)))
    else Outcome(st, Some(AlreadyAllowed))
  }

  /** "stop impersonation in here" (lines 193-202): the room joins the end of
      the restricted list unless it is already on it. */
  function StopHere(cfg: Config, st: State, room: Room): (r: Outcome<Option<RoomNotice>>)
    ensures r.state == st.(restricted := r.state.restricted)
    ensures !ShouldRespondMode(cfg.mode) ==> r == Outcome(st, None)
    ensures ShouldRespondMode(cfg.mode) && room !in st.restricted ==>
              r.state.restricted == st.restricted + [room] &&
              r.notice == Some(NowRestricted(r.state.restricted))
    ensures ShouldRespondMode(cfg.mode) && room in st.restricted ==> r == Outcome(st, Some(AlreadyRestricted))
    ensures ShouldRespondMode(cfg.mode) ==> room in r.state.restricted
    ensures Invariant(cfg, st) ==> Invariant(cfg, r.state)
  {
    if !ShouldRespondMode(cfg.mode) then Outcome(st, None)
    else if room !in st.restricted then
      var rooms := st.restricted + [room];
      AppendFreshKeepsInvariant(cfg, st, room);
      Outcome(st.(restricted := rooms), Some(NowRestricted(rooms)))
    else Outcome(st, Some(AlreadyRestricted))
  }

  lemma AppendFreshKeepsInvariant(cfg: Config, st: State, room: Room)
    requires room !in st.restricted
    ensures Invariant(cfg, st) ==> Invariant(cfg, st.(restricted := st.restricted + [room]))
  {
    if Invariant(cfg, st) {
      AppendFresh(st.restricted, room);
    }
  }

  /** Restricting a room that was allowed and then allowing it again gives
      back the state it started from. */
  lemma RestrictThenAllow(cfg: Config, st: State, room: Room)
    requires ShouldRespondMode(cfg.mode) && room !in st.restricted
    ensures StartHere(cfg, StopHere(cfg, st, room).state, room).state == st
  {
    WithoutAppended(st.restricted, room);
  }

  /** Allowing a restricted room and then restricting it again restores the
      same set of restricted rooms (the room moves to the end of the list). */
  lemma AllowThenRestrict(cfg: Config, st: State, room: Room)
    requires Invariant(cfg, st)
    requires ShouldRespondMode(cfg.mode) && room in st.restricted
    ensures var after := StopHere(cfg, StartHere(cfg, st, room).state, room).state;
            after == st.(restricted := after.restricted) &&
            |after.restricted| == |st.restricted| &&
            (forall x :: x in after.restricted <==> x in st.restricted) &&
            NoDuplicates(after.restricted)
  {
    WithoutLength(st.restricted, room);
  }

  // --------------------------------------------------------------------- hearing

  /** An incoming message: its room, its sender, its text, and the answers of
      the two regular expressions, `hubotMessageRegex` (addressed to the bot)
      and `impersonatedMessageRegex` (names the impersonated user). */
  datatype Message = Message(room: Room, sender: UserId, text: Text, addressesBot: bool, addressesTarget: bool)

  /** A reply to be generated by `markov.respond(seed)` on `chain` and sent to
      `room`. */
  datatype ReplyRequest = ReplyRequest(room: Room, target: UserId, chain: Chain, seed: Text)

  datatype Heard = Heard(state: State, reply: Option<ReplyRequest>)

  /** A message the script learns from and may answer: outside the restricted
      rooms, with text, and not addressed to the bot. */
  predicate Accepted(st: State, m: Message)
  {
    m.room !in st.restricted && m.text != "" && !m.addressesBot
  }

  /** The sender's chain after learning `text`, as it is cached and stored. */
  function Learnt(cfg: Config, st: State, m: Message): Chain
  {
    Train(Retrieve(SettingsOf(cfg), st.cache, st.brain, m.sender).chain, m.text)
  }

  /** Lines 135-141: retrieve the sender's chain, train it in place, store it. */
  function TrainSender(cfg: Config, st: State, m: Message): (r: State)
    ensures r.target == st.target && r.last == st.last && r.restricted == st.restricted
    ensures r.cache.Keys == st.cache.Keys + {m.sender}
    ensures r.cache[m.sender] == Learnt(cfg, st, m)
    ensures m.sender in st.cache ==> r.cache[m.sender] == Train(st.cache[m.sender], m.text)
    ensures m.sender !in st.cache ==> r.cache[m.sender] == Train(Load(SettingsOf(cfg), st.brain, m.sender), m.text)
    ensures forall u :: u in st.cache && u != m.sender ==> r.cache[u] == st.cache[u]
    ensures r.brain == Store(st.brain, m.sender, Learnt(cfg, st, m))
  {
    var r := Retrieve(SettingsOf(cfg), st.cache, st.brain, m.sender);
    var learnt := Train(r.chain, m.text);
    st.(cache := r.cache[m.sender := learnt], brain := Store(st.brain, m.sender, learnt))
  }

  /** The `hear` handler (lines 127-164) for one message and one draw of
      `_.random(0, 100)`. */
  function Hear(cfg: Config, st: State, m: Message, draw: int): (r: Heard)
    requires 0 <= draw <= 100
    // a restricted room changes nothing at all
    ensures m.room in st.restricted ==> r == Heard(st, None)
    // everywhere else the text becomes the dedup guard
    ensures m.room !in st.restricted ==> r.state.last == Some(m.text)
    // empty text and commands to the bot only move the guard
    ensures m.room !in st.restricted && (m.text == "" || m.addressesBot) ==>
              r == Heard(st.(last := Some(m.text)), None)
    ensures r.state.target == st.target && r.state.restricted == st.restricted
    // when a reply is produced
    ensures r.reply.Some? <==>
              Accepted(st, m) && ShouldRespondMode(cfg.mode) && st.target.Some? &&
              st.last != Some(m.text) && (draw > cfg.frequencyThreshold || m.addressesTarget)
    ensures r.reply.Some? ==>
              st.target.Some? && st.target.value in r.state.cache &&
              r.reply.value == ReplyRequest(m.room, st.target.value, r.state.cache[st.target.value], m.text)
    // what is learnt and stored
    ensures Accepted(st, m) && ShouldTrain(cfg.mode) ==>
              m.sender in r.state.cache && r.state.cache[m.sender] == Learnt(cfg, st, m) &&
              r.state.brain == Store(st.brain, m.sender, Learnt(cfg, st, m))
    ensures !(Accepted(st, m) && ShouldTrain(cfg.mode)) ==> r.state.brain == st.brain
    // the cache only grows, and only the sender's chain is replaced
    ensures forall u :: u in st.cache ==> u in r.state.cache
    ensures forall u :: u in st.cache && (u != m.sender || !(Accepted(st, m) && ShouldTrain(cfg.mode))) ==>
              r.state.cache[u] == st.cache[u]
    ensures r.state.cache.Keys == st.cache.Keys + (if Accepted(st, m) && ShouldTrain(cfg.mode) then {m.sender} else {}) +
                                  (if r.reply.Some? then {st.target.value} else {})
    ensures r.reply.None? && !(Accepted(st, m) && ShouldTrain(cfg.mode)) ==> r.state.cache == st.cache
    // which chain the reply comes from: the cached one, or the one loaded from the brain
    ensures r.reply.Some? && st.target.value in st.cache &&
            !(st.target.value == m.sender && ShouldTrain(cfg.mode)) ==>
              r.reply.value.chain == st.cache[st.target.value]
    ensures r.reply.Some? && st.target.value !in st.cache &&
            !(st.target.value == m.sender && ShouldTrain(cfg.mode)) ==>
              r.reply.value.chain == Load(SettingsOf(cfg), st.brain, st.target.value)
  {
    if m.room in st.restricted then Heard(st, None)
    else if m.text == "" || m.addressesBot then Heard(st.(last := Some(m.text)), None)
    else
      var st1 := if ShouldTrain(cfg.mode) then TrainSender(cfg, st, m) else st;
      if ShouldRespond(cfg, st1) && st1.last != Some(m.text) &&
         (draw > cfg.frequencyThreshold || m.addressesTarget) then
        var target := st1.target.value;
        var got := Retrieve(SettingsOf(cfg), st1.cache, st1.brain, target);
        StoreThenLoad(st.brain, m.sender, target, Learnt(cfg, st, m), SettingsOf(cfg));
        Heard(st1.(cache := got.cache, last := Some(m.text)), Some(ReplyRequest(m.room, target, got.chain, m.text)))
      else
        Heard(st1.(last := Some(m.text)), None)
  }

  /** The `hear` handler as written. Its first statement, `checkUserIntegrity(msg)`
      at line 128, reads `robot.brain`, but `robot` is not in scope in that
      function (lines 64-69): it is a parameter of `start` and of the exported
      function only. Unless the host defines a global `robot`, the handler
      throws before anything else happens. So no message is ever trained on
      or answered, and the state stays as it was. */
  function HearAsWritten(cfg: Config, st: State, m: Message, draw: int): Heard
    requires 0 <= draw <= 100
  {
    Heard(st, None)
  }

  /** One message where the two differ. In `train` mode a fresh session
      stores the sender's chain after an ordinary message, but the handler as
      written stores nothing. */
  lemma HearAsWrittenNeverTrains(cfg: Config)
    requires cfg.mode == TrainOnly
    ensures var st := Initial(map[]);
            var m := Message("general", "alice", "hello there", false, false);
            HearAsWritten(cfg, st, m, 0).state.brain == map[] &&
            Key("alice") in Hear(cfg, st, m, 0).state.brain
  {
  }

  lemma HearKeepsInvariant(cfg: Config, st: State, m: Message, draw: int)
    requires 0 <= draw <= 100 && Invariant(cfg, st)
    ensures Invariant(cfg, Hear(cfg, st, m, draw).state)
  {
  }

  /** Two messages in a row with the same text produce at most one reply,
      whatever the rooms, senders and draws. */
  lemma RepeatedTextRepliedAtMostOnce(cfg: Config, st: State, m1: Message, m2: Message, d1: int, d2: int)
    requires 0 <= d1 <= 100 && 0 <= d2 <= 100
    requires m1.text == m2.text
    ensures var first := Hear(cfg, st, m1, d1);
            first.reply.None? || Hear(cfg, first.state, m2, d2).reply.None?
  {
  }

  /** With the threshold at 100 or more the draw never suffices: only a
      message naming the impersonated user is answered, and then whatever
      the draw. */
  lemma HighThresholdNeedsAddressing(cfg: Config, st: State, m: Message, draw: int, other: int)
    requires 0 <= draw <= 100 && 0 <= other <= 100
    requires cfg.frequencyThreshold >= 100
    ensures Hear(cfg, st, m, draw).reply.Some? ==> m.addressesTarget
    ensures m.addressesTarget ==> Hear(cfg, st, m, draw).reply == Hear(cfg, st, m, other).reply
  {
  }

  /** The draw must exceed the threshold: with the threshold at 0 a draw of 0
      does not pass, and only a negative threshold lets every draw pass. */
  lemma LowThreshold(cfg: Config, st: State, m: Message, draw: int)
    requires 0 <= draw <= 100
    ensures cfg.frequencyThreshold == 0 && !m.addressesTarget ==> Hear(cfg, st, m, 0).reply.None?
    ensures cfg.frequencyThreshold < 0 ==>
              (Hear(cfg, st, m, draw).reply.Some? <==>
                 Accepted(st, m) && ShouldRespond(cfg, st) && st.last != Some(m.text))
  {
  }

  /** After "stop impersonation in here", messages in that room change
      nothing and are never answered. */
  lemma RestrictedRoomIsSilent(cfg: Config, st: State, m: Message, draw: int)
    requires 0 <= draw <= 100
    requires ShouldRespondMode(cfg.mode)
    ensures var st1 := StopHere(cfg, st, m.room).state;
            Hear(cfg, st1, m, draw) == Heard(st1, None)
  {
  }

  /** When users are made to impersonate themselves, the reply already comes
      from the chain that has just learnt the message. */
  lemma SelfReplyHasLearnt(cfg: Config, st: State, m: Message, draw: int)
    requires 0 <= draw <= 100
    requires ShouldTrain(cfg.mode) && st.target == Some(m.sender)
    ensures var r := Hear(cfg, st, m, draw);
            r.reply.Some? ==> r.reply.value.chain == Learnt(cfg, st, m) &&
                              r.reply.value.chain.learnt[|r.reply.value.chain.learnt| - 1] == m.text
  {
  }
}
