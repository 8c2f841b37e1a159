/** The state `start` keeps in closure variables and the module global
    RESTRICTED_AREAS (scripts/impersonate.js, lines 39 and 71-203), as one
    object whose command handlers update its fields in place. `Impersonate`,
    `StopImpersonating` and `Hear` perform the Session transition of the same
    name; `StartImpersonationHere` and `StopImpersonationHere` perform
    `Session.StartHere` and `Session.StopHere`; `Retrieve` and `Store` perform
    `ModelStore.Retrieve` and `ModelStore.Store` on the fields; every method
    that changes a field keeps `Valid()`, and `Status` changes nothing. */
module Impersonation {
  import opened Types
  import opened Configuration
  import opened Markov
  import opened ModelStore
  import opened Rooms
  import Session

  class Impersonator {
    const config: Config
    /** `robot.name`. */
    const botName: string

    var impersonating: Option<UserId>
    var lastMessageText: Option<Text>
    var restrictedAreas: seq<Room>
    var cache: Cache
    /** The brain's values under this script's keys. */
    var brain: Brain

    /** The fields as a `Session.State`, so that `shouldRespond()` and the
        handlers are each defined once, in `Session`. */
    function State(): Session.State
      reads this
    {
      Session.State(impersonating, lastMessageText, restrictedAreas, cache, brain)
    }

    ghost predicate Valid()
      reads this
    {
      Session.Invariant(config, State())
    }

    /** `start(robot)`, with the brain as it was loaded. */
    constructor (config: Config, botName: string, brain: Brain)
      ensures Valid()
      ensures this.config == config && this.botName == botName
      ensures State() == Session.Initial(brain)
    {
      this.config := config;
      this.botName := botName;
      impersonating := None;
      lastMessageText := None;
      restrictedAreas := [];
      cache := map[];
      this.brain := brain;
    }

    /** `retrieve(userId)`. */
    method Retrieve(userId: UserId) returns (markov: Chain)
      requires Valid()
      modifies this`cache
      ensures Valid()
      ensures Retrieved(markov, cache) == ModelStore.Retrieve(SettingsOf(config), old(cache), brain, userId)
    {
      if userId in cache {
        return cache[userId];
      }
      var data := Unpack(brain, Key(userId));
      markov := Imported(SettingsOf(config), data);
      cache := cache[userId := markov];
    }

    /** `store(userId, markov)`. */
    method Store(userId: UserId, markov: Chain)
      requires Valid()
      modifies this`brain
      ensures Valid()
      ensures brain == ModelStore.Store(old(brain), userId, markov)
    {
      brain := brain[Key(userId) := Packed(Export(markov))];
    }

    /** "impersonate <username>", with the directory's fuzzy matches. */
    method Impersonate(username: string, users: seq<User>) returns (notice: Option<Session.SelectNotice>)
      requires Valid()
      modifies this`impersonating
      ensures Valid()
      ensures Session.Outcome(State(), notice) == Session.Impersonate(config, botName, old(State()), username, users)
    {
      notice := None;
      if ShouldRespondMode(config.mode) {
        if |users| > 0 {
          var user := users[0];
          if user.name != botName {
            impersonating := Some(user.id);
            notice := Some(Session.WillImpersonate(user.name));
          } else {
            notice := Some(Session.ImpersonatingMyself);
          }
        } else {
          notice := Some(Session.UnknownName(username));
        }
      }
    }

    /** "stop impersonating"; `recognised` is whether `userForId` found the
        target. */
    method StopImpersonating(recognised: bool) returns (notice: Session.StopNotice)
      requires Valid()
      modifies this`impersonating
      ensures Valid() && impersonating == None
      ensures Session.Outcome(State(), notice) == Session.StopImpersonating(config, old(State()), recognised)
    {
      if Session.ShouldRespond(config, State()) {
        impersonating := None;
        notice := if recognised then Session.ShuttingUp else Session.StoppedUnrecognised;
      } else {
        notice := Session.WasNotImpersonating;
      }
    }

    /** "give impersonation status"; `targetName` is the name on the record
        `userForId` returns for the target. */
    method Status(targetName: string) returns (report: Session.StatusReport)
      ensures report == Session.Status(config, State(), targetName)
    {
      if Session.ShouldRespond(config, State()) {
        if targetName != "" {
          report := Session.ImpersonatingUser(targetName, restrictedAreas);
        } else {
          report := Session.ImpersonatingNobody(restrictedAreas);
        }
      } else {
        report := Session.NotImpersonating;
      }
    }

    /** "start impersonation in here", said in `room`. */
    method StartImpersonationHere(room: Room) returns (notice: Option<Session.RoomNotice>)
      requires Valid()
      modifies this`restrictedAreas
      ensures Valid()
      ensures Session.Outcome(State(), notice) == Session.StartHere(config, old(State()), room)
    {
      notice := None;
      if ShouldRespondMode(config.mode) {
        if room in restrictedAreas {
          restrictedAreas := Without(restrictedAreas, room);
          notice := Some(Session.NowAllowed(room));
        } else {
          notice := Some(Session.AlreadyAllowed);
        }
      }
    }

    /** "stop impersonation in here", said in `room`. */
    method StopImpersonationHere(room: Room) returns (notice: Option<Session.RoomNotice>)
      requires Valid()
      modifies this`restrictedAreas
      ensures Valid()
      ensures Session.Outcome(State(), notice) == Session.StopHere(config, old(State()), room)
    {
      notice := None;
      if ShouldRespondMode(config.mode) {
        if room !in restrictedAreas {
          restrictedAreas := restrictedAreas + [room];
          notice := Some(Session.NowRestricted(restrictedAreas));
        } else {
          notice := Some(Session.AlreadyRestricted);
        }
      }
    }

    /** The `hear` handler for message `m`, with `draw` the value of
        `_.random(0, 100)`. */
    method Hear(m: Session.Message, draw: int) returns (reply: Option<Session.ReplyRequest>)
      requires Valid() && 0 <= draw <= 100
      modifies this
      ensures Valid()
      ensures Session.Heard(State(), reply) == Session.Hear(config, old(State()), m, draw)
    {
      reply := None;
      if m.room !in restrictedAreas {
        var text := m.text;
        if text != "" && !m.addressesBot {
          if ShouldTrain(config.mode) {
            var markov := Retrieve(m.sender);
            markov := Train(markov, text);
            // `markov.train` changes the cached chain itself
            cache := cache[m.sender := markov];
            Store(m.sender, markov);
          }
          if Session.ShouldRespond(config, State()) && lastMessageText != Some(text) {
            if draw > config.frequencyThreshold || m.addressesTarget {
              var markov := Retrieve(impersonating.value);
              reply := Some(Session.ReplyRequest(m.room, impersonating.value, markov, text));
            }
          }
        }
        lastMessageText := Some(text);
      }
    }
  }

  /** A client: in a fresh session, asking for a user nobody has leaves the
      session idle, and status says so. */
  method UnknownUserScenario(config: Config, brain: Brain, username: string) returns (report: Session.StatusReport)
    ensures report == Session.NotImpersonating
  {
    var s := new Impersonator(config, "hubot", brain);
    var notice := s.Impersonate(username, []);
    report := s.Status("");
  }

  /** A client: the same message heard twice in a row is answered at most
      once, whatever the two draws. */
  method RepeatedMessageScenario(s: Impersonator, m: Session.Message, d1: int, d2: int)
    returns (first: Option<Session.ReplyRequest>, second: Option<Session.ReplyRequest>)
    requires s.Valid() && 0 <= d1 <= 100 && 0 <= d2 <= 100
    modifies s
    ensures s.Valid()
    ensures first.None? || second.None?
  {
    first := s.Hear(m, d1);
    second := s.Hear(m, d2);
  }
}
