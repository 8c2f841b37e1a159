# hubot-impersonate: the impersonation session in Dafny

hubot-impersonate is a Hubot script that learns one Markov chain per chat user
from the messages that user sends. When asked, it then "impersonates" a chosen
user by answering messages with text generated from that user's chain. This
project models the script's own logic in `scripts/impersonate.js`:

- the configuration read from the environment: the mode (`train`,
  `train_respond`, `respond`), the boolean flags and the numeric options;
- the per-user chain store: the in-memory cache and the brain key
  `impersonateMarkov-<id>`;
- the command handlers: "impersonate", "stop impersonating", "give
  impersonation status", "start impersonation in here" and "stop
  impersonation in here";
- the `hear` dispatcher, which decides for each message whether to train the
  sender's chain, whether to answer it, and how to update the dedup guard
  `lastMessageText`.

Layout:

- `types.dfy`: `Option`, and the text, room, user and user-id types.
- `config.dfy` (module `Configuration`): modes, flags, numeric options, and
  `FromEnvironment`.
- `markov.dfy` (module `Markov`): the chain as an opaque value. The chain is
  the markov-respond library's object, so it is identified here with its
  constructor settings and the texts it has learnt, in order.
- `modelstore.dfy` (module `ModelStore`): brain keys, `Load`, `Retrieve` and
  `Store` as functions of the cache and the brain.
- `rooms.dfy` (module `Rooms`): `_.without` on the restricted-room list, and
  duplicate-freedom.
- `session.dfy` (module `Session`): every handler as a pure transition over one
  `State`, with the lemmas that relate several of them.
- `impersonator.dfy` (module `Impersonation`): class `Impersonator`. Its fields
  are the closure variables of `start` and the global `RESTRICTED_AREAS`. Its
  methods update those fields step by step:
  - `Impersonate`, `StopImpersonating` and `Hear` are proved to perform the
    `Session` transition of the same name;
  - `StartImpersonationHere` and `StopImpersonationHere` are proved to perform
    `Session.StartHere` and `Session.StopHere`;
  - `Retrieve` and `Store` are proved to perform `ModelStore.Retrieve` and
    `ModelStore.Store` on the cache and brain fields;
  - every method that changes a field keeps `Valid()`, the object's form of
    `Session.Invariant`;
  - `Status` changes nothing and returns `Session.Status` of the current
    fields.

The chat host supplies several things, and the model takes each of them as a
parameter:

- the answers of the two regular expressions: `Message.addressesBot` and
  `Message.addressesTarget`;
- the value of `_.random(0, 100)`: `draw`, with `0 <= draw <= 100`;
- the fuzzy user lookup: the list `users`;
- `userForId`: whether it recognised the target, and the name on its record;
- the parsed environment: `Environment`.

Some details of the code that the model keeps:

- A draw must be strictly greater than the threshold (line 147). So with the
  threshold at 0, a draw of 0 does not pass; this is `Session.LowThreshold`.
- In a restricted room, `lastMessageText` is left unchanged, because line 162
  is inside the room check at line 130.
- A message addressed to the bot is not trained on and not answered. It still
  becomes `lastMessageText` (lines 134 and 162).
- The reply is requested immediately (line 153 sets the delay to 0).

## Model

| member | source | states |
|---|---|---|
| `Configuration.ParseMode` | scripts/impersonate.js:33 | the mode is always one of `train`, `train_respond`, `respond`; it equals an accepted variable value and is `train` when the variable is unset or not accepted |
| `Configuration.ParseModeName` | scripts/impersonate.js:33 | each mode's own name selects that mode |
| `Configuration.ShouldTrain` | scripts/impersonate.js:41 | training is on exactly when the mode's name is `train` or `train_respond` |
| `Configuration.ShouldRespondMode` | scripts/impersonate.js:43 | responding is on exactly when the mode's name is `respond` or `train_respond` |
| `Configuration.ModesCover` | scripts/impersonate.js:41-43 | every mode trains or responds, and both hold exactly for `train_respond` |
| `Configuration.Flag` | scripts/impersonate.js:35-36 | a boolean option is false exactly when it is unset, empty or `false` |
| `Configuration.ResponseDelayReadsInitTimeout` | scripts/impersonate.js:37 | as written, setting the per-word delay variable has no effect on any environment, and the start-up timeout becomes the delay |
| `Configuration.ResponseDelay` | scripts/impersonate.js:15 | the corrected per-word delay is its own variable's value, or 600 when unset |
| `Configuration.ResponseDelayIgnoresInitTimeout` | scripts/impersonate.js:37 | the corrected delay does not depend on the start-up timeout |
| `Configuration.FromEnvironment` | scripts/impersonate.js:32-38 | each option falls back to its own default on its own: 1 word, mode `train`, 10000 ms, false flags, threshold 50; the per-word delay is the corrected reading of line 37 (its own variable, default 600), not the code as written |
| `Markov.ImportExport` | scripts/impersonate.js:57-58 | a fresh chain that imports another chain's export equals that chain |
| `Markov.ImportEmpty` | scripts/impersonate.js:55-58 | importing `{}` gives a chain that has learnt nothing |
| `Markov.TrainOnlyAdds` | scripts/impersonate.js:139 | training keeps the settings and only appends to what the chain has learnt |
| `ModelStore.Key` | scripts/impersonate.js:46 | a user's key is `impersonateMarkov-` followed by exactly the user's id |
| `ModelStore.Unpack` | scripts/impersonate.js:54-55 | the decoded value stored under a key when it is an object, and the empty object `{}` when the key is absent or holds anything else |
| `ModelStore.KeyInjective` | scripts/impersonate.js:46 | distinct users have distinct brain keys |
| `ModelStore.Load` | scripts/impersonate.js:54-58 | a chain built from the brain has the configured settings; it holds the stored export when the key decodes, and is empty when the key is absent or holds anything else |
| `ModelStore.Retrieve` | scripts/impersonate.js:49-62 | returns the cached chain when there is one and the loaded chain otherwise; afterwards the user's chain is cached and no other cache entry has changed |
| `ModelStore.RetrieveIsCached` | scripts/impersonate.js:50-52 | retrieving a second time returns the same chain, keeps the cache, and does not depend on the brain |
| `ModelStore.Store` | scripts/impersonate.js:45-47 | the user's key holds the chain's export, and no other key changes |
| `ModelStore.StoreThenLoad` | scripts/impersonate.js:45-58 | a stored chain is what is loaded for that user, and what is loaded for anyone else does not change |
| `Rooms.Without` | scripts/impersonate.js:185 | removes every occurrence of the room and keeps every other room; the list is unchanged when the room is absent; duplicate-freedom is kept |
| `Rooms.WithoutConcat` | scripts/impersonate.js:185 | removing a room works piece by piece over a concatenation, so the remaining rooms keep their order |
| `Rooms.WithoutSingle` | scripts/impersonate.js:185 | a one-room list loses its room exactly when it is the one removed |
| `Rooms.WithoutMiddle` | scripts/impersonate.js:185 | when the outer rooms `a` and `c` both differ from the middle room `b` (`a != b && c != b`), removing `b` from `[a, b, c]` gives `[a, c]` |
| `Rooms.WithoutAppended` | scripts/impersonate.js:185-196 | removing a room just appended to a list without it gives back the list |
| `Rooms.WithoutLength` | scripts/impersonate.js:185 | in a duplicate-free list, removing a room that is present shortens the list by one |
| `Rooms.AppendFresh` | scripts/impersonate.js:195-196 | appending an absent room keeps the list duplicate-free |
| `Session.InitialInvariant` | scripts/impersonate.js:39-80 | the initial state has no target, no restricted rooms and an empty cache, and satisfies the invariant |
| `Session.ShouldRespond` | scripts/impersonate.js:76-78 | responding needs a target and a mode named `respond` or `train_respond`; in any state that keeps the invariant, it holds exactly when a target is set |
| `Session.TrainSender` | scripts/impersonate.js:135-141 | the sender's chain (the cached one, or the one loaded from the brain) learns the text and is cached and stored under the sender's key; the cache gains only the sender, no other entry changes, and the target, guard and rooms stay |
| `Session.Impersonate` | scripts/impersonate.js:88-110 | the first match becomes the target exactly when the mode responds, the match list is non-empty and the match is not the bot; otherwise nothing changes; the notice tells the three failing cases apart and is absent in a mode that does not respond |
| `Session.UnknownNameLeavesIdle` | scripts/impersonate.js:88-110 | an empty match list leaves an idle session idle, and status then reports that nobody is impersonated |
| `Session.StopImpersonating` | scripts/impersonate.js:112-125 | in every reachable state there is no target afterwards; only the target changes; the "wasn't impersonating" notice is given exactly when `shouldRespond()` is false |
| `Session.Status` | scripts/impersonate.js:166-180 | gives `NotImpersonating` exactly when `shouldRespond()` is false; otherwise it reports the target's name when that name is non-empty and an impersonation of nobody when it is empty, each with the restricted rooms |
| `Session.StartHere` | scripts/impersonate.js:182-191 | in a responding mode, a restricted room is removed (the list becomes `Rooms.Without` of it, so every other room stays and keeps its order) with the "now allowed" notice; an allowed room leaves the state unchanged with a distinct notice; in any other mode nothing happens |
| `Session.StopHere` | scripts/impersonate.js:193-202 | in a responding mode, an allowed room is appended with the "now restricted" notice; a restricted room leaves the state unchanged with a distinct notice; in any other mode nothing happens |
| `Session.AppendFreshKeepsInvariant` | scripts/impersonate.js:195-196 | restricting a new room keeps the invariant |
| `Session.RestrictThenAllow` | scripts/impersonate.js:182-202 | restricting an allowed room and then allowing it restores the whole state |
| `Session.AllowThenRestrict` | scripts/impersonate.js:182-202 | allowing a restricted room and then restricting it restores the same duplicate-free set of rooms and nothing else changes |
| `Session.Hear` | scripts/impersonate.js:127-164 | a restricted room changes nothing; elsewhere the text becomes the dedup guard; empty text and messages to the bot do nothing else; a reply is produced exactly when the mode responds, a target is set, the text differs from the guard and the draw exceeds the threshold or the text names the target; an accepted message in a training mode caches and stores the sender's trained chain; the reply comes from the target's cached chain, or from the chain loaded from the brain when the target was not cached, except that a target who is the sender in a training mode is answered from the chain that has just learnt the message; no other cache entry changes, and the cache's keys are the old keys plus the sender's exactly when it was trained on, plus the target's exactly when a reply is produced; the brain is otherwise untouched and the target and rooms never change |
| `Session.HearAsWrittenNeverTrains` | scripts/impersonate.js:64-69 | as written, the handler stores nothing for a message that the intended handler trains on and stores |
| `Session.HearKeepsInvariant` | scripts/impersonate.js:127-164 | handling a message keeps the invariant |
| `Session.RepeatedTextRepliedAtMostOnce` | scripts/impersonate.js:146-162 | two consecutive messages with the same text produce at most one reply |
| `Session.HighThresholdNeedsAddressing` | scripts/impersonate.js:147 | with the threshold at 100 or more, only a message naming the target is answered, whatever the draw |
| `Session.LowThreshold` | scripts/impersonate.js:147 | at threshold 0 a draw of 0 does not pass; below 0 every draw passes |
| `Session.RestrictedRoomIsSilent` | scripts/impersonate.js:130-202 | once a room is restricted, its messages change nothing and get no reply |
| `Session.SelfReplyHasLearnt` | scripts/impersonate.js:135-149 | in a training mode, when the target is the sender, any reply comes from the chain that has already learnt the message, whose last learnt text is that message |
| `Impersonation.Impersonator.constructor` | scripts/impersonate.js:71-84 | a new session is the initial state over the given brain, and satisfies the invariant |
| `Impersonation.Impersonator.Retrieve` | scripts/impersonate.js:49-62 | performs `ModelStore.Retrieve` on the cache field, leaving the brain alone |
| `Impersonation.Impersonator.Store` | scripts/impersonate.js:45-47 | performs `ModelStore.Store` on the brain field |
| `Impersonation.Impersonator.Impersonate` | scripts/impersonate.js:88-110 | performs `Session.Impersonate` in place and keeps the invariant |
| `Impersonation.Impersonator.StopImpersonating` | scripts/impersonate.js:112-125 | performs `Session.StopImpersonating` in place; afterwards there is no target |
| `Impersonation.Impersonator.Status` | scripts/impersonate.js:166-180 | reports `Session.Status` of the current fields, changing nothing |
| `Impersonation.Impersonator.StartImpersonationHere` | scripts/impersonate.js:182-191 | performs `Session.StartHere` in place and keeps the invariant |
| `Impersonation.Impersonator.StopImpersonationHere` | scripts/impersonate.js:193-202 | performs `Session.StopHere` in place and keeps the invariant |
| `Impersonation.Impersonator.Hear` | scripts/impersonate.js:127-164 | performs `Session.Hear` in place, including both cache look-ups and the store, and keeps the invariant |
| `Impersonation.UnknownUserScenario` | scripts/impersonate.js:88-180 | in a fresh session, an unknown name followed by a status query reports that nobody is impersonated |
| `Impersonation.RepeatedMessageScenario` | scripts/impersonate.js:146-162 | hearing the same message twice in a row on the object yields at most one reply |

## Findings

| source | as written | input that shows it | evidently intended | confidence | as-written member | corrected member |
|---|---|---|---|---|---|---|
| scripts/impersonate.js:37 | RESPONSE_DELAY_PER_WORD reads HUBOT_IMPERSONATE_INIT_TIMEOUT | HUBOT_IMPERSONATE_RESPONSE_DELAY_PER_WORD=200 with the timeout unset gives 600; HUBOT_IMPERSONATE_INIT_TIMEOUT=10000 gives a delay of 10000 | read HUBOT_IMPERSONATE_RESPONSE_DELAY_PER_WORD, default 600, as the header (line 15) documents | high; not executed | `Configuration.ResponseDelayAsWritten`, exhibited by `Configuration.ResponseDelayReadsInitTimeout` | `Configuration.ResponseDelay`, with `Configuration.ResponseDelayIgnoresInitTimeout`; used by `Configuration.FromEnvironment` |
| scripts/impersonate.js:64-69 | `checkUserIntegrity`, called first at line 128, reads `robot.brain`, but `robot` is not in that function's scope; unless the host defines a global `robot`, every message makes the handler throw before training or answering | any message in `train` mode: nothing is stored for the sender | the name reconciliation uses the `robot` passed to `start`, and the handler goes on to train and answer | plausible (depends on the host not defining a global `robot`); not executed | `Session.HearAsWritten`, exhibited by `Session.HearAsWrittenNeverTrains` | `Session.Hear` (performed by `Impersonation.Impersonator.Hear`) |

The delay is computed at line 37 but never used, because lines 151-152 are commented out. The finding therefore has no effect on replies today.

## Left out

- The Markov chain's algorithm: tokenising, the minimum-word filter, counting, `respond`, and the format of `export`/`import` (lines 28, 57-58, 139, 149). These belong to the markov-respond library, which is not part of this model. A chain is abstracted as its settings plus the texts it has learnt. A reply is the request `ReplyRequest(room, target, chain, seed)`, not generated text.
- The msgpack byte format and the `Buffer` handling (lines 46, 54). A brain value is either a packed export or anything else (`Blob.Foreign`), and anything else loads as `{}`.
- In-place mutation of the cached chain object (line 139). Chains are values here, so `Impersonator.Hear` writes the trained chain back into the cache. This is observably the same, because the cache holds the only reference to the chain.
- The regular expressions `hubotMessageRegex` and `impersonatedMessageRegex` (lines 86, 99), and the trimming of the requested name (line 90). Their results are inputs. The model does not capture that `impersonatedMessageRegex` is built from the name at selection time.
- `_.random` (line 147) becomes the input `draw`.
- Host I/O: `setTimeout` delivery (lines 151-157), `msg.send`, `console.log`, `robot.brain.setAutoSave` (line 84), and the brain beyond the values stored under this script's keys.
- User look-ups: `usersForFuzzyName` and `userForId` (lines 93, 114, 168) become inputs. For status, the model assumes `userForId` always returns a record. If it returned none, reading `user.name` at line 172 would fail; that case is not modelled.
- `checkUserIntegrity` (lines 64-69, called at line 128): it reconciles a user's display name in the brain and does not affect the modelled state. The modelled handler assumes the call returns normally; see "## Findings" for the code as written.
- Start-up (lines 205-217): waiting for the brain to load, `_.once` and the `INIT_TIMEOUT` timer are event and timer plumbing.
- `parseInt` (lines 32, 34, 37, 38): a set numeric variable is taken as the integer it parses to. NaN from unparsable input is not modelled.
- The wording of the replies (lines 102-123, 170-199). Notices and status reports are datatypes.
- Configuration.FromEnvironment: builds the per-word delay with the corrected `Configuration.ResponseDelay`. It does not use line 37 as written, which reads HUBOT_IMPERSONATE_INIT_TIMEOUT; that reading is `Configuration.ResponseDelayAsWritten` (see "## Findings").
- The chain's persistence is assumed lossless. The lemmas `Markov.ImportExport`, `Markov.ImportEmpty`, `Markov.TrainOnlyAdds` and `ModelStore.StoreThenLoad` hold because of how the stand-in `Chain` is defined. They assume that markov-respond's `export`/`import`, and msgpack's `pack`/`unpack`, round-trip without loss and that training only adds. They are not facts proved about those libraries.
- User ids are assumed not to name a property of JavaScript's `Object.prototype` (`constructor`, `toString`, `__proto__`, ...). The cache is a plain object `{}` (line 80), and line 50 tests `cache[userId]` for truthiness. For such an id the source would find an inherited value, return it, and fail at `markov.train` (line 139). The model's `map` has no inherited entries, so it handles such a sender like any other.
- User ids are non-empty strings. This is because the source tests the stored id for truthiness, and an empty or zero id would read as "no target".
