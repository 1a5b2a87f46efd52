# Fake players: a Dafny model

This project models the server-side bookkeeping of a Minecraft plugin that
spawns "fake players". Fake players are server-controlled player entities that
a player, or the console, creates and later removes. The model covers:

- **The current manager** (`FakeplayerManager`, files `fakeplayer_manager.dfy`
  and `naming.dfy`):
  - the directory of live fake players;
  - the ordered admission check;
  - name choice through the name registry, and per-user spawn options;
  - lookups, removal by name, and removal of everyone;
  - `cleanup` after a quit;
  - the command guards.
- **The first plugin version's manager** (`LegacyFakePlayerManager`,
  `legacy_manager.dfy`):
  - its per-creator name counter, with Java `int` wrap-around and truncation
    to 16 characters;
  - its five-try id generator and its own limit order;
  - its console-command line formatting.
- **The cross-server presence reconciler** (`WildFakeplayerManager`,
  `wild_manager.dfy`):
  - reading the proxy's roster reply and replacing the roster;
  - evicting the fake players of creators who are offline everywhere;
  - the roster query.
- **The per-tick task** (`FakeplayerTicker`, `ticker.dfy`): cancel, lifespan
  expiry, the first-tick position fix-up, and a normal tick.
- **The event handlers** (`FakeplayerListener`, `listener.dfy`): login refusal
  for reused ids, removal on death, and the destroy commands strictly before a
  guaranteed cleanup on quit.
- **The subcommands** (`SpawnCommand`, `SpawnCommandImpl`, `DistanceCommand`):
  - the spawn point, requested name and deadline;
  - failure reporting;
  - `kill` target selection and reporting;
  - `list` visibility;
  - block-axis distances.

Collaborators that are not part of this model are abstractions:
- The name registry is the set of held names. Its `register` gives out the
  least free ordinal.
- The used-id repository is a set.
- The user setting store is a map.
- The game is an ordered log of the calls made into it (model type `Effect`
  for the current manager; kicked ids and dispatched commands in the legacy
  manager).

These files come from different plugin versions. Each is modelled
against the manager interface it calls. The listener's `isNotFake`,
`getCreator` and `countByCreator` are not in this version of the manager.
`FakeplayerManager.IsFake`, `FakeplayerManager.GetCreator` and
`FakeplayerManager.CountByCreator` (the size of `getAll(creator)`) stand for
them.

## Model

| member | source | states |
|---|---|---|
| FakeplayerManager.CheckLimit | fakeplayer-core/src/main/java/io/github/hello09x/fakeplayer/core/manager/FakeplayerManager.java:342-358 | an operator always passes; otherwise the server limit, then the creator's count, then (with `detectIp`) the address count against the player limit, each error exactly when the earlier checks pass and its own fails |
| FakeplayerManager.AdmittedSpawnStaysWithinLimits | fakeplayer-core/src/main/java/io/github/hello09x/fakeplayer/core/manager/FakeplayerManager.java:87 | once an admitted non-operator's session is added, the server, creator and (with `detectIp`) address counts are all within their limits |
| FakeplayerManager.Admit | fakeplayer-core/src/main/java/io/github/hello09x/fakeplayer/core/manager/FakeplayerManager.java:87-94 | a limit failure comes before any naming; a blank request gets the registry's next sequential name and always succeeds once admitted; otherwise the name is accepted as given or refused with the registry's reason; an accepted name is not held |
| FakeplayerManager.AdmittedNameIsFresh | fakeplayer-core/src/main/java/io/github/hello09x/fakeplayer/core/manager/FakeplayerManager.java:89-94 | an admitted name belongs to no live session while the registry holds every live name |
| Naming.Register | fakeplayer-core/src/main/java/io/github/hello09x/fakeplayer/core/manager/FakeplayerManager.java:91 | the sequential ordinal given out is the least one (from 1) whose name is not held |
| Naming.Custom | fakeplayer-core/src/main/java/io/github/hello09x/fakeplayer/core/manager/FakeplayerManager.java:91-94 | a chosen name is accepted exactly when it is not blank, at most 16 characters and not held, and then unchanged |
| Naming.SequentialNamesCount | fakeplayer-core/src/main/java/io/github/hello09x/fakeplayer/core/manager/FakeplayerManager.java:91 | ordinals 1..k of a group give k distinct names (so `register` always finds a free one) |
| Naming.RegisterReusesReleased | fakeplayer-core/src/main/java/io/github/hello09x/fakeplayer/core/manager/FakeplayerManager.java:91 | once a sequential name is released, `register` gives out that ordinal or a smaller one |
| Naming.SequentialNameInjective | fakeplayer-core/src/main/java/io/github/hello09x/fakeplayer/core/manager/FakeplayerManager.java:91 | two ordinals of a group never share a name |
| FakeplayerManager.ResolveOptions | fakeplayer-core/src/main/java/io/github/hello09x/fakeplayer/core/manager/FakeplayerManager.java:108-130 | every option is the stored value of a player creator when one is stored, else the configured default; the spawn point is kept |
| FakeplayerManager.NonPlayerGetsDefaults | fakeplayer-core/src/main/java/io/github/hello09x/fakeplayer/core/manager/FakeplayerManager.java:114 | a creator that is not a player gets every default |
| FakeplayerManager.Manager.BeginSpawn | fakeplayer-core/src/main/java/io/github/hello09x/fakeplayer/core/manager/FakeplayerManager.java:81-94 | the result is `Admit` on the current state; a success holds the name; nothing enters the directory or the ledger |
| FakeplayerManager.Manager.CompleteSpawn | fakeplayer-core/src/main/java/io/github/hello09x/fakeplayer/core/manager/FakeplayerManager.java:96-101 | the session, with the creator's address, is appended to the directory and its id to the ledger only here; ids and names stay unique |
| FakeplayerManager.Manager.RunPreparedCommands | fakeplayer-core/src/main/java/io/github/hello09x/fakeplayer/core/manager/FakeplayerManager.java:139-142 | the preparing commands go through the console, then the self commands run as the player |
| FakeplayerManager.Get | fakeplayer-core/src/main/java/io/github/hello09x/fakeplayer/core/manager/FakeplayerManager.java:167-172 | a session is found exactly when one has the name, and it has that name |
| FakeplayerManager.GetFindsTheHolder | fakeplayer-core/src/main/java/io/github/hello09x/fakeplayer/core/manager/FakeplayerManager.java:167-172 | with unique names, the lookup returns exactly the session holding the name |
| FakeplayerManager.GetOwned | fakeplayer-core/src/main/java/io/github/hello09x/fakeplayer/core/manager/FakeplayerManager.java:153-159 | the named session is returned only when it belongs to this creator; another creator's session gives nothing |
| FakeplayerManager.FindById | fakeplayer-core/src/main/java/io/github/hello09x/fakeplayer/core/manager/FakeplayerManager.java:271-273 | a session is found exactly when one has the id, and it has that id |
| FakeplayerManager.GetCreator | fakeplayer-core/src/main/java/io/github/hello09x/fakeplayer/core/manager/FakeplayerManager.java:180-186 | a creator is given exactly for a fake player, and its name is the one `getCreatorName` gives |
| FakeplayerManager.GetCreatorName | fakeplayer-core/src/main/java/io/github/hello09x/fakeplayer/core/manager/FakeplayerManager.java:180-186 | a name is given exactly for a fake player, and it is that player's creator's name |
| FakeplayerManager.FindByIdFindsTheSession | fakeplayer-core/src/main/java/io/github/hello09x/fakeplayer/core/manager/FakeplayerManager.java:271-273 | with unique ids, the id lookup behind `isFake` returns exactly the session with that id |
| FakeplayerManager.ByCreator | fakeplayer-core/src/main/java/io/github/hello09x/fakeplayer/core/manager/FakeplayerManager.java:261-263 | exactly the sessions whose creator has this name |
| FakeplayerManager.ByAddress | fakeplayer-core/src/main/java/io/github/hello09x/fakeplayer/core/manager/FakeplayerManager.java:281-286 | exactly the sessions created from this address |
| FakeplayerManager.ByCreatorKeepsOrder | fakeplayer-core/src/main/java/io/github/hello09x/fakeplayer/core/manager/FakeplayerManager.java:261-263 | `getAll(creator)` is a subsequence of the directory: it keeps the directory's order |
| FakeplayerManager.ByAddressKeepsOrder | fakeplayer-core/src/main/java/io/github/hello09x/fakeplayer/core/manager/FakeplayerManager.java:281-286 | the sessions counted for an address keep the directory's order |
| FakeplayerManager.CountsAfterAppend | fakeplayer-core/src/main/java/io/github/hello09x/fakeplayer/core/manager/FakeplayerManager.java:133-137 | registering a session raises the creator and address counts by one exactly where it matches |
| FakeplayerManager.KickMessage | fakeplayer-core/src/main/java/io/github/hello09x/fakeplayer/core/manager/FakeplayerManager.java:206-217 | the kick text is "[fakeplayer] " followed by the reason, or by "removed" without one |
| FakeplayerManager.Manager.Remove | fakeplayer-core/src/main/java/io/github/hello09x/fakeplayer/core/manager/FakeplayerManager.java:206-217 | answers whether a session has the name; kicks that session and nobody when absent; the directory is untouched |
| FakeplayerManager.KicksOf | fakeplayer-core/src/main/java/io/github/hello09x/fakeplayer/core/manager/FakeplayerManager.java:224-230 | one kick per session, in directory order, with the same message |
| FakeplayerManager.Manager.RemoveAll | fakeplayer-core/src/main/java/io/github/hello09x/fakeplayer/core/manager/FakeplayerManager.java:224-230 | kicks every session once, in order, and returns exactly that number |
| FakeplayerManager.Without | fakeplayer-core/src/main/java/io/github/hello09x/fakeplayer/core/manager/FakeplayerManager.java:245 | exactly the sessions with another id remain |
| FakeplayerManager.WithoutLength | fakeplayer-core/src/main/java/io/github/hello09x/fakeplayer/core/manager/FakeplayerManager.java:245 | removing a live id from a directory of unique ids removes exactly one entry |
| FakeplayerManager.WithoutAbsent | fakeplayer-core/src/main/java/io/github/hello09x/fakeplayer/core/manager/FakeplayerManager.java:245-248 | removing an unknown id leaves the directory as it was |
| FakeplayerManager.WithoutKeepsUnique | fakeplayer-core/src/main/java/io/github/hello09x/fakeplayer/core/manager/FakeplayerManager.java:245 | removal keeps ids and names unique |
| FakeplayerManager.NamesWithout | fakeplayer-core/src/main/java/io/github/hello09x/fakeplayer/core/manager/FakeplayerManager.java:244-249 | after removal the live names are the old ones minus exactly the removed session's name |
| FakeplayerManager.Manager.Cleanup | fakeplayer-core/src/main/java/io/github/hello09x/fakeplayer/core/manager/FakeplayerManager.java:244-253 | an unknown id changes nothing; otherwise exactly that entry leaves, its name is released, and a once-only inventory drop is set exactly when configured; the manager invariant is kept |
| FakeplayerManager.DispatchEffects | fakeplayer-core/src/main/java/io/github/hello09x/fakeplayer/core/manager/FakeplayerManager.java:315-336 | nothing is dispatched for an empty list or a player that is not fake; otherwise one console command per line, each bound to the player's name, id and creator's name |
| FakeplayerManager.DispatchBindsCreatorName | fakeplayer-core/src/main/java/io/github/hello09x/fakeplayer/core/manager/FakeplayerManager.java:329 | whenever a command is dispatched the creator's name exists and is the `%c` binding |
| FakeplayerManager.PerformEffects | fakeplayer-core/src/main/java/io/github/hello09x/fakeplayer/core/manager/FakeplayerManager.java:294-307 | nothing is run for an empty list or a player that is not fake; otherwise each command, in order, as the player |
| FakeplayerManager.Manager.DispatchCommands | fakeplayer-core/src/main/java/io/github/hello09x/fakeplayer/core/manager/FakeplayerManager.java:315-336 | the calls made are exactly `DispatchEffects`, and nothing else changes |
| FakeplayerManager.Manager.PerformCommands | fakeplayer-core/src/main/java/io/github/hello09x/fakeplayer/core/manager/FakeplayerManager.java:294-307 | the calls made are exactly `PerformEffects`, and nothing else changes |
| LegacyFakePlayerManager.LegacyLimit | src/main/java/io/github/hello09x/fakeplayer/manager/FakePlayerManager.java:81-96 | operators bypass; the player limit comes first, then the server limit, then one fake player from the same address with `detectIp`; a limit of `Integer.MAX_VALUE` is never checked |
| LegacyFakePlayerManager.LegacyAdmissionKeepsLimits | src/main/java/io/github/hello09x/fakeplayer/manager/FakePlayerManager.java:81-108 | after an admitted spawn the creator and server counts are within their limits and the address has exactly one fake player |
| LegacyFakePlayerManager.MaxValueDisablesLimits | src/main/java/io/github/hello09x/fakeplayer/manager/FakePlayerManager.java:81-92 | a player or server limit equal to `Integer.MAX_VALUE` never refuses a spawn |
| LegacyFakePlayerManager.Increment | src/main/java/io/github/hello09x/fakeplayer/manager/FakePlayerManager.java:265 | `++` on a Java `int`: one more, wrapping from the largest value to the smallest |
| LegacyFakePlayerManager.NextCount | src/main/java/io/github/hello09x/fakeplayer/manager/FakePlayerManager.java:260-266 | a creator without a counter gets 1; otherwise its counter plus one |
| LegacyFakePlayerManager.Suffix | src/main/java/io/github/hello09x/fakeplayer/manager/FakePlayerManager.java:265 | the suffix starts with `_` and has 2 to 12 characters |
| LegacyFakePlayerManager.LegacyName | src/main/java/io/github/hello09x/fakeplayer/manager/FakePlayerManager.java:268-274 | at most 16 characters; the whole base when base and suffix fit, else the base cut to exactly fill 16; always ends with the suffix |
| LegacyFakePlayerManager.LegacyManager.GenerateName | src/main/java/io/github/hello09x/fakeplayer/manager/FakePlayerManager.java:253-276 | this creator's counter becomes `NextCount` and no other changes; the name is `LegacyName` of the template (or creator name when blank) and the new count |
| LegacyFakePlayerManager.SeededPick | src/main/java/io/github/hello09x/fakeplayer/manager/FakePlayerManager.java:241-251 | the first draw within the tries that no online player holds; none only when every draw is held |
| LegacyFakePlayerManager.LegacyManager.GenerateId | src/main/java/io/github/hello09x/fakeplayer/manager/FakePlayerManager.java:241-251 | at most five seeded draws; returns the first free one, else the fallback; the generator advances by the draws made |
| LegacyFakePlayerManager.FakePlayers | src/main/java/io/github/hello09x/fakeplayer/manager/FakePlayerManager.java:196-203 | exactly the online players carrying creator metadata |
| LegacyFakePlayerManager.FakePlayersOf | src/main/java/io/github/hello09x/fakeplayer/manager/FakePlayerManager.java:211-221 | exactly the online players having this name among their creator values (`anyMatch`) |
| LegacyFakePlayerManager.CountByAddress | src/main/java/io/github/hello09x/fakeplayer/manager/FakePlayerManager.java:233-239 | positive exactly when some online player has this address among its creator-address values (`anyMatch`) |
| LegacyFakePlayerManager.FakePlayersKeepOrder | src/main/java/io/github/hello09x/fakeplayer/manager/FakePlayerManager.java:196-203 | `getFakePlayers()` is a subsequence of the online players |
| LegacyFakePlayerManager.FakePlayersOfKeepOrder | src/main/java/io/github/hello09x/fakeplayer/manager/FakePlayerManager.java:211-221 | `getFakePlayers(creator)` is a subsequence of the online players |
| LegacyFakePlayerManager.GetCreator | src/main/java/io/github/hello09x/fakeplayer/manager/FakePlayerManager.java:170-177 | a creator exactly for a player with creator metadata, and it is the first value |
| LegacyFakePlayerManager.GetFakePlayer | src/main/java/io/github/hello09x/fakeplayer/manager/FakePlayerManager.java:127-132 | the player of that exact name, only when it is fake |
| LegacyFakePlayerManager.PlayerNamed | src/main/java/io/github/hello09x/fakeplayer/manager/FakePlayerManager.java:127-132 | the server's lookup finds a player exactly when one has that name, and it has that name |
| LegacyFakePlayerManager.GetOwnedFakePlayer | src/main/java/io/github/hello09x/fakeplayer/manager/FakePlayerManager.java:114-119 | the named fake player only when its first creator value (`getCreator`) is this sender's name |
| LegacyFakePlayerManager.LegacyManager.RemoveFakePlayersOf | src/main/java/io/github/hello09x/fakeplayer/manager/FakePlayerManager.java:140-147 | kicks that creator's fake players, forgets only that creator's counter, returns how many it kicked |
| LegacyFakePlayerManager.LegacyManager.RemoveFakePlayers | src/main/java/io/github/hello09x/fakeplayer/manager/FakePlayerManager.java:184-191 | kicks every fake player, clears every counter, returns how many it kicked |
| LegacyFakePlayerManager.LegacyManager.RemoveFakePlayer | src/main/java/io/github/hello09x/fakeplayer/manager/FakePlayerManager.java:155-162 | kicks the named fake player and answers whether there was one |
| LegacyFakePlayerManager.FormatAllNeverBlank | src/main/java/io/github/hello09x/fakeplayer/manager/FakePlayerManager.java:300-302 | no blank line is ever dispatched |
| LegacyFakePlayerManager.FormatLineNeverBlank | src/main/java/io/github/hello09x/fakeplayer/manager/FakePlayerManager.java:300-302 | a line that formats to something is not blank |
| LegacyFakePlayerManager.FormatLinePassesPlainLines | src/main/java/io/github/hello09x/fakeplayer/manager/FakePlayerManager.java:290-302 | a line with nothing to trim, no leading `/` and no placeholder is dispatched unchanged |
| LegacyFakePlayerManager.LengthGuardIsRedundant | src/main/java/io/github/hello09x/fakeplayer/manager/FakePlayerManager.java:294-298 | the length guard before substitution changes nothing, since a line of one character holds no two-character placeholder |
| LegacyFakePlayerManager.LegacyManager.DispatchLines | src/main/java/io/github/hello09x/fakeplayer/manager/FakePlayerManager.java:289-309 | the commands dispatched are exactly the formatted lines, in order |
| LegacyFakePlayerManager.LegacyManager.DispatchCommandsAsWritten | src/main/java/io/github/hello09x/fakeplayer/manager/FakePlayerManager.java:278-312 | true for an empty list or a fake player; false otherwise; dispatches the formatted preparing commands whatever it was given |
| LegacyFakePlayerManager.DispatchIgnoresItsArgument | src/main/java/io/github/hello09x/fakeplayer/manager/FakePlayerManager.java:289 | no preparing commands format to nothing, while the argument `say hi` formats to itself; with the as-written contract, asking for `say hi` with no preparing commands dispatches nothing and still answers true |
| LegacyFakePlayerManager.LegacyManager.DispatchCommands | src/main/java/io/github/hello09x/fakeplayer/manager/FakePlayerManager.java:278-312 | the same answers, dispatching the formatted lines of its argument |
| LegacyFakePlayerManager.LegacyManager.SpawnFakePlayer | src/main/java/io/github/hello09x/fakeplayer/manager/FakePlayerManager.java:77-112 | a limit failure spawns nothing and changes no counter; otherwise the player gets the id `generateId` draws (the first free of five seeded draws, else the fallback, advancing the generator by the draws made), the generated name, the creator and address metadata, and its preparing commands run |
| WildFakeplayerManager.Decode | fakeplayer-core/src/main/java/io/github/hello09x/fakeplayer/core/manager/WildFakeplayerManager.java:43-59 | a roster exactly for channel "BungeeCord", first field "PlayerList" and second "ALL", and then the third split on ", "; a missing list field is told apart from other messages |
| WildFakeplayerManager.DecodeRosterReply | fakeplayer-core/src/main/java/io/github/hello09x/fakeplayer/core/manager/WildFakeplayerManager.java:59 | a reply carrying a list of names is read back as that same list |
| WildFakeplayerManager.WildManager.OnPluginMessageReceived | fakeplayer-core/src/main/java/io/github/hello09x/fakeplayer/core/manager/WildFakeplayerManager.java:38-63 | a roster reply replaces the whole roster and runs `cleanup` as written, scheduling only the groups before the first stop; a reply without its list leaves the roster empty; anything else changes nothing |
| WildFakeplayerManager.EvictionsAreOfflineGroups | fakeplayer-core/src/main/java/io/github/hello09x/fakeplayer/core/manager/WildFakeplayerManager.java:67-87 | each scheduled removal is for an offline creator, targets exactly that creator's fake players, and is never empty |
| WildFakeplayerManager.EvictedIffOffline | fakeplayer-core/src/main/java/io/github/hello09x/fakeplayer/core/manager/WildFakeplayerManager.java:71-87 | a full pass evicts a creator's group exactly when the creator is offline |
| WildFakeplayerManager.WildManager.Cleanup | fakeplayer-core/src/main/java/io/github/hello09x/fakeplayer/core/manager/WildFakeplayerManager.java:65-89 | the pass as evidently intended: every group is visited and the removals scheduled are exactly `Evictions` |
| WildFakeplayerManager.FirstStopAt | fakeplayer-core/src/main/java/io/github/hello09x/fakeplayer/core/manager/WildFakeplayerManager.java:74-76 | where the pass as written stops: every group before the stop has fake players and an offline creator; the group at the stop is empty or its creator online |
| WildFakeplayerManager.WildManager.CleanupAsWritten | fakeplayer-core/src/main/java/io/github/hello09x/fakeplayer/core/manager/WildFakeplayerManager.java:65-89 | the pass as written schedules only the groups before the first stop |
| WildFakeplayerManager.AsWrittenEvictsAPrefix | fakeplayer-core/src/main/java/io/github/hello09x/fakeplayer/core/manager/WildFakeplayerManager.java:74-76 | the pass as written schedules a prefix of the full pass's removals, so never an online creator's |
| WildFakeplayerManager.AsWrittenMissesOfflineCreator | fakeplayer-core/src/main/java/io/github/hello09x/fakeplayer/core/manager/WildFakeplayerManager.java:75 | with Bob online, Alice offline and Bob's group first, the pass as written evicts nobody while a full pass evicts Alice's fake player |
| WildFakeplayerManager.WildManager.RunEviction | fakeplayer-core/src/main/java/io/github/hello09x/fakeplayer/core/manager/WildFakeplayerManager.java:78-87 | each target is removed with the reason "creator offline", answering which were still live |
| WildFakeplayerManager.RosterQuery | fakeplayer-core/src/main/java/io/github/hello09x/fakeplayer/core/manager/WildFakeplayerManager.java:101-121 | a query exists exactly when a player who is not fake is online; it goes through that player on "BungeeCord" with the fields "PlayerList", "ALL" |
| WildFakeplayerManager.WildManager.PreCleanup | fakeplayer-core/src/main/java/io/github/hello09x/fakeplayer/core/manager/WildFakeplayerManager.java:91-122 | nothing with follow-quitting off; off a proxy network only the local `cleanup` as written (the groups before the first stop); otherwise only the roster query |
| FakeplayerTicker.StepOf | fakeplayer-core/src/main/java/io/github/hello09x/fakeplayer/core/entity/FakeplayerTicker.java:38-79 | exactly one branch: cancel when offline; expire when the deadline is set, the tick count is a multiple of 20 and the time is strictly past it; else the first tick at count 0; else a normal tick |
| FakeplayerTicker.NoExpiryWithinLifespan | fakeplayer-core/src/main/java/io/github/hello09x/fakeplayer/core/entity/FakeplayerTicker.java:33 | with the constructor's deadline, a fake player is never expired within its lifespan, nor ever without one |
| FakeplayerTicker.RunsToCheck | fakeplayer-core/src/main/java/io/github/hello09x/fakeplayer/core/entity/FakeplayerTicker.java:43 | the least number of further ticks (under 20) until the deadline is checked |
| FakeplayerTicker.ExpiryWithinPeriod | fakeplayer-core/src/main/java/io/github/hello09x/fakeplayer/core/entity/FakeplayerTicker.java:33-43 | once the lifespan is over, the run at the next multiple of 20 ticks expires the player |
| FakeplayerTicker.FakeEntity.DoTick | fakeplayer-core/src/main/java/io/github/hello09x/fakeplayer/core/entity/FakeplayerTicker.java:70 | one tick moves and turns the entity and counts itself |
| FakeplayerTicker.FakeEntity.MoveTo | fakeplayer-core/src/main/java/io/github/hello09x/fakeplayer/core/entity/FakeplayerTicker.java:73-74 | teleport and absolute move: the entity stands at the point with no movement recorded |
| FakeplayerTicker.Ticker.constructor | fakeplayer-core/src/main/java/io/github/hello09x/fakeplayer/core/entity/FakeplayerTicker.java:28-34 | the deadline is now plus the lifespan when positive, else the sentinel -1 |
| FakeplayerTicker.Ticker.Run | fakeplayer-core/src/main/java/io/github/hello09x/fakeplayer/core/entity/FakeplayerTicker.java:37-79 | cancel only cancels; expiry removes with "lifespan ends", notifies and cancels without ticking; the first tick ticks once and then restores the spawn position, keeping the new facing; a normal tick ticks once |
| FakeplayerListener.Listener.OnLogin | fakeplayer-core/src/main/java/io/github/hello09x/fakeplayer/core/listener/FakeplayerListener.java:52-71 | a login from a generated address is never refused; otherwise a used id is refused with KICK_OTHER and every other login left untouched |
| FakeplayerListener.Listener.OnDead | fakeplayer-core/src/main/java/io/github/hello09x/fakeplayer/core/listener/FakeplayerListener.java:77-93 | nothing for a real player or with kick-on-dead off; otherwise health to its maximum (when it has one), the death cancelled, and the player removed with the death message |
| FakeplayerListener.Listener.OnQuit | fakeplayer-core/src/main/java/io/github/hello09x/fakeplayer/core/listener/FakeplayerListener.java:99-117 | nothing for a real player; otherwise the destroy commands (unless they fail) against the directory before cleanup, a refresh for a player creator at its last fake player, then cleanup in every case |
| FakeplayerListener.DispatchAfterCleanupIsSilent | fakeplayer-core/src/main/java/io/github/hello09x/fakeplayer/core/listener/FakeplayerListener.java:106-115 | run after cleanup, the destroy commands would dispatch nothing, which is why they run first |
| FakeplayerListener.RefreshTargetsTheCreator | fakeplayer-core/src/main/java/io/github/hello09x/fakeplayer/core/listener/FakeplayerListener.java:109-111 | a refresh happens only for the player who created the quitting fake player, and only at its last one |
| SpawnCommand.SpawnPoint | fakeplayer-core/src/main/java/io/github/hello09x/fakeplayer/core/command/SpawnCommand.java:56-68 | an explicit world and position facing straight ahead; else a player's own location; else the first world's spawn |
| SpawnCommand.ExplicitPointIgnoresSender | fakeplayer-core/src/main/java/io/github/hello09x/fakeplayer/core/command/SpawnCommand.java:62-67 | an explicit point does not depend on the sender or its location, and has no facing |
| SpawnCommand.RequestedName | fakeplayer-core/src/main/java/io/github/hello09x/fakeplayer/core/command/SpawnCommand.java:74 | the argument trimmed, or "" without one |
| SpawnCommand.RequestedNameIsTrimmed | fakeplayer-core/src/main/java/io/github/hello09x/fakeplayer/core/command/SpawnCommand.java:74 | the name asked for is already trimmed, and empty exactly when the argument is absent or all trimmed characters |
| SpawnCommand.RemovedAt | fakeplayer-core/src/main/java/io/github/hello09x/fakeplayer/core/command/SpawnCommand.java:70 | a deadline exactly when a lifespan is configured, lying that lifespan after now |
| SpawnCommand.Success | fakeplayer-core/src/main/java/io/github/hello09x/fakeplayer/core/command/SpawnCommand.java:84-97 | the with-lifespan message exactly when there is a deadline, naming it |
| SpawnCommand.Classify | fakeplayer-core/src/main/java/io/github/hello09x/fakeplayer/core/command/SpawnCommand.java:100-110 | a message failure, or one whose direct cause is, shows its text; anything else is the generic error |
| SpawnCommand.SuccessNamesTheDeadline | fakeplayer-core/src/main/java/io/github/hello09x/fakeplayer/core/command/SpawnCommand.java:70-97 | the success message names a deadline exactly when a lifespan is configured, and it is now plus the lifespan |
| SpawnCommand.ClassifyLooksOneLevelDeep | fakeplayer-core/src/main/java/io/github/hello09x/fakeplayer/core/command/SpawnCommand.java:103 | a message two causes down is reported as the generic error; one cause down is shown |
| SpawnCommand.Spawn | fakeplayer-core/src/main/java/io/github/hello09x/fakeplayer/core/command/SpawnCommand.java:51-114 | a refusal by the manager is reported at once with its error; otherwise the spawn starts with the admitted name, the chosen spawn point and the deadline |
| SpawnCommand.KillTargets | fakeplayer-core/src/main/java/io/github/hello09x/fakeplayer/core/command/SpawnCommand.java:119-126 | the names given; without names, the sender's fake player only when it has exactly one, else nobody |
| SpawnCommand.KilledAreTheLive | fakeplayer-core/src/main/java/io/github/hello09x/fakeplayer/core/command/SpawnCommand.java:133-138 | the reported names are exactly the targets a live fake player holds |
| SpawnCommand.Kill | fakeplayer-core/src/main/java/io/github/hello09x/fakeplayer/core/command/SpawnCommand.java:116-144 | no target: "none removed" and no kick; otherwise each target is removed with "command kill" and only the successful names are reported, joined by ", " |
| SpawnCommand.PageRequest | fakeplayer-core/src/main/java/io/github/hello09x/fakeplayer/core/command/SpawnCommand.java:147-148 | page 1 and size 10 unless given |
| SpawnCommand.Listed | fakeplayer-core/src/main/java/io/github/hello09x/fakeplayer/core/command/SpawnCommand.java:150-152 | an operator sees every fake player; anyone else exactly their own |
| SpawnCommand.ListedIsOwnOnly | fakeplayer-core/src/main/java/io/github/hello09x/fakeplayer/core/command/SpawnCommand.java:150-152 | a non-operator never sees another creator's fake player and sees as many as they created |
| SpawnCommand.ListedKeepsOrder | fakeplayer-core/src/main/java/io/github/hello09x/fakeplayer/core/command/SpawnCommand.java:150-152 | what `list` pages over keeps the directory's order |
| DistanceCommand.DistanceSymmetric | fakeplayer-core/src/main/java/io/github/hello09x/fakeplayer/core/command/SpawnCommand.java:186-189 | the reading is the same whichever of the two asks |
| SpawnCommandImpl.NormalizedName | fakeplayer-core/src/main/java/io/github/hello09x/fakeplayer/core/command/impl/SpawnCommand.java:52-55 | an empty name counts as none; any other is passed on untrimmed |
| SpawnCommandImpl.NormalizationAgainstTrim | fakeplayer-core/src/main/java/io/github/hello09x/fakeplayer/core/command/impl/SpawnCommand.java:52-55 | this command passes an absent or empty argument as no name and " bot " untrimmed, where the earlier command asks for "" in both first cases and trims " bot " to "bot" |
| SpawnCommandImpl.OnSpawned | fakeplayer-core/src/main/java/io/github/hello09x/fakeplayer/core/command/impl/SpawnCommand.java:87-106 | the with-lifespan message exactly when there is a deadline; a refresh exactly for a player with one fake player |
| SpawnCommandImpl.FirstFakePlayerRefreshes | fakeplayer-core/src/main/java/io/github/hello09x/fakeplayer/core/command/impl/SpawnCommand.java:103-106 | the refresh happens on a player's first fake player and on no later one |
| DistanceCommand.ToBlock | fakeplayer-core/src/main/java/io/github/hello09x/fakeplayer/core/command/impl/DistanceCommand.java:28-29 | the block is the one whose unit cube holds the location, in the same world |
| DistanceCommand.Distance | fakeplayer-core/src/main/java/io/github/hello09x/fakeplayer/core/command/impl/DistanceCommand.java:31-42 | "too far" exactly for different worlds; otherwise the absolute block differences per axis |
| DistanceCommand.SameBlockIsZero | fakeplayer-core/src/main/java/io/github/hello09x/fakeplayer/core/command/impl/DistanceCommand.java:28-42 | two locations in the same block read zero on every axis |
| DistanceCommand.ZeroIsSameBlock | fakeplayer-core/src/main/java/io/github/hello09x/fakeplayer/core/command/impl/DistanceCommand.java:40-42 | zero on every axis means the same block |
| DistanceCommand.AxesTriangle | fakeplayer-core/src/main/java/io/github/hello09x/fakeplayer/core/command/impl/DistanceCommand.java:40-42 | each axis reading obeys the triangle inequality within one world |
| JavaStrings.Trim | src/main/java/io/github/hello09x/fakeplayer/manager/FakePlayerManager.java:290 | `String.trim`: the longest inner slice with no code point at or below ' ' at either end |
| JavaStrings.SplitJoin | fakeplayer-core/src/main/java/io/github/hello09x/fakeplayer/core/manager/WildFakeplayerManager.java:59 | splitting names joined by ", " gives the names back, under `split`'s rule of dropping trailing empty pieces |
| JavaStrings.ReplaceAllAbsent | src/main/java/io/github/hello09x/fakeplayer/manager/FakePlayerManager.java:295-297 | replacing an absent pattern leaves the text unchanged |
| JavaStrings.Int32StringLength | src/main/java/io/github/hello09x/fakeplayer/manager/FakePlayerManager.java:265 | an `int` prints in at most 11 characters |

The later `spawn` subcommand (fakeplayer-core/src/main/java/io/github/hello09x/fakeplayer/core/command/impl/SpawnCommand.java:59-73 and 109-122) uses the same spawn point,
deadline and failure rules as the earlier one. `SpawnCommand.SpawnPoint`,
`SpawnCommand.RemovedAt` and `SpawnCommand.Classify` model both. The `distance`
subcommand of the earlier command file behaves like `DistanceCommand.Distance`.

## Left out

- Timers, threads and asynchronous chaining (the scheduled executors, `BukkitRunnable` tasks and `CompletableFuture` stages). Each callback is modelled by its sequential effect. `BeginSpawn` and `CompleteSpawn` are the two ends of `spawnAsync`. The gap between an admission and its registration, in which a second spawn is not yet counted, is not modelled.
- The spawn of the entity itself and its options reaching the game. The fake player entity, NMS internals and reflection are not part of this model. `CompleteSpawn` takes the new id and requires it to be fresh.
- A spawn that fails after admission: the model does not release the name it held. This version's code does not release it either; the registry that would do so is not part of this model.
- `formatCommands` (the core manager's placeholder formatting) is not part of this model. Dispatched commands carry the unformatted line and its `%p`, `%u` and `%c` bindings.
- The TPS watchdog, and all floating-point presentation: `toLocationString`, the euclidean distance, and the deadline's date format.
- Byte-level `readUTF`/`writeUTF`. Plugin messages are sequences of string fields.
- Messages, kick texts beyond their fixed prefix, translations and logging. Only which message or branch is chosen is modelled.
- `WildFakeplayerManager.RosterQuery`: `findAny` may pick any real player; the model picks the first in the given order.
- `WildFakeplayerManager.WildManager.Cleanup`: the iteration order of the creator groups is a hash-map order, modelled as a parameter.
- LegacyFakePlayerManager.PlayerNamed and LegacyFakePlayerManager.GetFakePlayer: `Bukkit.getPlayer(String)` (legacy manager, line 129) falls back to a case-insensitive prefix match when no name is equal. The model finds only the player with exactly that name.
- WildFakeplayerManager.IsPlayerOnline: `getPlayerExact` (lines 128-132) ignores case. The model compares names case-sensitively.
- `String.replaceAll` is modelled as literal replacement. Player names and ids contain no regular-expression or `$` characters, so nothing else can occur.
- `FakeplayerTicker.RemoveAt`: a Java `long` overflow of `now + lifespan` is not modelled.
- The same holds for `SpawnCommand.RemovedAt`.
- `DistanceCommand.Distance`: `Math.abs` overflow on `int` is not modelled. Block coordinates stay far below it.
- Event filtering by `ignoreCancelled` and priorities belongs to the host and is not modelled.
- FakeplayerListener.Listener.OnQuit: a failure of the destroy commands is modelled as happening before any command is dispatched. The model then sends no refresh either, as in the source, where the `catch` skips it.
- Entity physics: the position and facing a tick produces are parameters.
- LegacyName and Naming.Custom: Java's `length()` and `substring` count UTF-16 code units, while the model counts code points. The two differ for names with characters outside the Basic Multilingual Plane (such as emoji), which the model does not cut at the same place.
- SpawnCommandImpl.NormalizedName: the manager this later command calls is not part of this model. How that manager treats the missing name it is passed (a sequential name, as with a blank one) is assumed, not modelled.
- The legacy manager's update timer and its `spawnFakePlayer` messages.

## Findings

| source | as written | input that shows it | evidently intended | confidence | as-written member | corrected member |
|---|---|---|---|---|---|---|
| fakeplayer-core/src/main/java/io/github/hello09x/fakeplayer/core/manager/WildFakeplayerManager.java:75 | `return` ends the whole cleanup pass at the first group whose creator is online (or that is empty) | Bob online with one fake player, Alice offline with one, Bob's group visited first: Alice's fake player is not removed | `continue`: skip that group and visit the rest, so every offline creator's fake players are removed | medium, not executed | WildFakeplayerManager.WildManager.CleanupAsWritten, WildFakeplayerManager.AsWrittenMissesOfflineCreator | WildFakeplayerManager.WildManager.Cleanup, WildFakeplayerManager.EvictedIffOffline |
| src/main/java/io/github/hello09x/fakeplayer/manager/FakePlayerManager.java:289 | `dispatchCommands(player, commands)` loops over `properties.getPreparingCommands()` and ignores `commands` after the guards | commands `["say hi"]`, no preparing commands: nothing is dispatched, yet the answer is true | loop over `commands` | medium (its only caller in this version passes the preparing commands, so it is latent there), not executed | LegacyFakePlayerManager.LegacyManager.DispatchCommandsAsWritten, LegacyFakePlayerManager.DispatchIgnoresItsArgument | LegacyFakePlayerManager.LegacyManager.DispatchCommands |
