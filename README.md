# AwardPoints reward notifier, modelled in Dafny

AwardPoints is an Oxide plugin for Rust. It gives players points through the
ServerRewards plugin when they:

- break a loot or oil barrel,
- destroy a Bradley APC,
- bring down a patrol helicopter,
- or are online during a periodic pass.

It then tells the player in chat. The exception is a player who has used the
`ap` command to turn notifications off: the kill still earns points, but no
message is sent.

This project models the plugin as a small event-driven state machine: the
class `Notifier.RewardNotifier`. Its fields are:

- the configuration (`config`, never changed after loading);
- the opt-out list (`optOut`, the plugin's `_stored.Players`);
- the last helicopter attacker (`heliLastAttacker`);
- whether the repeating pass timer is scheduled (`timerScheduled`);
- an append-only output `log`.

Every call into the host becomes one entry in `log`: either a ledger call
`Ledger(id, points)` (the `AddPoints` call on ServerRewards) or a chat message
`Chat(id, message)`. A message is kept as its catalog key and argument:
`AwardPoints(points)` or `TogglePoints(Enabled | Disabled)`.

Each method names in `modifies` the only fields it may touch, often
only `log`. That frame is the "nothing else changes" part of each contract.
The award, death and pass handlers tie the new log to a pure function in
module `Rewards` (`AwardEffects`, `DeathEffects`, `PassEffects`). The toggle
command ties the new list to `OptOut.Toggled`. The properties the
plugin promises are proved about those functions as lemmas.

Modules:

- `Wrappers`: `Option`, standing for a C# reference that may be null.
- `Text`: ordinal `StartsWith` and `Contains`, written character by character.
  Each is proved equal to a reference definition by slicing (`IsPrefix`,
  `IsSubstring`).
- `Prefabs`: the kill categories and `Classify`, the first-match-wins rule
  chain on the short prefab name.
- `OptOut`: the opt-out list. `RemoveFirst` is `List<string>.Remove`;
  `Toggled` is the `ap` command's update. The toggle lemmas live here.
- `Rewards`: the 32-bit `int32`, `Config`, `DefaultConfig`, the effect types
  and the effect functions with their lemmas.
- `Notifier`: the class, plus a client scenario (`HeliKillScenario`).

Host inputs become method parameters:

- the list of active players;
- whether the damaged helicopter has a `PatrolHelicopterAI` component;
- the short prefab name of the dying entity;
- the hit's initiating player.

A player is identified by its `UserIDString`. A null `BasePlayer`, or a null
`HitInfo`, is `None`. A null `ShortPrefabName` is represented by the empty
string, which the source treats the same through `string.IsNullOrEmpty`.

About the opt-out list:

- The `ap` command does not save the list: `SaveData` (AwardPoints.cs:65) is
  defined but never called. The model has no saved copy.
- The list is a `List<string>`, so an id can occur twice. The toggle flips
  the id's membership exactly when the id occurs at most once
  (`OptOut.ToggleFlipsIff`; `OptOut.ToggleWithDuplicate` is an example).
  Every other id keeps its membership in any case (`OptOut.Toggled`).
- When the id occurs at most once, toggling twice restores the contents, but
  not the order (`OptOut.ToggleTwice`, `OptOut.ToggleTwiceReorders`). With
  the id listed twice, two toggles remove both entries
  (`OptOut.ToggleTwiceWithDuplicate`).

Behaviour the model keeps as the code has it:

- The startup pass runs whatever `PlayerEnabled` says.
- The periodic pass never reads the opt-out list.
- A helicopter death never clears `_heliLastAttacker`. A second helicopter
  death with no player hit in between credits the same player again: see
  `Notifier.HeliKillScenario`.

## Model

| member | source | states |
|---|---|---|
| Text.StartsWith | AwardPoints.cs:118 | The ordinal character-by-character prefix test holds exactly when the prefix equals the string's first characters, as many as the prefix has. |
| Text.Contains | AwardPoints.cs:124 | The ordinal substring test holds exactly when the value occurs at some index of the string. |
| Prefabs.Classify | AwardPoints.cs:111-133 | An empty name is not classified. A name is a barrel iff it starts with `loot-barrel` or `loot_barrel` or equals `oil_barrel`. It is an APC iff it is not a barrel, contains `bradleyapc` and does not contain `gibs`. It is a helicopter iff it is neither of those, contains `patrolhelicopter` and does not contain `gibs`. Otherwise it is nothing. A name containing `gibs` is never a vehicle. |
| Prefabs.BarrelExamples | AwardPoints.cs:118 | `loot_barrel_1`, `loot-barrel-2` and `oil_barrel` are barrels. |
| Prefabs.VehicleExamples | AwardPoints.cs:124-130 | `bradleyapc` is an APC and `patrolhelicopter` a helicopter. `servergibs_bradley`, which mentions neither, is nothing. |
| Prefabs.WreckExamples | AwardPoints.cs:124-130 | `bradleyapc_gibs` and `patrolhelicopter_gibs` are nothing: mentioning `gibs` blocks a vehicle match. |
| OptOut.RemoveFirst | AwardPoints.cs:208 | `List.Remove` leaves the list unchanged when the id is absent. When the id is present, it removes one occurrence of it from the multiset of entries. |
| OptOut.RemoveFirstAt | AwardPoints.cs:208 | When the first occurrence of the id is at index i, `List.Remove` removes exactly that entry and keeps the order of the rest. |
| OptOut.Toggled | AwardPoints.cs:208-211 | `if (!Remove(id)) Add(id)` removes one entry of the id when it was listed and adds one when it was not. For any list, even one with duplicates, every other id keeps its membership. |
| OptOut.ToggleFlips | AwardPoints.cs:208-211 | On a duplicate-free list, the toggle flips the id's membership. It leaves every other id's membership unchanged and keeps the list duplicate-free. |
| OptOut.ToggleFlipsIff | AwardPoints.cs:208-211 | For any list, the toggle flips the id's membership if and only if the id occurs at most once. |
| OptOut.ToggleTwice | AwardPoints.cs:208-211 | When the id occurs at most once, toggling it twice restores the list's multiset of entries, and so every id's membership. |
| OptOut.ToggleTwiceWithDuplicate | AwardPoints.cs:208-211 | With the id listed twice, two toggles do not restore the list: `[a, a]` becomes `[]`. |
| OptOut.ToggleTwiceReorders | AwardPoints.cs:208-211 | Toggling twice need not restore the order: `[a, b]` becomes `[b, a]`. |
| OptOut.ToggleWithDuplicate | AwardPoints.cs:208-211 | On a list holding the id twice, the toggle leaves the id in the list. |
| Rewards.DefaultConfig | AwardPoints.cs:25-41 | The default configuration enables every category and the periodic timer. It gives 1 point per barrel, 10 per APC and 10 per helicopter, and 2 per periodic pass. |
| Rewards.AwardEffects | AwardPoints.cs:150-199 | A null player or a disabled category produces nothing. Otherwise the first effect is one ledger call `(id, points)`. It is followed by exactly one award message to that player when the id is not in the opt-out list, and by nothing when it is. |
| Rewards.Credited | AwardPoints.cs:120-132 | A helicopter death credits the last recorded attacker (line 132). Barrel and APC deaths credit the death's instigator (lines 120, 126). |
| Rewards.DeathEffects | AwardPoints.cs:109-134 | A name no rule matches produces nothing. Otherwise a death produces at most two effects. Any first effect is the death's only ledger call: it credits the classified category's player, who is non-null, with that category's points, and the category is enabled. Anything after it is a chat message. |
| Rewards.DeathWithoutMatch | AwardPoints.cs:109-134 | An empty prefab name, or one that matches no rule, produces no effect. |
| Rewards.DeathCreditsInstigator | AwardPoints.cs:118-127 | A barrel or APC death awards the death's instigator with that category's flag and points. The result does not depend on the last helicopter attacker. |
| Rewards.DeathCreditsHeliAttacker | AwardPoints.cs:130-133 | A helicopter death awards the last recorded attacker with the helicopter flag and points. The result does not depend on the death's own instigator. |
| Rewards.PassEffects | AwardPoints.cs:140-148 | A periodic pass produces exactly two effects per active player. |
| Rewards.PassEffectsAt | AwardPoints.cs:142-147 | Active player k gets the ledger call `(id, PlayerPoints)` at position 2k and the award message at position 2k+1, in list order. |
| Rewards.BarrelKillScenario | AwardPoints.cs:118-121 | With the default configuration, a `loot_barrel_a` kill by P credits P with 1 point. It messages P when P has not opted out, and does not message P when P has. |
| Rewards.HeliKillEffects | AwardPoints.cs:130-133 | With the default configuration, a `patrolhelicopter` death with no instigator, after a hit by A, credits A with 10 points and messages A. |
| Notifier.RewardNotifier.constructor | AwardPoints.cs:96-100 | The plugin starts with the loaded configuration and opt-out list, no helicopter attacker, no timer and an empty log. |
| Notifier.RewardNotifier.AddPoints | AwardPoints.cs:222 | A ledger call appends exactly one `Ledger(id, points)` entry and changes nothing else. |
| Notifier.RewardNotifier.ChatMessage | AwardPoints.cs:146 | A chat message to a player appends exactly one `Chat(id, message)` entry and changes nothing else. The same call is made at lines 164, 181, 198 and 213. |
| Notifier.RewardNotifier.OnServerInitialized | AwardPoints.cs:84-94 | Startup always appends one periodic pass. The timer is scheduled afterwards iff `PlayerEnabled` (or it already was). |
| Notifier.RewardNotifier.TimerTick | AwardPoints.cs:93 | A tick of the repeating timer can happen only once the timer is scheduled. It appends one periodic pass. |
| Notifier.RewardNotifier.AwardPlayers | AwardPoints.cs:140-148 | The loop appends the pass effects of the active players in order, two per player. It reads neither the opt-out list nor `PlayerEnabled`, and leaves all other state unchanged. |
| Notifier.RewardNotifier.OnEntityTakeDamage | AwardPoints.cs:102-107 | When the helicopter has a patrol AI and the hit has an initiating player, the last attacker becomes exactly that player. Otherwise it is unchanged. Nothing else changes. |
| Notifier.RewardNotifier.OnEntityDeath | AwardPoints.cs:109-134 | The handler appends the death effects of the classified category, and nothing when the name matches no rule. It changes only the log, so the last helicopter attacker and the opt-out list are left as they were. |
| Notifier.RewardNotifier.Award | AwardPoints.cs:150-199 | One parameterised award appends `AwardEffects` for the category's enabled flag. It never modifies the opt-out list. |
| Notifier.RewardNotifier.AwardPointsCommand | AwardPoints.cs:205-214 | The opt-out list becomes the toggled list. The reply says Disabled iff the id is in the list afterwards. Other ids keep their membership. On a duplicate-free list, the id's membership flips and the list stays duplicate-free. |

## Left out

- Oxide host APIs are not modelled: `RustPlugin`, hook registration, `timer.Every`, `BasePlayer.activePlayerList` and `GetComponent<PatrolHelicopterAI>`. Active players and "has a patrol AI" are method parameters. Scheduling the timer is the flag `timerScheduled`. Each timer tick is `TimerTick`, which requires that flag and runs `AwardPlayers`.
- The interval `PlayerAwardTime` (a float, 900 seconds by default) is left out. It is only the timer's period.
- The `ServerRewards?.Call` result, and whether ServerRewards is loaded at all, are left out. The call is fire-and-forget, so every attempted call is recorded in the log.
- Localisation is left out: `LoadDefaultMessages`, `lang.GetMessage` and `string.Format`. A message is its key and argument, not formatted text.
- File I/O is left out: `Config.ReadObject`, `LoadDefaultConfig` (`Config.WriteObject`), `DataFileSystem.ReadObject` and `SaveData`. The loaded configuration and opt-out list are constructor parameters.
- `StartsWith` comparison depends on the culture in .NET. The model assumes ordinal comparison.
- A `BasePlayer` is reduced to its `UserIDString`. Two player objects with the same id are not told apart, and a player object that goes stale while held in `_heliLastAttacker` is not modelled.
