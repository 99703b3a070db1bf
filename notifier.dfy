/**
 * The reward notifier: the plugin object, with its fields and one method per
 * hook, command and award routine. Every call into the host (a ledger call
 * through the reward plugin, a chat message to a player) is appended to
 * `log`, so each method's effect is stated as what it appends. Each method
 * names in `modifies` the only fields it may change.
 */
module Notifier {
  import opened Wrappers
  import opened Prefabs
  import opened OptOut
  import opened Rewards

  class RewardNotifier {
    /** `_config`: read once when the plugin loads. */
    const config: Config
    /** `_stored.Players`: ids of the players who turned notifications off. */
    var optOut: seq<PlayerId>
    /** `_heliLastAttacker`: the last player to damage a patrol helicopter. */
    var heliLastAttacker: Option<PlayerId>
    /** Whether the repeating `AwardPlayers` timer has been scheduled. */
    var timerScheduled: bool
    /** Every ledger call and chat message so far, oldest first. */
    var log: seq<Effect>

    /** `Init`: the configuration and the stored opt-out list, as loaded. */
    constructor (config: Config, storedPlayers: seq<PlayerId>)
      ensures this.config == config && optOut == storedPlayers
      ensures heliLastAttacker == None && !timerScheduled && log == []
    {
      this.config := config;
      optOut := storedPlayers;
      heliLastAttacker := None;
      timerScheduled := false;
      log := [];
    }

    /** `AddPoints`: a fire-and-forget call to the reward plugin. */
    method AddPoints(userId: PlayerId, points: int32)
      modifies this`log
      ensures log == old(log) + [Ledger(userId, points)]
    {
      log := log + [Ledger(userId, points)];
    }

    /** `BasePlayer.ChatMessage`. */
    method ChatMessage(userId: PlayerId, message: Message)
      modifies this`log
      ensures log == old(log) + [Chat(userId, message)]
    {
      log := log + [Chat(userId, message)];
    }

    /**
     * `OnServerInitialized`: one periodic pass straight away, whatever the
     * configuration says; the repeating timer only when `playerEnabled`.
     */
    method OnServerInitialized(activePlayers: seq<PlayerId>)
      modifies this`log, this`timerScheduled
      ensures log == old(log) + PassEffects(activePlayers, config.playerPoints)
      ensures timerScheduled == (old(timerScheduled) || config.playerEnabled)
    {
      AwardPlayers(activePlayers);
      if !config.playerEnabled {
        return;
      }
      timerScheduled := true;
    }

    /**
     * A tick of the repeating timer, which exists only once
     * `OnServerInitialized` has scheduled it: the host runs `AwardPlayers`.
     */
    method TimerTick(activePlayers: seq<PlayerId>)
      requires timerScheduled
      modifies this`log
      ensures log == old(log) + PassEffects(activePlayers, config.playerPoints)
    {
      AwardPlayers(activePlayers);
    }

    /**
     * `AwardPlayers`: every active player, in order, gets the activity points
     * and an award message. Neither the opt-out list nor `playerEnabled` is read.
     */
    method AwardPlayers(activePlayers: seq<PlayerId>)
      modifies this`log
      ensures log == old(log) + PassEffects(activePlayers, config.playerPoints)
      ensures |log| == |old(log)| + 2 * |activePlayers|
    {
      var i := 0;
      while i < |activePlayers|
        invariant 0 <= i <= |activePlayers|
        invariant log == old(log) + PassEffects(activePlayers[..i], config.playerPoints)
      {
        var player := activePlayers[i];
        AddPoints(player, config.playerPoints);
        ChatMessage(player, AwardPoints(config.playerPoints));
        assert activePlayers[..i + 1][..i] == activePlayers[..i];
        i := i + 1;
      }
      assert activePlayers[..i] == activePlayers;
    }

    /**
     * `OnEntityTakeDamage` on a helicopter: remembers the attacking player
     * when the helicopter has a patrol AI and the hit has an initiating
     * player; otherwise changes nothing.
     */
    method OnEntityTakeDamage(hasPatrolAI: bool, initiator: Option<PlayerId>)
      modifies this`heliLastAttacker
      ensures hasPatrolAI && initiator.Some? ==> heliLastAttacker == initiator
      ensures !(hasPatrolAI && initiator.Some?) ==> heliLastAttacker == old(heliLastAttacker)
    {
      if !hasPatrolAI || initiator.None? {
        return;
      }
      heliLastAttacker := initiator;
    }

    /**
     * `OnEntityDeath`: classifies the entity by its short prefab name and
     * makes the award of its category. Only the log changes; in particular
     * the helicopter's last attacker is read and not cleared.
     */
    method OnEntityDeath(shortPrefabName: string, initiator: Option<PlayerId>)
      modifies this`log
      ensures log == old(log) + DeathEffects(config, shortPrefabName, initiator, heliLastAttacker, optOut)
      ensures Classify(shortPrefabName).None? ==> log == old(log)
    {
      if |shortPrefabName| == 0 {
        return;
      }
      var prefabName := shortPrefabName;
      match Classify(prefabName)
      case None =>
      case Some(Barrel) => Award(Barrel, initiator, config.barrelPoints);
      case Some(Bradley) => Award(Bradley, initiator, config.bradleyPoints);
      case Some(Heli) => Award(Heli, heliLastAttacker, config.heliPoints);
    }

    /**
     * `AwardBarrel`, `AwardBradley` and `AwardHeli`, which differ only in the
     * enabled flag they test: nothing for a null player or a disabled
     * category, else one ledger call and, unless the player opted out, one
     * award message.
     */
    method Award(category: Category, player: Option<PlayerId>, points: int32)
      modifies this`log
      ensures log == old(log) + AwardEffects(player, config.Enabled(category), points, optOut)
    {
      if player.None? || !config.Enabled(category) {
        return;
      }
      AddPoints(player.value, points);
      if player.value in optOut {
        return;
      }
      ChatMessage(player.value, AwardPoints(points));
    }

    /**
     * The `ap` chat command: `Remove` the id from the opt-out list, `Add` it
     * when nothing was removed, and reply with the resulting state. The list
     * is not saved here.
     */
    method AwardPointsCommand(player: PlayerId)
      modifies this`optOut, this`log
      ensures optOut == Toggled(old(optOut), player)
      ensures log == old(log) + [Chat(player, TogglePoints(if player in optOut then Disabled else Enabled))]
      ensures forall other :: other != player ==> (other in optOut <==> other in old(optOut))
      ensures NoDuplicates(old(optOut)) ==>
        NoDuplicates(optOut) && (player in optOut <==> player !in old(optOut))
    {
      ghost var before := optOut;
      var removed := player in optOut;
      optOut := RemoveFirst(optOut, player);
      if !removed {
        optOut := optOut + [player];
      }
      if NoDuplicates(before) {
        ToggleFlips(before, player);
      }
      ChatMessage(player, TogglePoints(if player in optOut then Disabled else Enabled));
    }
  }

  /**
   * A helicopter is hit by player `a` and then dies with no instigator: `a`
   * gets the helicopter points. The death leaves the last attacker in place,
   * so a second helicopter death with no player hit in between credits `a`
   * again. (`patrolhelicopter` is such a name: see `VehicleExamples`.)
   */
  method HeliKillScenario(a: PlayerId, name: string)
    requires Classify(name) == Some(Heli)
  {
    var n := new RewardNotifier(DefaultConfig(), []);
    n.OnEntityTakeDamage(true, Some(a));
    n.OnEntityTakeDamage(false, None);
    assert n.heliLastAttacker == Some(a);
    ghost var credit := [Ledger(a, 10), Chat(a, AwardPoints(10))];
    n.OnEntityDeath(name, None);
    assert n.log == credit;
    n.OnEntityDeath(name, None);
    assert n.log == credit + credit;
  }
}
