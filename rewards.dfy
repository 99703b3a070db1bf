/**
 * The plugin's configuration and the observable effects of its handlers.
 * Every effect is either a call into the external ledger (`AddPoints` on
 * the reward plugin) or a chat message to one player; messages are kept as
 * their catalog key and argument, not as formatted text. The functions here
 * give the effects one event produces; the notifier class appends them to
 * its output log.
 */
module Rewards {
  import opened Wrappers
  import opened Prefabs
  import opened OptOut
  import Text

  /** C#'s `int`. Points are only copied, never added, so no wrap-around arises. */
  newtype int32 = x: int | -0x8000_0000 <= x < 0x8000_0000

  /** `PluginConfig`: an enabled flag and a point value per category. */
  datatype Config = Config(
    barrelEnabled: bool,
    heliEnabled: bool,
    bradleyEnabled: bool,
    playerEnabled: bool,
    barrelPoints: int32,
    heliPoints: int32,
    bradleyPoints: int32,
    playerPoints: int32)
  {
    /** The enabled flag of a kill category. */
    function Enabled(c: Category): bool {
      match c
      case Barrel => barrelEnabled
      case Bradley => bradleyEnabled
      case Heli => heliEnabled
    }

    /** The point value of a kill category. */
    function Points(c: Category): int32 {
      match c
      case Barrel => barrelPoints
      case Bradley => bradleyPoints
      case Heli => heliPoints
    }
  }

  /** `GetDefaultConfig`: every category on; 1 point per barrel, 10 per vehicle, 2 per pass. */
  function DefaultConfig(): (cfg: Config)
    ensures forall c: Category :: cfg.Enabled(c)
    ensures cfg.playerEnabled
    ensures cfg.Points(Barrel) == 1 && cfg.Points(Bradley) == 10 && cfg.Points(Heli) == 10
    ensures cfg.playerPoints == 2
  {
    Config(true, true, true, true, 1, 10, 10, 2)
  }

  /** The label of the toggle reply. */
  datatype Notice = Enabled | Disabled

  /** A message of the catalog with its argument: "AwardPoints" or "TogglePoints". */
  datatype Message = AwardPoints(points: int32) | TogglePoints(state: Notice)

  /** One observable effect: a ledger call or a chat message. */
  datatype Effect = Ledger(userId: PlayerId, points: int32) | Chat(userId: PlayerId, message: Message)

  /**
   * The effects of `AwardBarrel`/`AwardBradley`/`AwardHeli`: nothing for a
   * null player or a disabled category; otherwise exactly one ledger call,
   * followed by an award message exactly when the player has not opted out.
   */
  function AwardEffects(player: Option<PlayerId>, enabled: bool, points: int32, optOut: seq<PlayerId>): (r: seq<Effect>)
    ensures player.None? || !enabled ==> r == []
    ensures player.Some? && enabled ==>
      && |r| == (if player.value in optOut then 1 else 2)
      && r[0] == Ledger(player.value, points)
      && forall k :: 1 <= k < |r| ==> r[k] == Chat(player.value, AwardPoints(points))
  {
    if player.None? || !enabled then []
    else if player.value in optOut then [Ledger(player.value, points)]
    else [Ledger(player.value, points), Chat(player.value, AwardPoints(points))]
  }

  /** The player a kill credits: the death's instigator, except the helicopter's last attacker. */
  function Credited(c: Category, instigator: Option<PlayerId>, heliLastAttacker: Option<PlayerId>): (p: Option<PlayerId>)
    ensures c == Heli ==> p == heliLastAttacker
    ensures c != Heli ==> p == instigator
  {
    if c == Heli then heliLastAttacker else instigator
  }

  /**
   * The effects of `OnEntityDeath`: nothing for a name no rule matches;
   * otherwise at most two effects, the first being the one ledger call of the
   * death, which credits the player of the classified category with that
   * category's points.
   */
  function DeathEffects(cfg: Config, name: string, instigator: Option<PlayerId>,
                        heliLastAttacker: Option<PlayerId>, optOut: seq<PlayerId>): (r: seq<Effect>)
    ensures Classify(name).None? ==> r == []
    ensures |r| <= 2
    ensures forall k :: 1 <= k < |r| ==> r[k].Chat?
    ensures |r| > 0 ==>
      && Classify(name).Some?
      && var c := Classify(name).value;
      && Credited(c, instigator, heliLastAttacker).Some?
      && cfg.Enabled(c)
      && r[0] == Ledger(Credited(c, instigator, heliLastAttacker).value, cfg.Points(c))
  {
    match Classify(name)
    case None => []
    case Some(c) => AwardEffects(Credited(c, instigator, heliLastAttacker), cfg.Enabled(c), cfg.Points(c), optOut)
  }

  /** An empty prefab name, or one no rule matches, has no effect. */
  lemma DeathWithoutMatch(cfg: Config, name: string, instigator: Option<PlayerId>,
                          heliLastAttacker: Option<PlayerId>, optOut: seq<PlayerId>)
    requires name == "" || (!BarrelRule(name) && !BradleyRule(name) && !HeliRule(name))
    ensures DeathEffects(cfg, name, instigator, heliLastAttacker, optOut) == []
  {
  }

  /**
   * Barrel and APC deaths credit the death's instigator with the category's
   * points; neither reads the helicopter's last attacker.
   */
  lemma DeathCreditsInstigator(cfg: Config, name: string, instigator: Option<PlayerId>,
                               heliLastAttacker: Option<PlayerId>, optOut: seq<PlayerId>)
    requires BarrelRule(name) || BradleyRule(name)
    ensures var c := if BarrelRule(name) then Barrel else Bradley;
      forall other ::
        (DeathEffects(cfg, name, instigator, heliLastAttacker, optOut)
          == DeathEffects(cfg, name, instigator, other, optOut)
          == AwardEffects(instigator, cfg.Enabled(c), cfg.Points(c), optOut))
  {
  }

  /**
   * A helicopter death credits the last recorded attacker with the helicopter
   * points, whoever (if anyone) the death's own instigator is.
   */
  lemma DeathCreditsHeliAttacker(cfg: Config, name: string, instigator: Option<PlayerId>,
                                 heliLastAttacker: Option<PlayerId>, optOut: seq<PlayerId>)
    requires !BarrelRule(name) && !BradleyRule(name) && HeliRule(name)
    ensures forall other ::
      (DeathEffects(cfg, name, instigator, heliLastAttacker, optOut)
        == DeathEffects(cfg, name, other, heliLastAttacker, optOut)
        == AwardEffects(heliLastAttacker, cfg.heliEnabled, cfg.heliPoints, optOut))
  {
  }

  /** The effects of one `AwardPlayers` pass: a ledger call and a message per player, in order. */
  function PassEffects(players: seq<PlayerId>, points: int32): (r: seq<Effect>)
    ensures |r| == 2 * |players|
  {
    if players == [] then []
    else
      var last := players[|players| - 1];
      PassEffects(players[..|players| - 1], points) + [Ledger(last, points), Chat(last, AwardPoints(points))]
  }

  /**
   * Player `k` of the pass gets the ledger call at position 2k and the award
   * message at 2k + 1; the opt-out list plays no part.
   */
  lemma {:induction false} PassEffectsAt(players: seq<PlayerId>, points: int32, k: int)
    requires 0 <= k < |players|
    ensures PassEffects(players, points)[2 * k] == Ledger(players[k], points)
    ensures PassEffects(players, points)[2 * k + 1] == Chat(players[k], AwardPoints(points))
  {
    var init := players[..|players| - 1];
    if k < |players| - 1 {
      PassEffectsAt(init, points, k);
      assert init[k] == players[k];
    }
  }

  /** The scenario of a barrel kill by a player who has not opted out, and by one who has. */
  lemma BarrelKillScenario(p: PlayerId)
    ensures var cfg := DefaultConfig();
      && DeathEffects(cfg, "loot_barrel_a", Some(p), None, []) == [Ledger(p, 1), Chat(p, AwardPoints(1))]
      && DeathEffects(cfg, "loot_barrel_a", Some(p), None, [p]) == [Ledger(p, 1)]
  {
    assert Text.IsPrefix("loot_barrel", "loot_barrel_a");
    assert Classify("loot_barrel_a") == Some(Barrel);
  }

  /** A helicopter hit by `a` dies with no instigator: `a` is credited and notified. */
  lemma HeliKillEffects(a: PlayerId)
    ensures DeathEffects(DefaultConfig(), "patrolhelicopter", None, Some(a), [])
      == [Ledger(a, 10), Chat(a, AwardPoints(10))]
  {
    VehicleExamples();
  }
}
