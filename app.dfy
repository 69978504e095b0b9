/**
 * The application shell (App.tsx): the HUD state and the pending state
 * carried between waves, the restart, the level-complete and level-up
 * handlers, the upgrade chosen on the level-up screen, the shop's updates,
 * and the canvas mounted from the pending state.
 */
module App {
  import opened Types
  import opened Constants
  import opened Shop
  import opened Level
  import opened FrameStep
  import opened Simulation

  /** The HUD state the application starts with and restores on restart. */
  function Restarted(): (s: GameState)
    ensures s.player.health == INITIAL_HEALTH == 3 && s.player.maxHealth == 3
    ensures s.player.chakra == s.player.maxChakra == Some(INITIAL_CHAKRA) && INITIAL_CHAKRA == 100.0
    ensures s.player.level == 1 && s.player.xp == 0 && s.player.maxXp == 50
    ensures s.player.speedMult == 1.0 && s.player.dashCooldownMod == 0.0 && s.player.fireballCooldownMod == 0.0
    ensures s.shurikens == INITIAL_SHURIKENS == 10 && s.score == 0 && s.wave == 1
    ensures s.enemies == [] && s.obstacles == [] && s.projectiles == [] && s.particles == [] &&
            s.pickups == [] && s.fireZones == []
    ensures !s.isGameOver && !s.isPaused && Capped(s.player)
    ensures s.player.size == Size(PLAYER_W, PLAYER_H)
  {
    GameState(
      Player(Vec2(0.0, 0.0), Size(PLAYER_W, PLAYER_H), Vec2(0.0, 0.0),
             INITIAL_HEALTH, INITIAL_HEALTH, false, Some(INITIAL_CHAKRA), Some(INITIAL_CHAKRA), 0.0,
             1, 0, 50, 1.0, 0.0, 0.0),
      [], [], [], [], [], [], 0, INITIAL_SHURIKENS, 1, false, false, 0.0, 0.0)
  }

  /**
   * The restart state and the canvas's own default state differ only in
   * the player's position: the canvas places its player centre stage.
   */
  lemma RestartMatchesCanvasDefault()
    ensures Restarted() == Fresh().(player := Fresh().player.(pos := Vec2(0.0, 0.0)))
  {
  }

  /** `maxChakra! += 25` on an optional number; an undefined maximum stays undefined. */
  function AddChakra(o: Option<real>, d: real): (r: Option<real>)
    ensures r.Some? <==> o.Some?
    ensures r.Some? ==> r.value == o.value + d
  {
    if o.Some? then Some(o.value + d) else None
  }

  /**
   * A card's effect on the pending state. The score, the wave and the
   * world are never touched; only the card's own fields change.
   */
  function Upgraded(s: GameState, u: UpgradeKind): (r: GameState)
    ensures r == s.(shurikens := r.shurikens, player := r.player)
    ensures r.score == s.score && r.wave == s.wave
    ensures r.player == s.player.(health := r.player.health, maxHealth := r.player.maxHealth,
                                  chakra := r.player.chakra, maxChakra := r.player.maxChakra,
                                  speedMult := r.player.speedMult, dashCooldownMod := r.player.dashCooldownMod,
                                  fireballCooldownMod := r.player.fireballCooldownMod)
    ensures u != ShurikenUp ==> r.shurikens == s.shurikens
    ensures u == HealthUp ==>
              r.player == s.player.(maxHealth := s.player.maxHealth + 1, health := s.player.maxHealth + 1)
    ensures u == ChakraUp ==>
              r.player == s.player.(maxChakra := r.player.maxChakra, chakra := r.player.maxChakra) &&
              (s.player.maxChakra.Some? ==> r.player.maxChakra == Some(s.player.maxChakra.value + 25.0)) &&
              (s.player.maxChakra.None? ==> r.player.maxChakra.None?)
    ensures u == ShurikenUp ==> r == s.(shurikens := s.shurikens + 15)
    ensures u == SpeedUp ==> r.player == s.player.(speedMult := s.player.speedMult + 0.15)
    ensures u == DashUp ==> r.player == s.player.(dashCooldownMod := s.player.dashCooldownMod - 0.5)
    ensures u == FireballUp ==> r.player == s.player.(fireballCooldownMod := s.player.fireballCooldownMod - 0.5)
    ensures u == Heal ==>
              r.player == s.player.(health := s.player.maxHealth, chakra := s.player.maxChakra) &&
              r.player.maxHealth == s.player.maxHealth && r.player.maxChakra == s.player.maxChakra
    ensures Capped(s.player) ==> Capped(r.player)
  {
    var p := s.player;
    match u
    case HealthUp => s.(player := p.(maxHealth := p.maxHealth + 1, health := p.maxHealth + 1))
    case ChakraUp => s.(player := p.(maxChakra := AddChakra(p.maxChakra, 25.0), chakra := AddChakra(p.maxChakra, 25.0)))
    case ShurikenUp => s.(shurikens := s.shurikens + 15)
    case SpeedUp => s.(player := p.(speedMult := p.speedMult + 0.15))
    case DashUp => s.(player := p.(dashCooldownMod := p.dashCooldownMod - 0.5))
    case FireballUp => s.(player := p.(fireballCooldownMod := p.fireballCooldownMod - 0.5))
    case Heal => s.(player := p.(health := p.maxHealth, chakra := p.maxChakra))
  }

  class App {
    var hud: GameState
    var pending: Option<GameState>
    var showShop: bool
    var showLevelUp: bool
    var manualPaused: bool
    /** The canvas's key: bumping it remounts the canvas. */
    var gameKey: nat

    /** The pending state, which seeds the next canvas, has the player's size. */
    ghost predicate Valid()
      reads this
    {
      pending.Some? ==> pending.value.player.size == Size(PLAYER_W, PLAYER_H)
    }

    constructor()
      ensures hud == Restarted() && pending == None
      ensures !showShop && !showLevelUp && !manualPaused && gameKey == 0
      ensures Valid()
    {
      hud := Restarted();
      pending := None;
      showShop, showLevelUp, manualPaused := false, false, false;
      gameKey := 0;
    }

    /** `handleRestart`: a new canvas, every screen closed, nothing pending, the HUD reset. */
    method HandleRestart()
      modifies this
      ensures gameKey == old(gameKey) + 1
      ensures !manualPaused && !showShop && !showLevelUp
      ensures pending == None && hud == Restarted()
      ensures Valid()
    {
      gameKey := gameKey + 1;
      manualPaused, showShop, showLevelUp := false, false, false;
      pending := None;
      hud := Restarted();
    }

    /**
     * `handleLevelComplete`: the final state of the wave is shown, kept and the shop opened.
     * The new pending state is the mounted canvas's initial state, so the
     * canvas re-runs its seeding effect with it (GameCanvas.Reseed): a
     * fresh layout and wave at the pending state's wave.
     */
    method HandleLevelComplete(finalState: GameState)
      modifies this
      ensures hud == finalState && pending == Some(finalState) && showShop
      ensures showLevelUp == old(showLevelUp) && manualPaused == old(manualPaused) && gameKey == old(gameKey)
      ensures finalState.player.size == Size(PLAYER_W, PLAYER_H) ==> Valid()
    {
      hud, pending, showShop := finalState, Some(finalState), true;
    }

    /**
     * `handleLevelUp`: the state at the level gained is shown, kept and the level-up screen opened.
     * The new pending state is the mounted canvas's initial state, so the
     * canvas re-runs its seeding effect with it (GameCanvas.Reseed): a
     * fresh layout and wave at the pending state's wave.
     */
    method HandleLevelUp(finalState: GameState)
      modifies this
      ensures hud == finalState && pending == Some(finalState) && showLevelUp
      ensures showShop == old(showShop) && manualPaused == old(manualPaused) && gameKey == old(gameKey)
      ensures finalState.player.size == Size(PLAYER_W, PLAYER_H) ==> Valid()
    {
      hud, pending, showLevelUp := finalState, Some(finalState), true;
    }

    /**
     * `handleUpgradeSelect`: with nothing pending, nothing happens;
     * otherwise the card's fields are changed on a copy of the pending
     * state, which becomes both the HUD and the pending state, and the
     * level-up screen closes.
     * The new pending state is the mounted canvas's initial state, so the
     * canvas re-runs its seeding effect with it (GameCanvas.Reseed): a
     * fresh layout and wave at the pending state's wave.
     */
    method HandleUpgradeSelect(u: UpgradeKind)
      modifies this
      ensures old(pending).None? ==>
                hud == old(hud) && pending == None && showLevelUp == old(showLevelUp)
      ensures old(pending).Some? ==>
                pending == Some(Upgraded(old(pending).value, u)) && hud == pending.value && !showLevelUp
      ensures showShop == old(showShop) && manualPaused == old(manualPaused) && gameKey == old(gameKey)
      ensures old(Valid()) ==> Valid()
    {
      if pending.None? {
        return;
      }
      var next := pending.value;
      var p := next.player;
      match u {
        case HealthUp =>
          p := p.(maxHealth := p.maxHealth + 1);
          p := p.(health := p.maxHealth);
        case ChakraUp =>
          p := p.(maxChakra := AddChakra(p.maxChakra, 25.0));
          p := p.(chakra := p.maxChakra);
        case ShurikenUp =>
          next := next.(shurikens := next.shurikens + 15);
        case SpeedUp =>
          p := p.(speedMult := p.speedMult + 0.15);
        case DashUp =>
          p := p.(dashCooldownMod := p.dashCooldownMod - 0.5);
        case FireballUp =>
          p := p.(fireballCooldownMod := p.fireballCooldownMod - 0.5);
        case Heal =>
          p := p.(health := p.maxHealth);
          p := p.(chakra := p.maxChakra);
      }
      next := next.(player := p);
      hud, pending := next, Some(next);
      showLevelUp := false;
    }

    /**
     * A click on a shop item. The shop is shown only while it is open and
     * a state is pending, and a disabled button takes no click; otherwise
     * the purchase's update becomes both the HUD and the pending state.
     * The new pending state is the mounted canvas's initial state, so the
     * canvas re-runs its seeding effect with it (GameCanvas.Reseed): a
     * fresh layout and wave at the pending state's wave.
     */
    method ShopSelect(item: Item)
      modifies this
      ensures var enabled := old(showShop) && old(pending).Some? && !Disabled(old(pending).value, item);
              (enabled ==> pending == Buy(old(pending).value, item) && pending.Some? && hud == pending.value) &&
              (!enabled ==> pending == old(pending) && hud == old(hud))
      ensures showShop == old(showShop) && showLevelUp == old(showLevelUp)
      ensures manualPaused == old(manualPaused) && gameKey == old(gameKey)
      ensures old(Valid()) ==> Valid()
    {
      if showShop && pending.Some? && !Disabled(pending.value, item) {
        var update := Purchase(pending.value, item);
        hud, pending := update.value, update;
      }
    }

    /** The shop's close button: the shop goes and a new canvas is mounted. */
    method CloseShop()
      modifies this
      ensures !showShop && gameKey == old(gameKey) + 1
      ensures hud == old(hud) && pending == old(pending) && showLevelUp == old(showLevelUp)
      ensures manualPaused == old(manualPaused)
      ensures old(Valid()) ==> Valid()
    {
      showShop := false;
      gameKey := gameKey + 1;
    }

    /**
     * The canvas mounted under the current key, seeded from the pending
     * state: it starts the pending state's wave (or wave 1) with its score
     * and player, and satisfies the frame invariant.
     */
    method Mount(scenario: ScenarioType, root: real -> real, g: Rng) returns (canvas: GameCanvas)
      requires Valid()
      ensures fresh(canvas) && canvas.Valid()
      ensures canvas.scenario == scenario && canvas.root == root
      ensures canvas.state.wave == StartWave(pending) && canvas.state.score == Seeded(pending).score
      ensures canvas.state.shurikens == Seeded(pending).shurikens
      ensures canvas.state.player == Seeded(pending).player.(pos := START, velocity := Vec2(0.0, 0.0))
    {
      canvas := new GameCanvas(scenario, root, pending, g);
    }
  }
}
