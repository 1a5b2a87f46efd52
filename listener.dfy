/**
 * The game-event handlers of the plugin: a real player may not log in with an
 * id a fake player has used; a fake player that dies is removed instead (when
 * so configured); a fake player that quits runs the destroy commands and
 * leaves the directory.
 */
module FakeplayerListener {
  import opened Wrappers
  import opened Domain
  import FM = FakeplayerManager

  /** `PlayerLoginEvent.Result`. */
  datatype LoginResult = Allowed | KickFull | KickBanned | KickWhitelist | KickOther

  class LoginEvent {
    const playerId: Uuid
    var result: LoginResult

    constructor(playerId: Uuid)
      ensures this.playerId == playerId && result == Allowed
    {
      this.playerId := playerId;
      this.result := Allowed;
    }
  }

  class DeathEvent {
    const playerId: Uuid
    const playerName: string
    /** The death message, if the event carries one. */
    const deathMessage: Option<string>
    /** The player's maximum-health attribute, if the player has one. */
    const maxHealth: Option<real>
    var health: real
    var cancelled: bool

    constructor(playerId: Uuid, playerName: string, deathMessage: Option<string>, maxHealth: Option<real>, health: real)
      ensures this.playerId == playerId && this.playerName == playerName
      ensures this.deathMessage == deathMessage && this.maxHealth == maxHealth
      ensures this.health == health && !cancelled
    {
      this.playerId := playerId;
      this.playerName := playerName;
      this.deathMessage := deathMessage;
      this.maxHealth := maxHealth;
      this.health := health;
      this.cancelled := false;
    }
  }

  /** Whether the login of a player with this id from this kind of address
      is refused. Addresses the plugin generates for its own fake players
      are never refused. */
  predicate RefusesLogin(usedIds: set<Uuid>, id: Uuid, addressIsInternal: bool) {
    !addressIsInternal && id in usedIds
  }

  /** Whether quitting refreshes the creator's command list: the creator is
      a player, and this was the last fake player it had. */
  predicate RefreshesCreator(dir: seq<FM.Session>, target: Uuid) {
    match FM.GetCreator(dir, target)
    case Some(c) => c.IsPlayer() && FM.CountByCreator(dir, c.name) == 1
    case None => false
  }

  /** The destroy commands run against the directory before `cleanup`: run
      after it they would do nothing, since the player is no longer fake. */
  lemma {:induction false} DispatchAfterCleanupIsSilent(dir: seq<FM.Session>, id: Uuid, commands: seq<string>)
    ensures FM.DispatchEffects(FM.Without(dir, id), id, commands) == []
  {
    if FM.IsFake(FM.Without(dir, id), id) {
      var i :| 0 <= i < |FM.Without(dir, id)| && FM.Without(dir, id)[i].id == id;
      assert FM.Without(dir, id)[i] in FM.Without(dir, id);
      assert false;
    }
  }

  /** A refresh is scheduled only for a player who created the quitting fake
      player. */
  lemma RefreshTargetsTheCreator(dir: seq<FM.Session>, target: Uuid)
    requires RefreshesCreator(dir, target)
    ensures FM.IsFake(dir, target)
    ensures FM.GetCreator(dir, target).value.IsPlayer()
    ensures FM.CountByCreator(dir, FM.GetCreatorName(dir, target).value) == 1
  {
  }

  class Listener {
    const manager: FM.Manager
    const kickOnDead: bool
    const destroyCommands: seq<string>
    /** Players whose command list is refreshed on the next tick. */
    var refreshes: seq<Uuid>

    constructor(manager: FM.Manager, kickOnDead: bool, destroyCommands: seq<string>)
      ensures this.manager == manager && this.kickOnDead == kickOnDead
      ensures this.destroyCommands == destroyCommands && refreshes == []
    {
      this.manager := manager;
      this.kickOnDead := kickOnDead;
      this.destroyCommands := destroyCommands;
      this.refreshes := [];
    }

    /** `onLogin`: an id some fake player has had is refused, unless the
        login comes from an address the plugin generated. */
    method OnLogin(event: LoginEvent, addressIsInternal: bool)
      modifies event
      ensures RefusesLogin(manager.usedIds, event.playerId, addressIsInternal) ==> event.result == KickOther
      ensures !RefusesLogin(manager.usedIds, event.playerId, addressIsInternal) ==> event.result == old(event.result)
    {
      if addressIsInternal {
        return;
      }
      if event.playerId in manager.usedIds {
        event.result := KickOther;
      }
    }

    /** `onDead`: with kick-on-dead on, a dying fake player is restored to
        full health, its death is cancelled, and it is removed with the death
        message as the reason. */
    method OnDead(event: DeathEvent)
      modifies event, manager
      ensures !FM.IsFake(old(manager.sessions), event.playerId) || !kickOnDead ==>
        && event.cancelled == old(event.cancelled) && event.health == old(event.health)
        && manager.effects == old(manager.effects)
      ensures FM.IsFake(old(manager.sessions), event.playerId) && kickOnDead ==>
        && event.cancelled
        && event.health == (if event.maxHealth.Some? then event.maxHealth.value else old(event.health))
        && manager.effects == old(manager.effects)
             + (if FM.Get(old(manager.sessions), event.playerName).Some?
                then [FM.Kicked(FM.Get(old(manager.sessions), event.playerName).value.id, FM.KickMessage(event.deathMessage))]
                else [])
      ensures manager.sessions == old(manager.sessions) && manager.names == old(manager.names)
      ensures manager.usedIds == old(manager.usedIds)
    {
      if !FM.IsFake(manager.sessions, event.playerId) {
        return;
      }
      if !kickOnDead {
        return;
      }
      if event.maxHealth.Some? {
        event.health := event.maxHealth.value;
      }
      event.cancelled := true;
      var _ := manager.Remove(event.playerName, event.deathMessage);
    }

    /** `onQuit`: for a fake player, the destroy commands are dispatched (and
        the creator's command list refreshed when this was its last fake
        player) while the player is still in the directory; then, whether or
        not that failed, the player is cleaned up. */
    method OnQuit(target: Uuid, destroyFails: bool)
      requires manager.Valid()
      modifies this, manager
      ensures manager.Valid()
      ensures !FM.IsFake(old(manager.sessions), target) ==>
        && refreshes == old(refreshes) && manager.effects == old(manager.effects)
        && manager.sessions == old(manager.sessions)
      ensures FM.IsFake(old(manager.sessions), target) ==>
        && manager.sessions == FM.Without(old(manager.sessions), target)
        && manager.names == old(manager.names) - {FM.FindById(old(manager.sessions), target).value.name}
        && manager.effects == old(manager.effects)
             + (if destroyFails then [] else FM.DispatchEffects(old(manager.sessions), target, destroyCommands))
             + (if manager.config.dropInventoryOnQuiting then [FM.DropInventoryOnce(target)] else [])
        && refreshes == old(refreshes)
             + (if !destroyFails && RefreshesCreator(old(manager.sessions), target)
                then [FM.GetCreator(old(manager.sessions), target).value.key.id]
                else [])
    {
      if !FM.IsFake(manager.sessions, target) {
        return;
      }
      var dir := manager.sessions;
      var refresh := !destroyFails && RefreshesCreator(dir, target);
      if !destroyFails {
        manager.DispatchCommands(target, destroyCommands);
        assert manager.Valid();
      }
      if refresh {
        refreshes := refreshes + [FM.GetCreator(dir, target).value.key.id];
      }
      manager.Cleanup(target);
    }
  }
}
