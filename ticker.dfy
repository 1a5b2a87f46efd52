/**
 * The per-tick task of a fake player: it stops when the player is offline,
 * removes the player once its lifespan is over (checked every 20 ticks), and
 * otherwise advances the player's entity by one tick. On the very first tick
 * the entity is put back where it spawned, so that a teleport by another
 * plugin during the spawn does not stick.
 *
 * The clock is a parameter. The entity's own physics is a parameter too: a
 * tick moves it to `moved` and turns it to `turned`.
 */
module FakeplayerTicker {
  import opened Wrappers
  import opened Domain
  import FM = FakeplayerManager

  /** `NO_REMOVE_AT`: the deadline of a fake player without a lifespan. */
  const NoRemoveAt: int := -1
  /** How often, in ticks, the deadline is checked. */
  const ExpiryPeriod: nat := 20
  const ExpiryReason: string := "lifespan ends"

  /** The deadline set by the constructor, in milliseconds. */
  function RemoveAt(now: int, lifespan: int): int {
    if lifespan > 0 then now + lifespan else NoRemoveAt
  }

  /** What one run of the task does. */
  datatype Step = Cancel | Expire | FirstTick | NormalTick

  /** The ticks on which the deadline is checked. */
  predicate IsCheckTick(tickCount: nat) {
    tickCount % ExpiryPeriod == 0
  }

  predicate Expired(removeAt: int, tickCount: nat, now: int) {
    removeAt != NoRemoveAt && IsCheckTick(tickCount) && now > removeAt
  }

  /** The branch `run` takes. */
  function StepOf(online: bool, removeAt: int, tickCount: nat, now: int): (s: Step)
    ensures s == Cancel <==> !online
    ensures s == Expire <==> online && Expired(removeAt, tickCount, now)
    ensures s == FirstTick <==> online && !Expired(removeAt, tickCount, now) && tickCount == 0
    ensures s == NormalTick <==> online && !Expired(removeAt, tickCount, now) && tickCount != 0
  {
    if !online then Cancel
    else if Expired(removeAt, tickCount, now) then Expire
    else if tickCount == 0 then FirstTick
    else NormalTick
  }

  /** A fake player is never removed for its lifespan before the lifespan is
      over, and never when it was given none. */
  lemma NoExpiryWithinLifespan(spawnedAt: int, lifespan: int, tickCount: nat, now: int)
    requires lifespan <= 0 || now <= spawnedAt + lifespan
    ensures StepOf(true, RemoveAt(spawnedAt, lifespan), tickCount, now) != Expire
  {
  }

  /** The runs left before the deadline is next checked. */
  function RunsToCheck(tickCount: nat): (k: nat)
    ensures k < ExpiryPeriod && IsCheckTick(tickCount + k)
    ensures forall t :: tickCount <= t < tickCount + k ==> !IsCheckTick(t)
  {
    (ExpiryPeriod - tickCount % ExpiryPeriod) % ExpiryPeriod
  }

  /** When the deadline has passed, the tick count reaches a multiple of 20
      within the next 20 runs, and that run removes the player. */
  lemma ExpiryWithinPeriod(spawnedAt: int, lifespan: int, tickCount: nat, now: int)
    requires spawnedAt >= 0 && lifespan > 0 && now > spawnedAt + lifespan
    ensures RunsToCheck(tickCount) < ExpiryPeriod
    ensures StepOf(true, RemoveAt(spawnedAt, lifespan), tickCount + RunsToCheck(tickCount), now) == Expire
  {
  }

  /** The game's entity of a fake player, as far as the task touches it. */
  class FakeEntity {
    const id: Uuid
    const name: string
    var online: bool
    var tickCount: nat
    /** Current and previous-tick position, and facing. */
    var pos: Pos
    var prevPos: Pos
    var rot: Rot

    constructor(id: Uuid, name: string, at: Pos, rot: Rot)
      ensures this.id == id && this.name == name && online
      ensures tickCount == 0 && pos == at && prevPos == at && this.rot == rot
    {
      this.id := id;
      this.name := name;
      this.online := true;
      this.tickCount := 0;
      this.pos := at;
      this.prevPos := at;
      this.rot := rot;
    }

    /** `doTick`: one game tick, which counts itself. */
    method DoTick(moved: Pos, turned: Rot)
      modifies this
      ensures tickCount == old(tickCount) + 1 && online == old(online)
      ensures prevPos == old(pos) && pos == moved && rot == turned
    {
      prevPos := pos;
      pos := moved;
      rot := turned;
      tickCount := tickCount + 1;
    }

    /** `teleport` followed by `absMoveTo`: the entity stands at `at`, with
        no movement recorded for this tick. */
    method MoveTo(at: Pos, facing: Rot)
      modifies this
      ensures pos == at && prevPos == at && rot == facing
      ensures tickCount == old(tickCount) && online == old(online)
    {
      pos := at;
      prevPos := at;
      rot := facing;
    }
  }

  class Ticker {
    const entity: FakeEntity
    const manager: FM.Manager
    const removeAt: int
    var cancelled: bool
    /** Names of the fake players whose creator was told of the expiry. */
    var notified: seq<string>

    constructor(entity: FakeEntity, manager: FM.Manager, now: int, lifespan: int)
      ensures this.entity == entity && this.manager == manager
      ensures removeAt == RemoveAt(now, lifespan)
      ensures !cancelled && notified == []
    {
      this.entity := entity;
      this.manager := manager;
      this.removeAt := RemoveAt(now, lifespan);
      this.cancelled := false;
      this.notified := [];
    }

    /** `run`, one scheduled call. */
    method Run(now: int, moved: Pos, turned: Rot)
      requires !cancelled
      modifies this, entity, manager
      ensures var step := StepOf(old(entity.online), removeAt, old(entity.tickCount), now);
        && (step == Cancel ==> cancelled && notified == old(notified))
        && (step == Expire ==> cancelled && notified == old(notified) + [entity.name])
        && (step == FirstTick || step == NormalTick ==> !cancelled && notified == old(notified))
        && (step == Expire ==>
              manager.effects == old(manager.effects)
                + (if FM.Get(old(manager.sessions), entity.name).Some?
                   then [FM.Kicked(FM.Get(old(manager.sessions), entity.name).value.id, FM.KickMessage(Some(ExpiryReason)))]
                   else []))
        && (step != Expire ==> manager.effects == old(manager.effects))
        && (step == Cancel || step == Expire ==>
              entity.tickCount == old(entity.tickCount) && entity.pos == old(entity.pos)
              && entity.prevPos == old(entity.prevPos) && entity.rot == old(entity.rot))
        && (step == FirstTick ==>
              entity.tickCount == 1 && entity.pos == old(entity.pos)
              && entity.prevPos == old(entity.pos) && entity.rot == turned)
        && (step == NormalTick ==>
              entity.tickCount == old(entity.tickCount) + 1 && entity.pos == moved
              && entity.prevPos == old(entity.pos) && entity.rot == turned)
      ensures entity.online == old(entity.online)
      ensures manager.sessions == old(manager.sessions) && manager.names == old(manager.names)
      ensures manager.usedIds == old(manager.usedIds)
    {
      if !entity.online {
        cancelled := true;
        return;
      }
      if Expired(removeAt, entity.tickCount, now) {
        var _ := manager.Remove(entity.name, Some(ExpiryReason));
        notified := notified + [entity.name];
        cancelled := true;
        return;
      }
      if entity.tickCount == 0 {
        var at := entity.pos;
        entity.prevPos := at;
        entity.DoTick(moved, turned);
        entity.MoveTo(at, entity.rot);
      } else {
        entity.DoTick(moved, turned);
      }
    }
  }
}
