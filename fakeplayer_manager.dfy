/**
 * The current plugin's manager: the directory of live fake players
 * (`FakeplayerList`), admission control, name choice, the per-user spawn
 * options, lookups, removal, and the console/self command guards.
 *
 * The directory is a sequence of sessions. The pure queries are functions of
 * that sequence. The operations that change state live in `Manager`, whose
 * fields stand for the directory, the name registry, the used-id ledger, and
 * the ordered log of calls made into the game (kicks, commands, actions).
 */
module FakeplayerManager {
  import opened Wrappers
  import opened JavaStrings
  import opened Domain
  import opened Naming
  import opened Sequences

  /** One live fake player: its id and display name, who created it, the
      creator's address when it was created, and its removal deadline. */
  datatype Session = Session(id: Uuid, name: string, creator: Sender, creatorIp: string, removeAt: Option<int>)

  /** The configuration values the manager reads. */
  datatype Config = Config(
    serverLimit: int,
    playerLimit: int,
    detectIp: bool,
    dropInventoryOnQuiting: bool,
    nameTemplate: string,
    preparingCommands: seq<string>,
    selfCommands: seq<string>)

  // ---------------------------------------------------------------------------
  // Directory queries

  predicate IsFake(dir: seq<Session>, id: Uuid) {
    exists i :: 0 <= i < |dir| && dir[i].id == id
  }

  predicate HasName(dir: seq<Session>, name: string) {
    exists i :: 0 <= i < |dir| && dir[i].name == name
  }

  function NamesOf(dir: seq<Session>): set<string> {
    set s | s in dir :: s.name
  }

  function IdsOf(dir: seq<Session>): set<Uuid> {
    set s | s in dir :: s.id
  }

  predicate UniqueIds(dir: seq<Session>) {
    forall i, j :: 0 <= i < j < |dir| ==> dir[i].id != dir[j].id
  }

  predicate UniqueNames(dir: seq<Session>) {
    forall i, j :: 0 <= i < j < |dir| ==> dir[i].name != dir[j].name
  }

  /** `playerList.getByUUID`. */
  function FindById(dir: seq<Session>, id: Uuid): (r: Option<Session>)
    ensures r.Some? <==> IsFake(dir, id)
    ensures r.Some? ==> r.value in dir && r.value.id == id
  {
    if |dir| == 0 then None
    else if dir[0].id == id then Some(dir[0])
    else
      assert forall i :: 1 <= i < |dir| ==> dir[i] == dir[1..][i - 1];
      FindById(dir[1..], id)
  }

  /** `get(name)`, through `playerList.getByName`. */
  function Get(dir: seq<Session>, name: string): (r: Option<Session>)
    ensures r.Some? <==> HasName(dir, name)
    ensures r.Some? ==> r.value in dir && r.value.name == name
  {
    if |dir| == 0 then None
    else if dir[0].name == name then Some(dir[0])
    else
      assert forall i :: 1 <= i < |dir| ==> dir[i] == dir[1..][i - 1];
      Get(dir[1..], name)
  }

  /** With unique names the lookup finds exactly the session holding the name. */
  lemma {:induction false} GetFindsTheHolder(dir: seq<Session>, s: Session)
    requires UniqueNames(dir) && s in dir
    ensures Get(dir, s.name) == Some(s)
  {
    if dir[0] != s {
      assert UniqueNames(dir[1..]);
      assert s in dir[1..];
      GetFindsTheHolder(dir[1..], s);
      assert dir[0].name != s.name;
    }
  }

  /** `get(creator, name)`: the named session, only when this sender created it. */
  function GetOwned(dir: seq<Session>, creator: Sender, name: string): (r: Option<Session>)
    ensures r.Some? <==> Get(dir, name).Some? && Get(dir, name).value.creator.key == creator.key
    ensures r.Some? ==> r.value in dir && r.value.name == name && r.value.creator.key == creator.key
  {
    match Get(dir, name)
    case Some(s) => if s.creator.key == creator.key then Some(s) else None
    case None => None
  }

  /** `getCreatorName`: the creator's name of a live fake player, none otherwise. */
  function GetCreatorName(dir: seq<Session>, id: Uuid): (r: Option<string>)
    ensures r.Some? <==> IsFake(dir, id)
    ensures r.Some? ==> exists i :: 0 <= i < |dir| && dir[i].id == id && dir[i].creator.name == r.value
  {
    match FindById(dir, id)
    case Some(s) => Some(s.creator.name)
    case None => None
  }

  /** The creator as a sender (the listener's `getCreator`). */
  function GetCreator(dir: seq<Session>, id: Uuid): (r: Option<Sender>)
    ensures r.Some? <==> IsFake(dir, id)
    ensures r.Some? ==> GetCreatorName(dir, id) == Some(r.value.name)
  {
    match FindById(dir, id)
    case Some(s) => Some(s.creator)
    case None => None
  }

  /** With unique ids, the creator found for a live session is its own creator. */
  lemma {:induction false} FindByIdFindsTheSession(dir: seq<Session>, s: Session)
    requires UniqueIds(dir) && s in dir
    ensures FindById(dir, s.id) == Some(s)
  {
    if dir[0] != s {
      assert UniqueIds(dir[1..]);
      assert s in dir[1..];
      FindByIdFindsTheSession(dir[1..], s);
      assert dir[0].id != s.id;
    }
  }

  /** `getAll(creator)`: the sessions whose creator has this name, in directory order. */
  function ByCreator(dir: seq<Session>, creatorName: string): (r: seq<Session>)
    ensures |r| <= |dir|
    ensures forall s :: s in r <==> s in dir && s.creator.name == creatorName
  {
    if |dir| == 0 then []
    else
      var last := dir[|dir| - 1];
      ByCreator(dir[..|dir| - 1], creatorName) + (if last.creator.name == creatorName then [last] else [])
  }

  /** The sessions created from this address. */
  function ByAddress(dir: seq<Session>, address: string): (r: seq<Session>)
    ensures |r| <= |dir|
    ensures forall s :: s in r <==> s in dir && s.creatorIp == address
  {
    if |dir| == 0 then []
    else
      var last := dir[|dir| - 1];
      ByAddress(dir[..|dir| - 1], address) + (if last.creatorIp == address then [last] else [])
  }

  /** `getAll(creator)` keeps the directory's order. */
  lemma {:induction false} ByCreatorKeepsOrder(dir: seq<Session>, creatorName: string)
    ensures IsSubsequence(ByCreator(dir, creatorName), dir)
  {
    if |dir| == 0 {
      SubsequenceOfItself(dir);
    } else {
      var init := dir[..|dir| - 1];
      var last := dir[|dir| - 1];
      ByCreatorKeepsOrder(init, creatorName);
      SubsequenceExtend(ByCreator(init, creatorName), init, last, last.creator.name == creatorName);
      assert init + [last] == dir;
    }
  }

  /** The sessions counted for an address keep the directory's order. */
  lemma {:induction false} ByAddressKeepsOrder(dir: seq<Session>, address: string)
    ensures IsSubsequence(ByAddress(dir, address), dir)
  {
    if |dir| == 0 {
      SubsequenceOfItself(dir);
    } else {
      var init := dir[..|dir| - 1];
      var last := dir[|dir| - 1];
      ByAddressKeepsOrder(init, address);
      SubsequenceExtend(ByAddress(init, address), init, last, last.creatorIp == address);
      assert init + [last] == dir;
    }
  }

  function CountByCreator(dir: seq<Session>, creatorName: string): nat {
    |ByCreator(dir, creatorName)|
  }

  /** `countByAddress`. */
  function CountByAddress(dir: seq<Session>, address: string): nat {
    |ByAddress(dir, address)|
  }

  /** Adding a session raises the creator and address counts by one exactly
      where it matches, and leaves the others alone. */
  lemma CountsAfterAppend(dir: seq<Session>, s: Session, creatorName: string, address: string)
    ensures CountByCreator(dir + [s], creatorName) == CountByCreator(dir, creatorName) + (if s.creator.name == creatorName then 1 else 0)
    ensures CountByAddress(dir + [s], address) == CountByAddress(dir, address) + (if s.creatorIp == address then 1 else 0)
  {
    assert (dir + [s])[..|dir|] == dir;
  }

  // ---------------------------------------------------------------------------
  // Admission

  /** The three limit messages of `checkLimit`. */
  datatype LimitError = ServerFull | CreatorFull | AddressFull

  /** `checkLimit`: operators always pass. For anyone else the checks run in a
      fixed order (whole server, this creator, this address when `detectIp` is
      on) and the first limit reached decides the error. The address check
      compares against the per-player limit. */
  function CheckLimit(cfg: Config, dir: seq<Session>, creator: Sender): (r: Option<LimitError>)
    ensures creator.isOp ==> r == None
    ensures r == Some(ServerFull) <==> !creator.isOp && |dir| >= cfg.serverLimit
    ensures r == Some(CreatorFull) <==>
      !creator.isOp && |dir| < cfg.serverLimit && CountByCreator(dir, creator.name) >= cfg.playerLimit
    ensures r == Some(AddressFull) <==>
      && !creator.isOp && |dir| < cfg.serverLimit && CountByCreator(dir, creator.name) < cfg.playerLimit
      && cfg.detectIp && CountByAddress(dir, creator.address) >= cfg.playerLimit
  {
    if creator.isOp then None
    else if |dir| >= cfg.serverLimit then Some(ServerFull)
    else if CountByCreator(dir, creator.name) >= cfg.playerLimit then Some(CreatorFull)
    else if cfg.detectIp && CountByAddress(dir, creator.address) >= cfg.playerLimit then Some(AddressFull)
    else None
  }

  /** A non-operator admitted by `checkLimit` and then registered stays within
      every limit that was checked. */
  lemma AdmittedSpawnStaysWithinLimits(cfg: Config, dir: seq<Session>, creator: Sender, s: Session)
    requires !creator.isOp && CheckLimit(cfg, dir, creator) == None
    requires s.creator == creator && s.creatorIp == creator.address
    ensures |dir + [s]| <= cfg.serverLimit
    ensures CountByCreator(dir + [s], creator.name) <= cfg.playerLimit
    ensures cfg.detectIp ==> CountByAddress(dir + [s], creator.address) <= cfg.playerLimit
  {
    CountsAfterAppend(dir, s, creator.name, creator.address);
  }

  /** Why the synchronous part of `spawnAsync` throws. */
  datatype SpawnError = Limit(limit: LimitError) | InvalidName(reason: NameError)

  /** The synchronous part of `spawnAsync`: the limit check, then a sequential
      name for a blank request or the requested name through `custom`. */
  function Admit(cfg: Config, dir: seq<Session>, held: set<string>, creator: Sender, name: string): (r: Result<string, SpawnError>)
    ensures CheckLimit(cfg, dir, creator).Some? ==> r == Failure(Limit(CheckLimit(cfg, dir, creator).value))
    ensures r.Success? ==> CheckLimit(cfg, dir, creator).None? && r.value !in held
    ensures r.Success? && !IsBlank(name) ==> r.value == name
    ensures r.Success? && IsBlank(name) ==>
      r.value == SequentialName(Group(cfg.nameTemplate, creator.name), Register(held, Group(cfg.nameTemplate, creator.name)))
    ensures CheckLimit(cfg, dir, creator).None? && IsBlank(name) ==> r.Success?
    ensures r.Failure? && r.error.InvalidName? ==> Custom(held, name).Failure? && r.error.reason == Custom(held, name).error
  {
    match CheckLimit(cfg, dir, creator)
    case Some(e) => Failure(Limit(e))
    case None =>
      if IsBlank(name) then
        var g := Group(cfg.nameTemplate, creator.name);
        Success(SequentialName(g, Register(held, g)))
      else
        match Custom(held, name)
        case Success(n) => Success(n)
        case Failure(e) => Failure(InvalidName(e))
  }

  /** A name accepted by admission is held by no live session. */
  lemma AdmittedNameIsFresh(cfg: Config, dir: seq<Session>, held: set<string>, creator: Sender, name: string)
    requires NamesOf(dir) <= held
    requires Admit(cfg, dir, held, creator, name).Success?
    ensures !HasName(dir, Admit(cfg, dir, held, creator, name).value)
  {
    var n := Admit(cfg, dir, held, creator, name).value;
    forall i | 0 <= i < |dir|
      ensures dir[i].name != n
    {
      assert dir[i] in dir;
    }
  }

  // ---------------------------------------------------------------------------
  // Spawn options

  /** The per-user settings read for a new fake player. */
  datatype SettingKey = Invulnerable | LookAtEntity | Collidable | PickupItems | Skin

  datatype SpawnOption = SpawnOption(
    spawnAt: Location, invulnerable: bool, collidable: bool, lookAtEntity: bool, pickupItems: bool, skin: bool)
  {
    function Setting(k: SettingKey): bool {
      match k
      case Invulnerable => invulnerable
      case LookAtEntity => lookAtEntity
      case Collidable => collidable
      case PickupItems => pickupItems
      case Skin => skin
    }
  }

  /** One setting: the user's stored value when the creator is a player who
      stored one, the setting's default otherwise. */
  function SettingValue(creator: Sender, stored: map<(Uuid, SettingKey), bool>, defaults: SettingKey -> bool, k: SettingKey): (v: bool)
    ensures creator.IsPlayer() && (creator.key.id, k) in stored ==> v == stored[(creator.key.id, k)]
    ensures !creator.IsPlayer() || (creator.key.id, k) !in stored ==> v == defaults(k)
  {
    match creator.key
    case PlayerKey(id) => if (id, k) in stored then stored[(id, k)] else defaults(k)
    case _ => defaults(k)
  }

  /** The option record built before the entity is spawned. */
  function ResolveOptions(spawnAt: Location, creator: Sender, stored: map<(Uuid, SettingKey), bool>, defaults: SettingKey -> bool): (o: SpawnOption)
    ensures o.spawnAt == spawnAt
    ensures forall k :: o.Setting(k) == SettingValue(creator, stored, defaults, k)
  {
    SpawnOption(
      spawnAt,
      SettingValue(creator, stored, defaults, Invulnerable),
      SettingValue(creator, stored, defaults, Collidable),
      SettingValue(creator, stored, defaults, LookAtEntity),
      SettingValue(creator, stored, defaults, PickupItems),
      SettingValue(creator, stored, defaults, Skin))
  }

  /** A creator that is not a player gets every default, whatever is stored. */
  lemma NonPlayerGetsDefaults(spawnAt: Location, creator: Sender, stored: map<(Uuid, SettingKey), bool>, defaults: SettingKey -> bool, k: SettingKey)
    requires !creator.IsPlayer()
    ensures ResolveOptions(spawnAt, creator, stored, defaults).Setting(k) == defaults(k)
  {
  }

  // ---------------------------------------------------------------------------
  // Calls into the game

  /** What the manager asks the game to do, in order. */
  datatype Effect =
    | Kicked(target: Uuid, message: string)
    | Dispatched(command: string, placeholders: seq<(string, string)>)
    | Performed(player: Uuid, command: string)
    | DropInventoryOnce(player: Uuid)

  /** The kick text of `remove` and `removeAll`. */
  function KickMessage(reason: Option<string>): (m: string)
    ensures StartsWith(m, "[fakeplayer] ")
    ensures m[|"[fakeplayer] "|..] == reason.GetOr("removed")
  {
    "[fakeplayer] " + reason.GetOr("removed")
  }

  /** The placeholder bindings of `dispatchCommands`: the player's name, its
      id, and its creator's name. */
  function Placeholders(s: Session): seq<(string, string)> {
    [("%p", s.name), ("%u", s.id), ("%c", s.creator.name)]
  }

  /** `dispatchCommands`: nothing for an empty list or a player that is not
      fake; otherwise every command, in order, run by the console with the
      session's placeholders. */
  function DispatchEffects(dir: seq<Session>, id: Uuid, commands: seq<string>): (r: seq<Effect>)
    ensures r == [] <==> |commands| == 0 || !IsFake(dir, id)
    ensures r != [] ==> |r| == |commands| && forall i :: 0 <= i < |r| ==>
      r[i] == Dispatched(commands[i], Placeholders(FindById(dir, id).value))
  {
    if |commands| == 0 || !IsFake(dir, id) then []
    else
      var ph := Placeholders(FindById(dir, id).value);
      seq(|commands|, i requires 0 <= i < |commands| => Dispatched(commands[i], ph))
  }

  /** `performCommands`: the same guards, the commands run by the player itself. */
  function PerformEffects(dir: seq<Session>, id: Uuid, commands: seq<string>): (r: seq<Effect>)
    ensures r == [] <==> |commands| == 0 || !IsFake(dir, id)
    ensures r != [] ==> |r| == |commands| && forall i :: 0 <= i < |r| ==> r[i] == Performed(id, commands[i])
  {
    if |commands| == 0 || !IsFake(dir, id) then []
    else seq(|commands|, i requires 0 <= i < |commands| => Performed(id, commands[i]))
  }

  /** The `%c` binding is the creator's name whenever commands are dispatched,
      so the null check on `getCreatorName` never fails there. */
  lemma DispatchBindsCreatorName(dir: seq<Session>, id: Uuid, commands: seq<string>)
    requires DispatchEffects(dir, id, commands) != []
    ensures GetCreatorName(dir, id).Some?
    ensures DispatchEffects(dir, id, commands)[0].placeholders[2] == ("%c", GetCreatorName(dir, id).value)
  {
  }

  /** One kick per session, in directory order (`removeAll`). */
  function KicksOf(dir: seq<Session>, message: string): (r: seq<Effect>)
    ensures |r| == |dir|
    ensures forall i :: 0 <= i < |r| ==> r[i] == Kicked(dir[i].id, message)
  {
    if |dir| == 0 then [] else KicksOf(dir[..|dir| - 1], message) + [Kicked(dir[|dir| - 1].id, message)]
  }

  /** The kicks that calling `remove` on each of these names in turn issues:
      one for every name a live session holds, in order. */
  function KicksFor(dir: seq<Session>, names: seq<string>, message: string): (r: seq<Effect>)
    ensures |r| <= |names|
  {
    if |names| == 0 then []
    else
      KicksFor(dir, names[..|names| - 1], message)
        + (match Get(dir, names[|names| - 1])
           case Some(s) => [Kicked(s.id, message)]
           case None => [])
  }

  /** One more name removed: its kick, if any, comes last. */
  lemma KicksForStep(dir: seq<Session>, names: seq<string>, i: nat, message: string)
    requires i < |names|
    ensures KicksFor(dir, names[..i + 1], message) == KicksFor(dir, names[..i], message)
      + (if Get(dir, names[i]).Some? then [Kicked(Get(dir, names[i]).value.id, message)] else [])
  {
    assert names[..i + 1][..i] == names[..i];
  }

  /** `playerList.removeByUUID`: the directory without that id. */
  function Without(dir: seq<Session>, id: Uuid): (r: seq<Session>)
    ensures |r| <= |dir|
    ensures forall s :: s in r <==> s in dir && s.id != id
  {
    if |dir| == 0 then []
    else
      var last := dir[|dir| - 1];
      Without(dir[..|dir| - 1], id) + (if last.id == id then [] else [last])
  }

  /** Removing an id that is not live changes nothing. */
  lemma {:induction false} WithoutAbsent(dir: seq<Session>, id: Uuid)
    requires !IsFake(dir, id)
    ensures Without(dir, id) == dir
  {
    if |dir| > 0 {
      var init := dir[..|dir| - 1];
      assert !IsFake(init, id) by {
        forall k | 0 <= k < |init|
          ensures init[k].id != id
        {
          assert init[k] == dir[k];
        }
      }
      WithoutAbsent(init, id);
      assert dir == init + [dir[|dir| - 1]];
    }
  }

  /** Removing a live id from a directory of unique ids drops exactly one entry. */
  lemma {:induction false} WithoutLength(dir: seq<Session>, id: Uuid)
    requires UniqueIds(dir) && IsFake(dir, id)
    ensures |Without(dir, id)| == |dir| - 1
  {
    var init := dir[..|dir| - 1];
    var last := dir[|dir| - 1];
    assert UniqueIds(init);
    if last.id == id {
      assert !IsFake(init, id) by {
        forall k | 0 <= k < |init|
          ensures init[k].id != id
        {
          assert init[k] == dir[k];
        }
      }
      WithoutAbsent(init, id);
    } else {
      var k :| 0 <= k < |dir| && dir[k].id == id;
      assert k < |init| && init[k] == dir[k];
      WithoutLength(init, id);
    }
  }

  /** Removing an id keeps ids and names unique. */
  lemma {:induction false} WithoutKeepsUnique(dir: seq<Session>, id: Uuid)
    requires UniqueIds(dir) && UniqueNames(dir)
    ensures UniqueIds(Without(dir, id)) && UniqueNames(Without(dir, id))
  {
    if |dir| > 0 {
      var init := dir[..|dir| - 1];
      var last := dir[|dir| - 1];
      assert UniqueIds(init) && UniqueNames(init);
      WithoutKeepsUnique(init, id);
      var w := Without(init, id);
      forall s | s in w
        ensures s.id != last.id && s.name != last.name
      {
        var k :| 0 <= k < |init| && init[k] == s;
        assert dir[k] == s;
      }
    }
  }

  /** With unique names, removing a session removes exactly its name. */
  lemma NamesWithout(dir: seq<Session>, s: Session)
    requires UniqueIds(dir) && s in dir
    ensures NamesOf(Without(dir, s.id)) <= NamesOf(dir)
    ensures UniqueNames(dir) ==> NamesOf(Without(dir, s.id)) == NamesOf(dir) - {s.name}
  {
    if UniqueNames(dir) {
      forall t | t in Without(dir, s.id)
        ensures t.name != s.name
      {
        var i :| 0 <= i < |dir| && dir[i] == t;
        var j :| 0 <= j < |dir| && dir[j] == s;
        assert i != j;
      }
      forall n | n in NamesOf(dir) - {s.name}
        ensures n in NamesOf(Without(dir, s.id))
      {
        var t :| t in dir && t.name == n;
        assert t.id != s.id;
      }
    }
  }

  // ---------------------------------------------------------------------------
  // The manager

  class Manager {
    const config: Config
    /** `FakeplayerList`. */
    var sessions: seq<Session>
    /** The names the name registry holds. */
    var names: set<string>
    /** `UsedIdRepository`: every id a fake player has had. */
    var usedIds: set<Uuid>
    /** The calls made into the game, in order. */
    var effects: seq<Effect>
    /** Names handed out by a spawn that has not reached the directory yet. */
    ghost var pending: set<string>

    /** Ids and names are unique in the directory; the registry holds exactly
        the names of live sessions and of spawns in flight; every live id is in
        the ledger. */
    ghost predicate Valid()
      reads this
    {
      && UniqueIds(sessions)
      && UniqueNames(sessions)
      && NamesOf(sessions) !! pending
      && names == NamesOf(sessions) + pending
      && IdsOf(sessions) <= usedIds
    }

    constructor(config: Config, usedIds: set<Uuid>)
      ensures Valid()
      ensures this.config == config && this.usedIds == usedIds
      ensures sessions == [] && names == {} && effects == [] && pending == {}
    {
      this.config := config;
      this.sessions := [];
      this.names := {};
      this.usedIds := usedIds;
      this.effects := [];
      this.pending := {};
    }

    /** The synchronous part of `spawnAsync`: admission and naming. The name
        is held from here on; nothing enters the directory yet. */
    method BeginSpawn(creator: Sender, name: string) returns (r: Result<string, SpawnError>)
      requires Valid()
      modifies this
      ensures Valid()
      ensures r == Admit(config, old(sessions), old(names), creator, name)
      ensures sessions == old(sessions) && usedIds == old(usedIds) && effects == old(effects)
      ensures r.Success? ==> names == old(names) + {r.value} && pending == old(pending) + {r.value}
      ensures r.Failure? ==> names == old(names) && pending == old(pending)
    {
      r := Admit(config, sessions, names, creator, name);
      if r.Success? {
        names := names + {r.value};
        pending := pending + {r.value};
      }
    }

    /** The main-thread step after the entity has spawned: the session joins
        the directory and its id the ledger. */
    method CompleteSpawn(id: Uuid, name: string, creator: Sender, removeAt: Option<int>)
      requires Valid() && name in pending && !IsFake(sessions, id)
      modifies this
      ensures Valid()
      ensures sessions == old(sessions) + [Session(id, name, creator, creator.address, removeAt)]
      ensures usedIds == old(usedIds) + {id}
      ensures names == old(names) && pending == old(pending) - {name} && effects == old(effects)
    {
      var s := Session(id, name, creator, creator.address, removeAt);
      assert name !in NamesOf(sessions);
      forall i | 0 <= i < |sessions|
        ensures sessions[i].id != id && sessions[i].name != name
      {
        assert sessions[i] in sessions;
      }
      sessions := sessions + [s];
      usedIds := usedIds + {id};
      pending := pending - {name};
      assert NamesOf(sessions) == NamesOf(old(sessions)) + {name};
    }

    /** `remove(name, reason)`: kicks the named fake player and answers
        whether there was one. The directory changes only when the kick's
        quit event reaches `Cleanup`. */
    method Remove(name: string, reason: Option<string>) returns (removed: bool)
      modifies this
      ensures removed <==> Get(old(sessions), name).Some?
      ensures effects == old(effects) + (if removed then [Kicked(Get(old(sessions), name).value.id, KickMessage(reason))] else [])
      ensures sessions == old(sessions) && names == old(names) && usedIds == old(usedIds) && pending == old(pending)
    {
      match Get(sessions, name)
      case None =>
        removed := false;
      case Some(s) =>
        effects := effects + [Kicked(s.id, KickMessage(reason))];
        removed := true;
    }

    /** `removeAll`: kicks every live fake player and returns how many. */
    method RemoveAll(reason: Option<string>) returns (count: nat)
      modifies this
      ensures count == |old(sessions)|
      ensures effects == old(effects) + KicksOf(old(sessions), KickMessage(reason))
      ensures sessions == old(sessions) && names == old(names) && usedIds == old(usedIds) && pending == old(pending)
    {
      var fakers := sessions;
      var message := KickMessage(reason);
      var i := 0;
      while i < |fakers|
        invariant 0 <= i <= |fakers|
        invariant sessions == fakers && names == old(names) && usedIds == old(usedIds) && pending == old(pending)
        invariant effects == old(effects) + KicksOf(fakers[..i], message)
      {
        assert fakers[..i + 1][..i] == fakers[..i];
        effects := effects + [Kicked(fakers[i].id, message)];
        i := i + 1;
      }
      assert fakers[..i] == fakers;
      count := |fakers|;
    }

    /** `cleanup`: an unknown id changes nothing. Otherwise the entry leaves
        the directory, its name is released, and a once-only inventory drop
        is set when the configuration asks for one. */
    method Cleanup(id: Uuid)
      requires Valid()
      modifies this
      ensures Valid()
      ensures usedIds == old(usedIds) && pending == old(pending)
      ensures !IsFake(old(sessions), id) ==> sessions == old(sessions) && names == old(names) && effects == old(effects)
      ensures IsFake(old(sessions), id) ==>
        && sessions == Without(old(sessions), id)
        && |sessions| == |old(sessions)| - 1
        && names == old(names) - {FindById(old(sessions), id).value.name}
        && effects == old(effects) + (if config.dropInventoryOnQuiting then [DropInventoryOnce(id)] else [])
    {
      WithoutKeepsUnique(sessions, id);
      match FindById(sessions, id)
      case None =>
      case Some(s) =>
        WithoutLength(sessions, id);
        NamesWithout(sessions, s);
        assert IdsOf(Without(sessions, id)) <= IdsOf(sessions);
        sessions := Without(sessions, id);
        names := names - {s.name};
        if config.dropInventoryOnQuiting {
          effects := effects + [DropInventoryOnce(id)];
        }
    }

    /** `dispatchCommands`: the console runs each command for a live fake player. */
    method DispatchCommands(id: Uuid, commands: seq<string>)
      modifies this
      ensures effects == old(effects) + DispatchEffects(old(sessions), id, commands)
      ensures sessions == old(sessions) && names == old(names) && usedIds == old(usedIds) && pending == old(pending)
    {
      if |commands| == 0 || !IsFake(sessions, id) {
        return;
      }
      var ph := Placeholders(FindById(sessions, id).value);
      var i := 0;
      while i < |commands|
        invariant 0 <= i <= |commands|
        invariant sessions == old(sessions) && names == old(names) && usedIds == old(usedIds) && pending == old(pending)
        invariant effects == old(effects) + DispatchEffects(sessions, id, commands)[..i]
      {
        effects := effects + [Dispatched(commands[i], ph)];
        i := i + 1;
      }
    }

    /** `performCommands`: a live fake player runs each command itself. */
    method PerformCommands(id: Uuid, commands: seq<string>)
      modifies this
      ensures effects == old(effects) + PerformEffects(old(sessions), id, commands)
      ensures sessions == old(sessions) && names == old(names) && usedIds == old(usedIds) && pending == old(pending)
    {
      if |commands| == 0 || !IsFake(sessions, id) {
        return;
      }
      var i := 0;
      while i < |commands|
        invariant 0 <= i <= |commands|
        invariant sessions == old(sessions) && names == old(names) && usedIds == old(usedIds) && pending == old(pending)
        invariant effects == old(effects) + PerformEffects(sessions, id, commands)[..i]
      {
        effects := effects + [Performed(id, commands[i])];
        i := i + 1;
      }
    }

    /** The task run 20 ticks after a spawn: the preparing commands through
        the console, then the self commands as the player. */
    method RunPreparedCommands(id: Uuid)
      modifies this
      ensures effects == old(effects)
        + DispatchEffects(old(sessions), id, config.preparingCommands)
        + PerformEffects(old(sessions), id, config.selfCommands)
      ensures sessions == old(sessions) && names == old(names) && usedIds == old(usedIds) && pending == old(pending)
    {
      DispatchCommands(id, config.preparingCommands);
      PerformCommands(id, config.selfCommands);
    }
  }
}
