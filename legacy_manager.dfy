/**
 * The first plugin version's manager. Fake players are the online players
 * that carry the "creator" metadata; the manager keeps a per-creator name
 * counter, draws ids from a seeded generator, checks limits in its own order,
 * and formats console command lines itself.
 */
module LegacyFakePlayerManager {
  import opened Wrappers
  import opened JavaStrings
  import opened Domain
  import opened Sequences

  /** Java's `int`. */
  newtype i32 = x: int | -0x8000_0000 <= x < 0x8000_0000

  /** `Integer.MAX_VALUE`, which switches a limit off. */
  const IntMax: int := 0x7fff_ffff

  /** `++count` on a Java `int`: wraps from the largest value to the smallest. */
  function Increment(n: i32): (r: i32)
    ensures n as int < IntMax ==> r as int == n as int + 1
    ensures n as int == IntMax ==> r as int == -0x8000_0000
  {
    if n as int == IntMax then -0x8000_0000 else n + 1
  }

  /** The properties this manager reads. */
  datatype Properties = Properties(
    playerLimit: int,
    serverLimit: int,
    detectIp: bool,
    nameTemplate: string,
    preparingCommands: seq<string>)

  /** An online player, with the values stored under the two metadata keys
      the manager attaches to its fake players (any plugin may store more
      than one value under a key). */
  datatype OnlinePlayer = OnlinePlayer(id: Uuid, name: string, creatorMeta: seq<string>, creatorIpMeta: seq<string>)

  /** `isFakePlayer`: the player carries creator metadata. */
  predicate IsFakePlayer(p: OnlinePlayer) {
    |p.creatorMeta| > 0
  }

  /** `getCreator`: the first creator value, if the player has any. */
  function GetCreator(p: OnlinePlayer): (r: Option<string>)
    ensures r.Some? <==> IsFakePlayer(p)
    ensures r.Some? ==> r.value == p.creatorMeta[0]
  {
    if |p.creatorMeta| > 0 then Some(p.creatorMeta[0]) else None
  }

  // ---------------------------------------------------------------------------
  // Queries over the online players

  /** `getFakePlayers()`. */
  function FakePlayers(online: seq<OnlinePlayer>): (r: seq<OnlinePlayer>)
    ensures |r| <= |online|
    ensures forall p :: p in r <==> p in online && IsFakePlayer(p)
  {
    if |online| == 0 then []
    else
      var last := online[|online| - 1];
      FakePlayers(online[..|online| - 1]) + (if IsFakePlayer(last) then [last] else [])
  }

  /** `getFakePlayers(creator)`: the players with this name among their
      creator values. */
  function FakePlayersOf(online: seq<OnlinePlayer>, creatorName: string): (r: seq<OnlinePlayer>)
    ensures |r| <= |FakePlayers(online)|
    ensures forall p :: p in r <==> p in online && creatorName in p.creatorMeta
  {
    if |online| == 0 then []
    else
      var last := online[|online| - 1];
      FakePlayersOf(online[..|online| - 1], creatorName) + (if creatorName in last.creatorMeta then [last] else [])
  }

  /** `getFakePlayers()` keeps the order of the online players. */
  lemma {:induction false} FakePlayersKeepOrder(online: seq<OnlinePlayer>)
    ensures IsSubsequence(FakePlayers(online), online)
  {
    if |online| == 0 {
      SubsequenceOfItself(online);
    } else {
      var init := online[..|online| - 1];
      var last := online[|online| - 1];
      FakePlayersKeepOrder(init);
      SubsequenceExtend(FakePlayers(init), init, last, IsFakePlayer(last));
      assert init + [last] == online;
    }
  }

  /** `getFakePlayers(creator)` keeps the order of the online players. */
  lemma {:induction false} FakePlayersOfKeepOrder(online: seq<OnlinePlayer>, creatorName: string)
    ensures IsSubsequence(FakePlayersOf(online, creatorName), online)
  {
    if |online| == 0 {
      SubsequenceOfItself(online);
    } else {
      var init := online[..|online| - 1];
      var last := online[|online| - 1];
      FakePlayersOfKeepOrder(init, creatorName);
      SubsequenceExtend(FakePlayersOf(init, creatorName), init, last, creatorName in last.creatorMeta);
      assert init + [last] == online;
    }
  }

  /** `countByAddress`: the players with this address among their
      creator-address values. */
  function CountByAddress(online: seq<OnlinePlayer>, address: string): (n: nat)
    ensures n <= |online|
    ensures n > 0 <==> exists i :: 0 <= i < |online| && address in online[i].creatorIpMeta
  {
    if |online| == 0 then 0
    else
      var last := online[|online| - 1];
      assert forall i :: 0 <= i < |online| - 1 ==> online[i] == online[..|online| - 1][i];
      CountByAddress(online[..|online| - 1], address) + (if address in last.creatorIpMeta then 1 else 0)
  }

  /** The server's exact-name player lookup. */
  function PlayerNamed(online: seq<OnlinePlayer>, name: string): (r: Option<OnlinePlayer>)
    ensures r.Some? <==> exists i :: 0 <= i < |online| && online[i].name == name
    ensures r.Some? ==> r.value in online && r.value.name == name
  {
    if |online| == 0 then None
    else if online[0].name == name then Some(online[0])
    else
      assert forall i :: 1 <= i < |online| ==> online[i] == online[1..][i - 1];
      PlayerNamed(online[1..], name)
  }

  /** `getFakePlayer(name)`: the named player when it is fake. */
  function GetFakePlayer(online: seq<OnlinePlayer>, name: string): (r: Option<OnlinePlayer>)
    ensures r.Some? <==> PlayerNamed(online, name).Some? && IsFakePlayer(PlayerNamed(online, name).value)
    ensures r.Some? ==> r.value in online && r.value.name == name && IsFakePlayer(r.value)
  {
    match PlayerNamed(online, name)
    case Some(p) => if IsFakePlayer(p) then Some(p) else None
    case None => None
  }

  /** `getFakePlayer(creator, name)`: the named fake player when this sender made it. */
  function GetOwnedFakePlayer(online: seq<OnlinePlayer>, creator: Sender, name: string): (r: Option<OnlinePlayer>)
    ensures r.Some? <==> GetFakePlayer(online, name).Some? && GetCreator(GetFakePlayer(online, name).value) == Some(creator.name)
    ensures r.Some? ==> r.value.name == name && |r.value.creatorMeta| > 0 && r.value.creatorMeta[0] == creator.name
  {
    match GetFakePlayer(online, name)
    case Some(p) => if GetCreator(p) == Some(creator.name) then Some(p) else None
    case None => None
  }

  // ---------------------------------------------------------------------------
  // Limits

  datatype LegacyLimitError = PlayerLimitReached | ServerLimitReached | AddressLimitReached

  /** The limit checks of `spawnFakePlayer`, in their order: this creator's
      count, then the server's count, then any fake player from the same
      address when `detectIp` is on. Operators bypass all three, and a limit
      of `Integer.MAX_VALUE` is never checked. */
  function LegacyLimit(props: Properties, online: seq<OnlinePlayer>, creator: Sender): (r: Option<LegacyLimitError>)
    ensures creator.isOp ==> r == None
    ensures r == Some(PlayerLimitReached) <==>
      !creator.isOp && props.playerLimit != IntMax && |FakePlayersOf(online, creator.name)| >= props.playerLimit
    ensures r == Some(ServerLimitReached) <==>
      && !creator.isOp && !(props.playerLimit != IntMax && |FakePlayersOf(online, creator.name)| >= props.playerLimit)
      && props.serverLimit != IntMax && |FakePlayers(online)| >= props.serverLimit
    ensures r == Some(AddressLimitReached) ==> props.detectIp && CountByAddress(online, creator.address) >= 1
    ensures r == None && !creator.isOp && props.detectIp ==> CountByAddress(online, creator.address) == 0
  {
    if !creator.isOp && props.playerLimit != IntMax && |FakePlayersOf(online, creator.name)| >= props.playerLimit then
      Some(PlayerLimitReached)
    else if !creator.isOp && props.serverLimit != IntMax && |FakePlayers(online)| >= props.serverLimit then
      Some(ServerLimitReached)
    else if !creator.isOp && props.detectIp && CountByAddress(online, creator.address) >= 1 then
      Some(AddressLimitReached)
    else None
  }

  /** A limit equal to `Integer.MAX_VALUE` never refuses a spawn. */
  lemma MaxValueDisablesLimits(props: Properties, online: seq<OnlinePlayer>, creator: Sender)
    ensures props.playerLimit == IntMax ==> LegacyLimit(props, online, creator) != Some(PlayerLimitReached)
    ensures props.serverLimit == IntMax ==> LegacyLimit(props, online, creator) != Some(ServerLimitReached)
  {
  }

  /** An admitted non-operator stays within every limit that was checked once
      its new fake player is online. */
  lemma LegacyAdmissionKeepsLimits(props: Properties, online: seq<OnlinePlayer>, creator: Sender, p: OnlinePlayer)
    requires !creator.isOp && LegacyLimit(props, online, creator) == None
    requires p.creatorMeta == [creator.name] && p.creatorIpMeta == [creator.address]
    ensures props.playerLimit != IntMax ==> |FakePlayersOf(online + [p], creator.name)| <= props.playerLimit
    ensures props.serverLimit != IntMax ==> |FakePlayers(online + [p])| <= props.serverLimit
    ensures props.detectIp ==> CountByAddress(online + [p], creator.address) == 1
  {
    assert (online + [p])[..|online|] == online;
  }

  // ---------------------------------------------------------------------------
  // Names

  /** The base of a generated name: the template, or the creator's name when
      the template is blank. */
  function NameBase(template: string, creatorName: string): string {
    if IsBlank(template) then creatorName else template
  }

  function Suffix(n: i32): (s: string)
    ensures 2 <= |s| <= 12 && s[0] == '_'
  {
    Int32StringLength(n as int);
    "_" + IntToString(n as int)
  }

  /** `generateName`'s result for counter value `n`: the whole base when base
      and suffix fit in 16 characters, otherwise the base cut so that they
      fill exactly 16. */
  function LegacyName(base: string, n: i32): (r: string)
    ensures |r| <= 16
    ensures |r| == if |base| + |Suffix(n)| <= 16 then |base| + |Suffix(n)| else 16
    ensures |Suffix(n)| <= |r| && r[|r| - |Suffix(n)|..] == Suffix(n)
    ensures r[..|r| - |Suffix(n)|] == base[..|r| - |Suffix(n)|]
  {
    var suffix := Suffix(n);
    var kept := if |base| + |suffix| > 16 then base[..16 - |suffix|] else base;
    var r := kept + suffix;
    assert r[..|kept|] == kept;
    r
  }

  /** The counter value of the next name for a creator. */
  function NextCount(counter: map<string, i32>, creatorName: string): (n: i32)
    ensures creatorName !in counter ==> n == 1
    ensures creatorName in counter && counter[creatorName] as int < IntMax ==> n as int == counter[creatorName] as int + 1
  {
    Increment(if creatorName in counter then counter[creatorName] else 0)
  }

  // ---------------------------------------------------------------------------
  // Ids

  /** The index of the first of `tries` seeded draws, starting at `from`, that
      no online player holds. */
  function SeededPick(seedIds: nat -> Uuid, from: nat, taken: set<Uuid>, tries: nat): (r: Option<nat>)
    ensures r.Some? ==> from <= r.value < from + tries && seedIds(r.value) !in taken
    ensures r.Some? ==> forall k :: from <= k < r.value ==> seedIds(k) in taken
    ensures r.None? ==> forall k :: from <= k < from + tries ==> seedIds(k) in taken
    decreases tries
  {
    if tries == 0 then None
    else if seedIds(from) !in taken then Some(from)
    else SeededPick(seedIds, from + 1, taken, tries - 1)
  }

  /** Number of seeded draws `generateId` makes. */
  const MaxTries: nat := 5

  // ---------------------------------------------------------------------------
  // Console command lines

  /** One line of `dispatchCommands`: trimmed, one leading `/` dropped, `%p`
      and `%u` replaced when more than one character is left, and skipped
      when the result is blank. */
  function FormatLine(line: string, playerName: string, playerId: Uuid): (r: Option<string>)
  {
    var t := Trim(line);
    var u := if StartsWith(t, "/") then t[1..] else t;
    var v := if |u| > 1 then ReplaceAll(ReplaceAll(u, "%p", playerName), "%u", playerId) else u;
    if IsBlank(v) then None else Some(v)
  }

  /** The formatted lines that are dispatched, in order. */
  function FormatAll(lines: seq<string>, playerName: string, playerId: Uuid): (r: seq<string>)
    ensures |r| <= |lines|
  {
    if |lines| == 0 then []
    else
      var last := lines[|lines| - 1];
      FormatAll(lines[..|lines| - 1], playerName, playerId)
        + Dispatchable(FormatLine(last, playerName, playerId))
  }

  /** A formatted line as the list of commands it contributes. */
  function Dispatchable(formatted: Option<string>): seq<string> {
    match formatted
    case Some(c) => [c]
    case None => []
  }

  /** A formatted line is never blank. */
  lemma FormatLineNeverBlank(line: string, playerName: string, playerId: Uuid)
    ensures FormatLine(line, playerName, playerId).Some? ==> !IsBlank(FormatLine(line, playerName, playerId).value)
  {
  }

  /** No blank line is ever dispatched. */
  lemma {:induction false} FormatAllNeverBlank(lines: seq<string>, playerName: string, playerId: Uuid)
    ensures forall c :: c in FormatAll(lines, playerName, playerId) ==> !IsBlank(c)
  {
    if |lines| > 0 {
      FormatAllNeverBlank(lines[..|lines| - 1], playerName, playerId);
      FormatLineNeverBlank(lines[|lines| - 1], playerName, playerId);
    }
  }

  /** One more line extends what has been dispatched by its formatted form. */
  lemma FormatAllStep(before: seq<string>, lines: seq<string>, i: nat, playerName: string, playerId: Uuid)
    requires i < |lines|
    ensures before + FormatAll(lines[..i + 1], playerName, playerId)
      == (before + FormatAll(lines[..i], playerName, playerId)) + Dispatchable(FormatLine(lines[i], playerName, playerId))
  {
    assert lines[..i + 1][..i] == lines[..i];
  }

  /** A line with nothing to trim, no leading `/`, no placeholder and some
      visible character is dispatched exactly as written. */
  lemma {:induction false} FormatLinePassesPlainLines(line: string, playerName: string, playerId: Uuid)
    requires line != [] && !IsTrimmed(line[0]) && !IsTrimmed(line[|line| - 1])
    requires line[0] != '/' && !IsBlank(line)
    requires !Occurs(line, "%p") && !Occurs(line, "%u")
    ensures FormatLine(line, playerName, playerId) == Some(line)
  {
    TrimKeepsTrimmed(line);
    ReplaceAllAbsent(line, "%p", playerName);
    ReplaceAllAbsent(line, "%u", playerId);
  }

  /** Asked to dispatch `say hi` with no preparing commands configured,
      `dispatchCommands` as written dispatches nothing (and still answers
      true), while dispatching its argument would run `say hi`. */
  lemma DispatchIgnoresItsArgument(playerName: string, playerId: Uuid)
    ensures FormatAll([], playerName, playerId) == []
    ensures FormatAll(["say hi"], playerName, playerId) == ["say hi"]
  {
    var line := "say hi";
    assert !Occurs(line, "%p") && !Occurs(line, "%u") by {
      forall i | 0 <= i < |line| ensures !OccursAt(line, "%p", i) && !OccursAt(line, "%u", i) {
        assert line[i] != '%';
      }
    }
    assert !IsBlank(line) by {
      assert !IsWhitespace(line[0]);
    }
    FormatLinePassesPlainLines(line, playerName, playerId);
    assert ["say hi"][..0] == [];
  }

  /** A placeholder is two characters long, so the length guard changes
      nothing: a line of at most one character is left alone by the
      replacements anyway. */
  lemma LengthGuardIsRedundant(u: string, playerName: string, playerId: Uuid)
    requires |u| <= 1
    ensures ReplaceAll(ReplaceAll(u, "%p", playerName), "%u", playerId) == u
  {
  }

  // ---------------------------------------------------------------------------
  // The manager

  class LegacyManager {
    const properties: Properties
    /** Successive values of the world-seeded id generator. */
    const seedIds: nat -> Uuid
    /** `nameCounter`: names generated per creator name. */
    var nameCounter: map<string, i32>
    /** How many seeded ids have been drawn. */
    var drawn: nat
    /** Players kicked, in order. */
    var kicked: seq<Uuid>
    /** Console commands dispatched, in order. */
    var dispatched: seq<string>

    constructor(properties: Properties, seedIds: nat -> Uuid)
      ensures this.properties == properties && this.seedIds == seedIds
      ensures nameCounter == map[] && drawn == 0 && kicked == [] && dispatched == []
    {
      this.properties := properties;
      this.seedIds := seedIds;
      this.nameCounter := map[];
      this.drawn := 0;
      this.kicked := [];
      this.dispatched := [];
    }

    /** `generateName`: raises this creator's counter by one (wrapping like a
        Java `int`), leaves every other counter alone, and names the player
        with the new value. */
    method GenerateName(creator: Sender) returns (name: string)
      modifies this
      ensures nameCounter == old(nameCounter)[creator.name := NextCount(old(nameCounter), creator.name)]
      ensures name == LegacyName(NameBase(properties.nameTemplate, creator.name), NextCount(old(nameCounter), creator.name))
      ensures drawn == old(drawn) && kicked == old(kicked) && dispatched == old(dispatched)
    {
      var base := properties.nameTemplate;
      if IsBlank(base) {
        base := creator.name;
      }
      assert base == NameBase(properties.nameTemplate, creator.name);
      var count: i32 := if creator.name in nameCounter then nameCounter[creator.name] else 0;
      count := Increment(count);
      assert count == NextCount(old(nameCounter), creator.name);
      var suffix := Suffix(count);
      nameCounter := nameCounter[creator.name := count];
      if |base| + |suffix| > 16 {
        name := base[..16 - |suffix|];
      } else {
        name := base;
      }
      name := name + suffix;
      assert name == LegacyName(base, count);
    }

    /** `generateId`: up to five seeded draws, returning the first that no
        online player holds, and the fallback random id when all five are taken. */
    method GenerateId(onlineIds: set<Uuid>, fallback: Uuid) returns (id: Uuid)
      modifies this
      ensures match SeededPick(seedIds, old(drawn), onlineIds, MaxTries)
        case Some(k) => id == seedIds(k) && drawn == k + 1
        case None => id == fallback && drawn == old(drawn) + MaxTries
      ensures nameCounter == old(nameCounter) && kicked == old(kicked) && dispatched == old(dispatched)
    {
      var maxTries := MaxTries;
      while maxTries > 0
        invariant 0 <= maxTries <= MaxTries
        invariant drawn == old(drawn) + (MaxTries - maxTries)
        invariant SeededPick(seedIds, old(drawn), onlineIds, MaxTries) == SeededPick(seedIds, drawn, onlineIds, maxTries)
        invariant nameCounter == old(nameCounter) && kicked == old(kicked) && dispatched == old(dispatched)
      {
        id := seedIds(drawn);
        drawn := drawn + 1;
        if id !in onlineIds {
          return;
        }
        maxTries := maxTries - 1;
      }
      id := fallback;
    }

    /** `removeFakePlayers(creator)`: kicks that creator's fake players,
        forgets only that creator's counter, and returns how many were kicked. */
    method RemoveFakePlayersOf(creator: Sender, online: seq<OnlinePlayer>) returns (count: nat)
      modifies this
      ensures count == |FakePlayersOf(online, creator.name)|
      ensures kicked == old(kicked) + IdsOf(FakePlayersOf(online, creator.name))
      ensures nameCounter == old(nameCounter) - {creator.name}
      ensures drawn == old(drawn) && dispatched == old(dispatched)
    {
      var fakers := FakePlayersOf(online, creator.name);
      KickAll(fakers);
      nameCounter := nameCounter - {creator.name};
      count := |fakers|;
    }

    /** `removeFakePlayers()`: kicks every fake player, clears all counters,
        and returns how many were kicked. */
    method RemoveFakePlayers(online: seq<OnlinePlayer>) returns (count: nat)
      modifies this
      ensures count == |FakePlayers(online)|
      ensures kicked == old(kicked) + IdsOf(FakePlayers(online))
      ensures nameCounter == map[]
      ensures drawn == old(drawn) && dispatched == old(dispatched)
    {
      var fakers := FakePlayers(online);
      KickAll(fakers);
      nameCounter := map[];
      count := |fakers|;
    }

    method KickAll(fakers: seq<OnlinePlayer>)
      modifies this
      ensures kicked == old(kicked) + IdsOf(fakers)
      ensures nameCounter == old(nameCounter) && drawn == old(drawn) && dispatched == old(dispatched)
    {
      var i := 0;
      while i < |fakers|
        invariant 0 <= i <= |fakers|
        invariant kicked == old(kicked) + IdsOf(fakers[..i])
        invariant nameCounter == old(nameCounter) && drawn == old(drawn) && dispatched == old(dispatched)
      {
        assert fakers[..i + 1][..i] == fakers[..i];
        kicked := kicked + [fakers[i].id];
        i := i + 1;
      }
      assert fakers[..i] == fakers;
    }

    /** `removeFakePlayer(name)`: kicks the named fake player, if there is one. */
    method RemoveFakePlayer(name: string, online: seq<OnlinePlayer>) returns (removed: bool)
      modifies this
      ensures removed <==> GetFakePlayer(online, name).Some?
      ensures kicked == old(kicked) + (if removed then [GetFakePlayer(online, name).value.id] else [])
      ensures nameCounter == old(nameCounter) && drawn == old(drawn) && dispatched == old(dispatched)
    {
      match GetFakePlayer(online, name)
      case Some(p) =>
        kicked := kicked + [p.id];
        removed := true;
      case None =>
        removed := false;
    }

    /** Dispatches the formatted form of each line through the console, in
        order, skipping the lines that format to nothing. */
    method DispatchLines(player: OnlinePlayer, lines: seq<string>)
      modifies this
      ensures dispatched == old(dispatched) + FormatAll(lines, player.name, player.id)
      ensures nameCounter == old(nameCounter) && drawn == old(drawn) && kicked == old(kicked)
    {
      var i := 0;
      while i < |lines|
        invariant 0 <= i <= |lines|
        invariant dispatched == old(dispatched) + FormatAll(lines[..i], player.name, player.id)
        invariant nameCounter == old(nameCounter) && drawn == old(drawn) && kicked == old(kicked)
      {
        FormatAllStep(old(dispatched), lines, i, player.name, player.id);
        dispatched := dispatched + Dispatchable(FormatLine(lines[i], player.name, player.id));
        i := i + 1;
      }
      assert lines[..i] == lines;
    }

    /** `dispatchCommands` as written: the guards look at `commands`, but the
        lines dispatched are always the configured preparing commands. */
    method DispatchCommandsAsWritten(player: OnlinePlayer, commands: seq<string>) returns (ok: bool)
      modifies this
      ensures ok <==> |commands| == 0 || IsFakePlayer(player)
      ensures dispatched == old(dispatched)
        + (if |commands| > 0 && IsFakePlayer(player) then FormatAll(properties.preparingCommands, player.name, player.id) else [])
      ensures nameCounter == old(nameCounter) && drawn == old(drawn) && kicked == old(kicked)
    {
      if |commands| == 0 {
        return true;
      }
      if !IsFakePlayer(player) {
        return false;
      }
      DispatchLines(player, properties.preparingCommands);
      ok := true;
    }

    /** `dispatchCommands` dispatching the lines it is given. */
    method DispatchCommands(player: OnlinePlayer, commands: seq<string>) returns (ok: bool)
      modifies this
      ensures ok <==> |commands| == 0 || IsFakePlayer(player)
      ensures dispatched == old(dispatched)
        + (if IsFakePlayer(player) then FormatAll(commands, player.name, player.id) else [])
      ensures nameCounter == old(nameCounter) && drawn == old(drawn) && kicked == old(kicked)
    {
      if |commands| == 0 {
        return true;
      }
      if !IsFakePlayer(player) {
        return false;
      }
      DispatchLines(player, commands);
      ok := true;
    }

    /** `spawnFakePlayer`: the limit checks, then a fresh id and name, the new
        player with its creator and address metadata, and its preparing commands. */
    method SpawnFakePlayer(creator: Sender, online: seq<OnlinePlayer>, fallbackId: Uuid) returns (r: Result<OnlinePlayer, LegacyLimitError>)
      modifies this
      ensures LegacyLimit(properties, online, creator).Some? ==>
        && r == Failure(LegacyLimit(properties, online, creator).value)
        && nameCounter == old(nameCounter) && drawn == old(drawn) && dispatched == old(dispatched)
      ensures LegacyLimit(properties, online, creator).None? ==>
        && r.Success?
        && r.value.name == LegacyName(NameBase(properties.nameTemplate, creator.name), NextCount(old(nameCounter), creator.name))
        && r.value.creatorMeta == [creator.name] && r.value.creatorIpMeta == [creator.address]
        && (match SeededPick(seedIds, old(drawn), set p | p in online :: p.id, MaxTries)
            case Some(k) => r.value.id == seedIds(k) && drawn == k + 1
            case None => r.value.id == fallbackId && drawn == old(drawn) + MaxTries)
        && nameCounter == old(nameCounter)[creator.name := NextCount(old(nameCounter), creator.name)]
        && dispatched == old(dispatched) + FormatAll(properties.preparingCommands, r.value.name, r.value.id)
      ensures kicked == old(kicked)
    {
      var limit := LegacyLimit(properties, online, creator);
      if limit.Some? {
        return Failure(limit.value);
      }
      var id := GenerateId(set p | p in online :: p.id, fallbackId);
      var name := GenerateName(creator);
      var faker := OnlinePlayer(id, name, [creator.name], [creator.address]);
      var _ := DispatchCommands(faker, properties.preparingCommands);
      r := Success(faker);
    }
  }

  /** The ids of a list of players, in order. */
  function IdsOf(players: seq<OnlinePlayer>): (r: seq<Uuid>)
    ensures |r| == |players|
    ensures forall i :: 0 <= i < |r| ==> r[i] == players[i].id
  {
    if |players| == 0 then [] else IdsOf(players[..|players| - 1]) + [players[|players| - 1].id]
  }
}
