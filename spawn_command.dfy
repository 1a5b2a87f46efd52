/**
 * The `spawn`, `kill` and `list` subcommands: where a new fake player
 * appears, which name and deadline it is asked for, how a failure is
 * reported, which fake players `kill` removes and reports, and which ones
 * `list` shows.
 */
module SpawnCommand {
  import opened Wrappers
  import opened JavaStrings
  import opened Domain
  import opened Sequences
  import FM = FakeplayerManager

  // ---------------------------------------------------------------------------
  // spawn

  /** Where the new fake player appears. With both a world and a position
      given, that position facing straight ahead; otherwise a player's own
      location, or else the spawn point of the first world. */
  function SpawnPoint(world: Option<string>, at: Option<Pos>, sender: Sender, senderLocation: Location, firstWorldSpawn: Location): (l: Location)
    ensures world.Some? && at.Some? ==> l == Location(world.value, at.value, Rot(0.0, 0.0))
    ensures (world.None? || at.None?) && sender.IsPlayer() ==> l == senderLocation
    ensures (world.None? || at.None?) && !sender.IsPlayer() ==> l == firstWorldSpawn
  {
    if world.None? || at.None? then
      if sender.IsPlayer() then senderLocation else firstWorldSpawn
    else Location(world.value, at.value, Rot(0.0, 0.0))
  }

  /** An explicit spawn point never inherits the sender's facing, and the
      sender's world matters only when no explicit point is given. */
  lemma ExplicitPointIgnoresSender(world: string, at: Pos, a: Sender, b: Sender, la: Location, lb: Location, firstWorldSpawn: Location)
    ensures SpawnPoint(Some(world), Some(at), a, la, firstWorldSpawn) == SpawnPoint(Some(world), Some(at), b, lb, firstWorldSpawn)
    ensures SpawnPoint(Some(world), Some(at), a, la, firstWorldSpawn).rot == Rot(0.0, 0.0)
  {
  }

  /** The name asked of the manager: the argument trimmed, or "" without one. */
  function RequestedName(name: Option<string>): (r: string)
    ensures name.None? ==> r == ""
    ensures name.Some? ==> r == Trim(name.value)
  {
    match name
    case None => ""
    case Some(n) => Trim(n)
  }

  /** The requested name never has surrounding spaces or control characters,
      and an absent or all-space argument asks for a sequential name. */
  lemma RequestedNameIsTrimmed(name: Option<string>)
    ensures Trim(RequestedName(name)) == RequestedName(name)
    ensures RequestedName(name) == "" <==> name.None? || forall i :: 0 <= i < |name.value| ==> IsTrimmed(name.value[i])
    ensures RequestedName(name) == "" ==> IsBlank(RequestedName(name))
  {
    if name.Some? {
      TrimIdempotent(name.value);
    }
  }

  /** The removal deadline: the configured lifespan from now, if there is one. */
  function RemovedAt(now: int, lifespan: Option<int>): (r: Option<int>)
    ensures r.Some? <==> lifespan.Some?
    ensures r.Some? ==> r.value - now == lifespan.value
  {
    match lifespan
    case None => None
    case Some(d) => Some(now + d)
  }

  /** Which success message is sent. */
  datatype SuccessVariant = WithoutLifespan | WithLifespan(removeAt: int)

  function Success(removedAt: Option<int>): (v: SuccessVariant)
    ensures v.WithLifespan? <==> removedAt.Some?
    ensures v.WithLifespan? ==> v.removeAt == removedAt.value
  {
    match removedAt
    case None => WithoutLifespan
    case Some(t) => WithLifespan(t)
  }

  /** The success message names the deadline exactly when a lifespan is configured. */
  lemma SuccessNamesTheDeadline(now: int, lifespan: Option<int>)
    ensures Success(RemovedAt(now, lifespan)).WithLifespan? <==> lifespan.Some?
    ensures lifespan.Some? ==> Success(RemovedAt(now, lifespan)).removeAt == now + lifespan.value
  {
  }

  /** A failure of the asynchronous spawn: a `MessageException` carries the
      text shown to the sender; any throwable may have a cause. */
  datatype Throwable = Throwable(messageText: Option<string>, cause: Option<Throwable>) {
    predicate IsMessage() {
      messageText.Some?
    }
  }

  /** What the sender is told. */
  datatype Report = Shown(text: string) | Unknown

  /** The `exceptionally` handler: the failure's own message, else its
      direct cause's message, else the generic error (which is also logged). */
  function Classify(e: Throwable): (r: Report)
    ensures e.IsMessage() ==> r == Shown(e.messageText.value)
    ensures !e.IsMessage() && e.cause.Some? && e.cause.value.IsMessage() ==> r == Shown(e.cause.value.messageText.value)
    ensures r.Unknown? <==> !e.IsMessage() && (e.cause.None? || !e.cause.value.IsMessage())
  {
    if e.IsMessage() then Shown(e.messageText.value)
    else if e.cause.Some? && e.cause.value.IsMessage() then Shown(e.cause.value.messageText.value)
    else Unknown
  }

  /** Only one level of cause is looked at: a message two levels down is
      reported as the generic error. */
  lemma ClassifyLooksOneLevelDeep(text: string)
    ensures Classify(Throwable(None, Some(Throwable(None, Some(Throwable(Some(text), None)))))) == Unknown
    ensures Classify(Throwable(None, Some(Throwable(Some(text), None)))) == Shown(text)
  {
  }

  /** What happens synchronously: the spawn is refused with the manager's
      error, shown at once, or it is under way. */
  datatype SpawnStart =
    | Refused(error: FM.SpawnError)
    | Started(name: string, spawnAt: Location, removedAt: Option<int>)

  /** `spawn`, up to the asynchronous part: the spawn point and deadline are
      chosen, then the manager admits and names the new fake player. */
  method Spawn(m: FM.Manager, sender: Sender, nameArg: Option<string>, world: Option<string>, at: Option<Pos>,
               senderLocation: Location, firstWorldSpawn: Location, now: int, lifespan: Option<int>)
    returns (r: SpawnStart)
    requires m.Valid()
    modifies m
    ensures m.Valid()
    ensures var admitted := FM.Admit(m.config, old(m.sessions), old(m.names), sender, RequestedName(nameArg));
      && (admitted.Failure? ==> r == Refused(admitted.error) && m.names == old(m.names))
      && (admitted.Success? ==>
            r == Started(admitted.value, SpawnPoint(world, at, sender, senderLocation, firstWorldSpawn), RemovedAt(now, lifespan))
            && m.names == old(m.names) + {admitted.value})
    ensures m.sessions == old(m.sessions) && m.effects == old(m.effects) && m.usedIds == old(m.usedIds)
  {
    var spawnAt := SpawnPoint(world, at, sender, senderLocation, firstWorldSpawn);
    var removedAt := RemovedAt(now, lifespan);
    var admitted := m.BeginSpawn(sender, RequestedName(nameArg));
    match admitted
    case Failure(error) =>
      r := Refused(error);
    case Success(name) =>
      r := Started(name, spawnAt, removedAt);
  }

  // ---------------------------------------------------------------------------
  // kill

  const KillReason: string := "command kill"
  const NameSeparator: string := ", "

  /** The names `kill` acts on: the ones given, or else the sender's only
      fake player, or nobody when the sender has none or several. */
  function KillTargets(names: Option<seq<string>>, own: seq<FM.Session>): (r: seq<string>)
    ensures names.Some? ==> r == names.value
    ensures names.None? ==> (|r| == 1 <==> |own| == 1)
    ensures names.None? && |own| == 1 ==> r == [own[0].name]
    ensures names.None? ==> |r| <= 1
  {
    match names
    case Some(ns) => ns
    case None => if |own| == 1 then [own[0].name] else []
  }

  /** The targets whose removal succeeds, in order. */
  function Killed(dir: seq<FM.Session>, targets: seq<string>): (r: seq<string>)
    ensures |r| <= |targets|
  {
    if |targets| == 0 then []
    else
      var last := targets[|targets| - 1];
      Killed(dir, targets[..|targets| - 1]) + (if FM.Get(dir, last).Some? then [last] else [])
  }

  /** The reported names are exactly the targets some fake player holds. */
  lemma {:induction false} KilledAreTheLive(dir: seq<FM.Session>, targets: seq<string>)
    ensures forall n :: n in Killed(dir, targets) <==> n in targets && FM.HasName(dir, n)
  {
    if |targets| > 0 {
      var init := targets[..|targets| - 1];
      KilledAreTheLive(dir, init);
      assert targets == init + [targets[|targets| - 1]];
    }
  }

  lemma KilledStep(dir: seq<FM.Session>, targets: seq<string>, i: nat)
    requires i < |targets|
    ensures Killed(dir, targets[..i + 1]) == Killed(dir, targets[..i]) + (if FM.Get(dir, targets[i]).Some? then [targets[i]] else [])
  {
    assert targets[..i + 1][..i] == targets[..i];
  }

  /** What `kill` tells the sender. */
  datatype KillReport = NoneRemoved | Removed(names: string)

  /** `kill`: with no target the sender is told nothing was removed;
      otherwise every target is removed with the reason "command kill" and
      the names actually removed are reported, joined by ", ". */
  method Kill(m: FM.Manager, sender: Sender, names: Option<seq<string>>) returns (report: KillReport)
    modifies m
    ensures var targets := KillTargets(names, FM.ByCreator(old(m.sessions), sender.name));
      && (|targets| == 0 ==> report == NoneRemoved && m.effects == old(m.effects))
      && (|targets| > 0 ==>
            report == Removed(Join(Killed(old(m.sessions), targets), NameSeparator))
            && m.effects == old(m.effects) + FM.KicksFor(old(m.sessions), targets, FM.KickMessage(Some(KillReason))))
    ensures m.sessions == old(m.sessions) && m.names == old(m.names) && m.usedIds == old(m.usedIds)
  {
    var targets := KillTargets(names, FM.ByCreator(m.sessions, sender.name));
    if |targets| == 0 {
      return NoneRemoved;
    }
    var dir := m.sessions;
    var message := FM.KickMessage(Some(KillReason));
    var removed: seq<string> := [];
    var i := 0;
    while i < |targets|
      invariant 0 <= i <= |targets|
      invariant m.sessions == dir && m.names == old(m.names) && m.usedIds == old(m.usedIds)
      invariant removed == Killed(dir, targets[..i])
      invariant m.effects == old(m.effects) + FM.KicksFor(dir, targets[..i], message)
    {
      KilledStep(dir, targets, i);
      FM.KicksForStep(dir, targets, i, message);
      var ok := m.Remove(targets[i], Some(KillReason));
      if ok {
        removed := removed + [targets[i]];
      }
      i := i + 1;
    }
    assert targets[..i] == targets;
    report := Removed(Join(removed, NameSeparator));
  }

  // ---------------------------------------------------------------------------
  // list

  const DefaultPage: int := 1
  const DefaultPageSize: int := 10

  /** The page and page size `list` asks for. */
  function PageRequest(page: Option<int>, size: Option<int>): (r: (int, int))
    ensures r.0 == page.GetOr(DefaultPage) && r.1 == size.GetOr(DefaultPageSize)
  {
    (page.GetOr(DefaultPage), size.GetOr(DefaultPageSize))
  }

  /** The fake players `list` shows: all of them to an operator, otherwise
      the sender's own. */
  function Listed(dir: seq<FM.Session>, sender: Sender): (r: seq<FM.Session>)
    ensures sender.isOp ==> r == dir
    ensures !sender.isOp ==> forall s :: s in r <==> s in dir && s.creator.name == sender.name
  {
    if sender.isOp then dir else FM.ByCreator(dir, sender.name)
  }

  /** `list` pages over the fake players in directory order. */
  lemma ListedKeepsOrder(dir: seq<FM.Session>, sender: Sender)
    ensures IsSubsequence(Listed(dir, sender), dir)
  {
    if sender.isOp {
      SubsequenceOfItself(dir);
    } else {
      FM.ByCreatorKeepsOrder(dir, sender.name);
    }
  }

  /** A sender who is not an operator sees exactly as many fake players as
      the creator count says, and nobody else's. */
  lemma ListedIsOwnOnly(dir: seq<FM.Session>, sender: Sender, other: FM.Session)
    requires !sender.isOp && other in dir && other.creator.name != sender.name
    ensures other !in Listed(dir, sender)
    ensures |Listed(dir, sender)| == FM.CountByCreator(dir, sender.name)
  {
  }
}
