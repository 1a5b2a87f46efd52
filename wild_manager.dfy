/**
 * Cross-server presence: on a proxy network the plugin asks the proxy for the
 * names online on every server, keeps the answer as its roster, and removes
 * the fake players whose creator is online nowhere.
 *
 * Plugin messages are modelled as the sequence of strings their fields carry.
 * The iteration order of the creator groups (a hash map in the plugin) is a
 * parameter: any order listing each creator of a live session once.
 */
module WildFakeplayerManager {
  import opened Wrappers
  import opened JavaStrings
  import opened Domain
  import FM = FakeplayerManager

  const Channel: string := "BungeeCord"
  const SubChannel: string := "PlayerList"
  const AllServers: string := "ALL"
  const Separator: string := ", "
  const EvictionReason: string := "creator offline"

  /** What `isPlayerOnline` consults: the console's name, the proxy roster,
      and the names of the players on this server. */
  datatype Presence = Presence(consoleName: string, roster: set<string>, local: set<string>)

  /** `isPlayerOnline`. */
  predicate IsPlayerOnline(p: Presence, name: string) {
    name == p.consoleName || name in p.roster || name in p.local
  }

  // ---------------------------------------------------------------------------
  // Roster replies

  /** How a plugin message is read. `Malformed`: a field is missing before
      anything changes. `Truncated`: the list field is missing, and the read
      fails after the roster has been cleared. */
  datatype Message = NotForUs | Malformed | Truncated | Roster(names: seq<string>)

  predicate IsRosterHeader(channel: string, tokens: seq<string>) {
    channel == Channel && |tokens| >= 2 && tokens[0] == SubChannel && tokens[1] == AllServers
  }

  /** The reading of `onPluginMessageReceived`: the channel must be
      "BungeeCord", the first field "PlayerList" and the second "ALL";
      the third is split on ", ". */
  function Decode(channel: string, tokens: seq<string>): (m: Message)
    ensures m.Roster? <==> IsRosterHeader(channel, tokens) && |tokens| >= 3
    ensures m.Roster? ==> m.names == Split(tokens[2], Separator)
    ensures m.Truncated? <==> IsRosterHeader(channel, tokens) && |tokens| == 2
    ensures m.NotForUs? <==>
      || channel != Channel
      || (|tokens| >= 1 && tokens[0] != SubChannel)
      || (|tokens| >= 2 && tokens[0] == SubChannel && tokens[1] != AllServers)
  {
    if channel != Channel then NotForUs
    else if |tokens| == 0 then Malformed
    else if tokens[0] != SubChannel then NotForUs
    else if |tokens| == 1 then Malformed
    else if tokens[1] != AllServers then NotForUs
    else if |tokens| == 2 then Truncated
    else Roster(Split(tokens[2], Separator))
  }

  /** Reading the proxy's reply to a list of names gives that list back, for
      names free of ',' and a last name that is not empty. */
  lemma DecodeRosterReply(names: seq<string>)
    requires |names| >= 1 && (|names| == 1 || names[|names| - 1] != "")
    requires forall i :: 0 <= i < |names| ==> FreeOf(names[i], ',')
    ensures Decode(Channel, [SubChannel, AllServers, Join(names, Separator)]) == Roster(names)
  {
    SplitJoin(names, Separator);
  }

  // ---------------------------------------------------------------------------
  // Evictions

  /** A removal task scheduled by `cleanup`: the names of one creator's fake
      players, removed with the reason "creator offline". */
  datatype Eviction = Eviction(creator: string, targets: seq<string>)

  /** The names of a list of sessions, in order. */
  function NamesIn(ss: seq<FM.Session>): (r: seq<string>)
    ensures |r| == |ss|
    ensures forall i :: 0 <= i < |r| ==> r[i] == ss[i].name
  {
    if |ss| == 0 then [] else NamesIn(ss[..|ss| - 1]) + [ss[|ss| - 1].name]
  }

  /** The creator names that key the groups of `cleanup`. */
  function CreatorNames(dir: seq<FM.Session>): set<string> {
    set s | s in dir :: s.creator.name
  }

  /** An iteration order over the groups: every creator listed exactly once. */
  predicate IsGroupOrder(order: seq<string>, dir: seq<FM.Session>) {
    && (forall i, j :: 0 <= i < j < |order| ==> order[i] != order[j])
    && (set c | c in order) == CreatorNames(dir)
  }

  /** Whether `cleanup` evicts this group. */
  predicate Evictable(dir: seq<FM.Session>, p: Presence, creator: string) {
    |FM.ByCreator(dir, creator)| > 0 && !IsPlayerOnline(p, creator)
  }

  /** The removals that visiting the groups in `order` schedules when every
      group is visited: one per group whose creator is offline. */
  function Evictions(dir: seq<FM.Session>, p: Presence, order: seq<string>): (r: seq<Eviction>)
    ensures |r| <= |order|
  {
    if |order| == 0 then []
    else
      var c := order[|order| - 1];
      Evictions(dir, p, order[..|order| - 1])
        + (if Evictable(dir, p, c) then [Eviction(c, NamesIn(FM.ByCreator(dir, c)))] else [])
  }

  /** Every scheduled removal names an offline creator and exactly the
      names of that creator's fake players. */
  lemma {:induction false} EvictionsAreOfflineGroups(dir: seq<FM.Session>, p: Presence, order: seq<string>)
    ensures forall e :: e in Evictions(dir, p, order) ==>
      && e.creator in order && !IsPlayerOnline(p, e.creator)
      && e.targets == NamesIn(FM.ByCreator(dir, e.creator)) && |e.targets| > 0
  {
    if |order| > 0 {
      EvictionsAreOfflineGroups(dir, p, order[..|order| - 1]);
      assert forall c :: c in order[..|order| - 1] ==> c in order;
    }
  }

  /** A listed creator with fake players is evicted exactly when offline. */
  lemma {:induction false} EvictedIffOffline(dir: seq<FM.Session>, p: Presence, order: seq<string>, creator: string)
    requires creator in order && |FM.ByCreator(dir, creator)| > 0
    ensures (exists e :: e in Evictions(dir, p, order) && e.creator == creator) <==> !IsPlayerOnline(p, creator)
  {
    EvictionsAreOfflineGroups(dir, p, order);
    var c := order[|order| - 1];
    var init := order[..|order| - 1];
    if c == creator {
      if !IsPlayerOnline(p, creator) {
        var e := Eviction(c, NamesIn(FM.ByCreator(dir, c)));
        assert e in Evictions(dir, p, order);
      }
    } else {
      assert creator in init;
      EvictedIffOffline(dir, p, init, creator);
      if !IsPlayerOnline(p, creator) {
        var e :| e in Evictions(dir, p, init) && e.creator == creator;
        assert e in Evictions(dir, p, order);
      }
    }
  }

  /** Visiting a prefix of the order schedules a prefix of the removals. */
  lemma {:induction false} EvictionsOfPrefix(dir: seq<FM.Session>, p: Presence, order: seq<string>, k: nat)
    requires k <= |order|
    ensures Evictions(dir, p, order[..k]) <= Evictions(dir, p, order)
    decreases |order|
  {
    if k < |order| {
      var init := order[..|order| - 1];
      assert order[..k] == init[..k];
      EvictionsOfPrefix(dir, p, init, k);
    } else {
      assert order[..k] == order;
    }
  }

  /** One more group visited: its eviction, if any, comes last. */
  lemma EvictionsStep(dir: seq<FM.Session>, p: Presence, order: seq<string>, i: nat)
    requires i < |order|
    ensures Evictions(dir, p, order[..i + 1]) == Evictions(dir, p, order[..i])
      + (if Evictable(dir, p, order[i]) then [Eviction(order[i], NamesIn(FM.ByCreator(dir, order[i])))] else [])
  {
    assert order[..i + 1][..i] == order[..i];
  }

  /** Where the loop of `cleanup` as written stops: the first group that is
      empty or whose creator is online. */
  function FirstStop(dir: seq<FM.Session>, p: Presence, order: seq<string>): (k: nat)
    ensures k <= |order|
  {
    if |order| == 0 || !Evictable(dir, p, order[0]) then 0
    else 1 + FirstStop(dir, p, order[1..])
  }

  /** Up to the stop, a group is evictable exactly when it lies before it:
      every group before the stop is evicted, and the group at the stop is
      empty or its creator online. */
  lemma {:induction false} FirstStopAt(dir: seq<FM.Session>, p: Presence, order: seq<string>, i: nat)
    requires i < |order| && i <= FirstStop(dir, p, order)
    ensures Evictable(dir, p, order[i]) <==> i < FirstStop(dir, p, order)
  {
    if i > 0 {
      assert Evictable(dir, p, order[0]);
      FirstStopAt(dir, p, order[1..], i - 1);
      assert order[1..][i - 1] == order[i];
    }
  }

  /** `cleanup` as written schedules a prefix of what a full pass schedules,
      so it never evicts an online creator's fake players. */
  lemma AsWrittenEvictsAPrefix(dir: seq<FM.Session>, p: Presence, order: seq<string>)
    ensures Evictions(dir, p, order[..FirstStop(dir, p, order)]) <= Evictions(dir, p, order)
    ensures forall e :: e in Evictions(dir, p, order[..FirstStop(dir, p, order)]) ==> !IsPlayerOnline(p, e.creator)
  {
    EvictionsOfPrefix(dir, p, order, FirstStop(dir, p, order));
    EvictionsAreOfflineGroups(dir, p, order[..FirstStop(dir, p, order)]);
  }

  /** Two sample sessions, one of Bob's and one of Alice's. */
  function SampleSender(name: string): Sender {
    Sender(OtherKey(name), name, false, "10.0.0.1")
  }

  function SampleDirectory(bobs: Uuid, alices: Uuid): seq<FM.Session> {
    [ FM.Session(bobs, "bob_1", SampleSender("bob"), "10.0.0.1", None),
      FM.Session(alices, "alice_1", SampleSender("alice"), "10.0.0.1", None) ]
  }

  const SamplePresence: Presence := Presence("CONSOLE", {"bob"}, {})

  lemma SampleOrderIsGroupOrder(bobs: Uuid, alices: Uuid)
    ensures IsGroupOrder(["bob", "alice"], SampleDirectory(bobs, alices))
  {
    var dir := SampleDirectory(bobs, alices);
    assert CreatorNames(dir) == {"bob", "alice"} by {
      assert dir[0] in dir && dir[1] in dir;
    }
    assert (set c | c in ["bob", "alice"]) == {"bob", "alice"};
  }

  /** Alice's group is her one fake player. */
  lemma SampleAliceGroup(bobs: Uuid, alices: Uuid)
    ensures FM.ByCreator(SampleDirectory(bobs, alices), "alice") == [SampleDirectory(bobs, alices)[1]]
  {
    var dir := SampleDirectory(bobs, alices);
    assert dir[..1][..0] == [] && dir[..1] == [dir[0]];
    assert FM.ByCreator(dir[..1], "alice") == [];
  }

  lemma SampleGroups(bobs: Uuid, alices: Uuid)
    ensures !Evictable(SampleDirectory(bobs, alices), SamplePresence, "bob")
    ensures Evictable(SampleDirectory(bobs, alices), SamplePresence, "alice")
    ensures NamesIn(FM.ByCreator(SampleDirectory(bobs, alices), "alice")) == ["alice_1"]
  {
    var dir := SampleDirectory(bobs, alices);
    SampleAliceGroup(bobs, alices);
    assert NamesIn([dir[1]]) == ["alice_1"];
  }

  /** With Bob online, Alice offline and Bob's group visited first, the
      `return` ends the pass before Alice's group: her fake player stays,
      although a full pass removes it. */
  lemma AsWrittenMissesOfflineCreator(bobs: Uuid, alices: Uuid)
    ensures IsGroupOrder(["bob", "alice"], SampleDirectory(bobs, alices))
    ensures FirstStop(SampleDirectory(bobs, alices), SamplePresence, ["bob", "alice"]) == 0
    ensures Evictions(SampleDirectory(bobs, alices), SamplePresence, ["bob", "alice"]) == [Eviction("alice", ["alice_1"])]
  {
    var dir := SampleDirectory(bobs, alices);
    var order := ["bob", "alice"];
    SampleOrderIsGroupOrder(bobs, alices);
    SampleGroups(bobs, alices);
    assert order[0] == "bob" && order[1] == "alice";
    assert order[..0] == [] && order[..2] == order;
    EvictionsStep(dir, SamplePresence, order, 0);
    assert Evictions(dir, SamplePresence, order[..1]) == [];
    EvictionsStep(dir, SamplePresence, order, 1);
    var alicesNames := NamesIn(FM.ByCreator(dir, "alice"));
    assert Evictions(dir, SamplePresence, order) == [Eviction("alice", alicesNames)];
  }

  // ---------------------------------------------------------------------------
  // The roster query

  /** The request `preCleanup` sends: through one player, on the proxy
      channel, asking for the names on every server. */
  datatype Query = Query(recipient: Uuid, channel: string, payload: seq<string>)

  /** The first online player that is not fake, if any, carries the query. */
  function RosterQuery(dir: seq<FM.Session>, online: seq<Uuid>): (r: Option<Query>)
    ensures r.Some? <==> exists i :: 0 <= i < |online| && !FM.IsFake(dir, online[i])
    ensures r.Some? ==> r.value.recipient in online && !FM.IsFake(dir, r.value.recipient)
    ensures r.Some? ==> r.value.channel == Channel && r.value.payload == [SubChannel, AllServers]
  {
    if |online| == 0 then None
    else if !FM.IsFake(dir, online[0]) then Some(Query(online[0], Channel, [SubChannel, AllServers]))
    else
      assert forall i :: 1 <= i < |online| ==> online[i] == online[1..][i - 1];
      RosterQuery(dir, online[1..])
  }

  /** For each name, whether a live fake player holds it. */
  function Present(dir: seq<FM.Session>, names: seq<string>): (r: seq<bool>)
    ensures |r| == |names|
  {
    seq(|names|, k requires 0 <= k < |names| => FM.Get(dir, names[k]).Some?)
  }

  lemma PresentStep(dir: seq<FM.Session>, names: seq<string>, i: nat)
    requires i < |names|
    ensures Present(dir, names[..i + 1]) == Present(dir, names[..i]) + [FM.Get(dir, names[i]).Some?]
  {
  }

  // ---------------------------------------------------------------------------
  // The manager

  class WildManager {
    const manager: FM.Manager
    const consoleName: string
    /** `bungeePlayers`: the last roster the proxy sent. */
    var bungeePlayers: set<string>
    /** The removal tasks handed to the scheduler, in order. */
    var scheduled: seq<Eviction>

    constructor(manager: FM.Manager, consoleName: string)
      ensures this.manager == manager && this.consoleName == consoleName
      ensures bungeePlayers == {} && scheduled == []
    {
      this.manager := manager;
      this.consoleName := consoleName;
      this.bungeePlayers := {};
      this.scheduled := [];
    }

    /** `onPluginMessageReceived`: a roster reply replaces the whole roster
        and runs `cleanup` as written (which stops at the first group that is
        empty or whose creator is online); a reply without its list field leaves the roster
        empty; anything else changes nothing. */
    method OnPluginMessageReceived(channel: string, tokens: seq<string>, local: set<string>, order: seq<string>)
      requires IsGroupOrder(order, manager.sessions)
      modifies this
      ensures match Decode(channel, tokens)
        case Roster(names) =>
          && bungeePlayers == (set n | n in names)
          && var p := Presence(consoleName, (set n | n in names), local);
             scheduled == old(scheduled) + Evictions(manager.sessions, p, order[..FirstStop(manager.sessions, p, order)])
        case Truncated =>
          bungeePlayers == {} && scheduled == old(scheduled)
        case _ =>
          bungeePlayers == old(bungeePlayers) && scheduled == old(scheduled)
    {
      var m := Decode(channel, tokens);
      match m
      case Roster(names) =>
        bungeePlayers := set n | n in names;
        CleanupAsWritten(local, order);
      case Truncated =>
        bungeePlayers := {};
      case _ =>
    }

    /** `cleanup`, visiting every group and evicting those whose creator is
        offline. */
    method Cleanup(local: set<string>, order: seq<string>)
      requires IsGroupOrder(order, manager.sessions)
      modifies this
      ensures bungeePlayers == old(bungeePlayers)
      ensures scheduled == old(scheduled) + Evictions(manager.sessions, Presence(consoleName, bungeePlayers, local), order)
    {
      var dir := manager.sessions;
      var p := Presence(consoleName, bungeePlayers, local);
      var i := 0;
      while i < |order|
        invariant 0 <= i <= |order|
        invariant bungeePlayers == old(bungeePlayers)
        invariant scheduled == old(scheduled) + Evictions(dir, p, order[..i])
      {
        EvictionsStep(dir, p, order, i);
        var creator := order[i];
        if Evictable(dir, p, creator) {
          scheduled := scheduled + [Eviction(creator, NamesIn(FM.ByCreator(dir, creator)))];
        }
        i := i + 1;
      }
      assert order[..i] == order;
    }

    /** `cleanup` as written: the first empty group or online creator ends
        the whole pass. */
    method CleanupAsWritten(local: set<string>, order: seq<string>)
      requires IsGroupOrder(order, manager.sessions)
      modifies this
      ensures bungeePlayers == old(bungeePlayers)
      ensures scheduled == old(scheduled)
        + Evictions(manager.sessions, Presence(consoleName, bungeePlayers, local), order[..FirstStop(manager.sessions, Presence(consoleName, bungeePlayers, local), order)])
    {
      var dir := manager.sessions;
      var p := Presence(consoleName, bungeePlayers, local);
      var stop := FirstStop(dir, p, order);
      var i := 0;
      while i < |order|
        invariant 0 <= i <= stop
        invariant bungeePlayers == old(bungeePlayers)
        invariant scheduled == old(scheduled) + Evictions(dir, p, order[..i])
      {
        EvictionsStep(dir, p, order, i);
        FirstStopAt(dir, p, order, i);
        var creator := order[i];
        if !Evictable(dir, p, creator) {
          assert i == stop;
          return;
        }
        scheduled := scheduled + [Eviction(creator, NamesIn(FM.ByCreator(dir, creator)))];
        i := i + 1;
      }
    }

    /** The scheduled task of one eviction: `remove` each target with the
        reason "creator offline", answering which were still there. */
    method RunEviction(e: Eviction) returns (removed: seq<bool>)
      modifies manager
      ensures |removed| == |e.targets|
      ensures forall i :: 0 <= i < |removed| ==> (removed[i] <==> FM.Get(manager.sessions, e.targets[i]).Some?)
      ensures manager.effects == old(manager.effects) + FM.KicksFor(manager.sessions, e.targets, FM.KickMessage(Some(EvictionReason)))
      ensures manager.sessions == old(manager.sessions) && manager.names == old(manager.names)
      ensures manager.usedIds == old(manager.usedIds)
    {
      var m := manager;
      var dir := m.sessions;
      var targets := e.targets;
      var message := FM.KickMessage(Some(EvictionReason));
      removed := [];
      var i := 0;
      while i < |targets|
        invariant 0 <= i <= |targets| && |removed| == i
        invariant removed == Present(dir, targets[..i])
        invariant m.effects == old(m.effects) + FM.KicksFor(dir, targets[..i], message)
        invariant m.sessions == dir && m.names == old(m.names) && m.usedIds == old(m.usedIds)
      {
        FM.KicksForStep(dir, targets, i, message);
        PresentStep(dir, targets, i);
        var ok := m.Remove(targets[i], Some(EvictionReason));
        removed := removed + [ok];
        i := i + 1;
      }
      assert targets[..i] == targets;
    }

    /** `preCleanup`: nothing with follow-quitting off; a local `cleanup` as
        written off a proxy network; otherwise the roster query, when a real player is
        online to carry it. */
    method PreCleanup(followQuiting: bool, bungeecord: bool, online: seq<Uuid>, local: set<string>, order: seq<string>)
      returns (query: Option<Query>)
      requires IsGroupOrder(order, manager.sessions)
      modifies this
      ensures bungeePlayers == old(bungeePlayers)
      ensures !followQuiting ==> query == None && scheduled == old(scheduled)
      ensures followQuiting && !bungeecord ==>
        && query == None
        && var p := Presence(consoleName, bungeePlayers, local);
           scheduled == old(scheduled) + Evictions(manager.sessions, p, order[..FirstStop(manager.sessions, p, order)])
      ensures followQuiting && bungeecord ==>
        query == RosterQuery(manager.sessions, online) && scheduled == old(scheduled)
    {
      if !followQuiting {
        return None;
      }
      if !bungeecord {
        CleanupAsWritten(local, order);
        return None;
      }
      query := RosterQuery(manager.sessions, online);
    }
  }
}
