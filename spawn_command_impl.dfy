/**
 * The later `spawn` subcommand. It differs from the earlier one in how it
 * passes the name on, and it refreshes a player's command list once that
 * player owns its first fake player. Spawn point, deadline, success message
 * and failure reporting follow the same rules (`SpawnCommand.SpawnPoint`,
 * `SpawnCommand.RemovedAt`, `SpawnCommand.Success`, `SpawnCommand.Classify`).
 */
module SpawnCommandImpl {
  import opened Wrappers
  import opened JavaStrings
  import opened Domain
  import FM = FakeplayerManager
  import SC = SpawnCommand

  /** The name passed to the manager: an empty argument counts as none, and
      any other is passed on as typed. */
  function NormalizedName(name: Option<string>): (r: Option<string>)
    ensures r.None? <==> name.None? || name.value == ""
    ensures r.Some? ==> r.value == name.value && |r.value| > 0
  {
    if name.Some? && name.value == "" then None else name
  }

  /** This command passes an absent or empty argument on as no name, where
      the earlier command asks for the empty name; and it passes surrounding
      spaces on, where the earlier command trims them. */
  lemma NormalizationAgainstTrim()
    ensures NormalizedName(None).None? && NormalizedName(Some("")).None?
    ensures SC.RequestedName(None) == "" && SC.RequestedName(Some("")) == ""
    ensures NormalizedName(Some(" bot ")) == Some(" bot ")
    ensures SC.RequestedName(Some(" bot ")) == "bot"
  {
    var s := " bot ";
    assert SC.RequestedName(Some("")) == Trim("");
    assert LeadingTrimmed(s) == 1 by {
      assert IsTrimmed(s[0]) && !IsTrimmed(s[1]);
    }
    assert TrailingTrimmed(s) == 1 by {
      assert IsTrimmed(s[4]) && !IsTrimmed(s[3]);
    }
    assert s[1..4] == "bot";
  }

  /** Whether the success callback refreshes the sender's command list: the
      sender is a player that now owns exactly one fake player. */
  predicate RefreshesCommands(dir: seq<FM.Session>, sender: Sender) {
    sender.IsPlayer() && FM.CountByCreator(dir, sender.name) == 1
  }

  /** A player's first fake player triggers the refresh; a later one does
      not, and a console or command-block sender never does. */
  lemma FirstFakePlayerRefreshes(dir: seq<FM.Session>, sender: Sender, s: FM.Session)
    requires s.creator == sender
    ensures RefreshesCommands(dir + [s], sender) <==> sender.IsPlayer() && FM.CountByCreator(dir, sender.name) == 0
  {
    FM.CountsAfterAppend(dir, s, sender.name, sender.address);
  }

  /** What the success callback does. */
  datatype AfterSpawn = AfterSpawn(message: SC.SuccessVariant, refresh: bool)

  /** The success callback, run once the new fake player is in the
      directory `dir`. */
  function OnSpawned(dir: seq<FM.Session>, sender: Sender, removedAt: Option<int>): (r: AfterSpawn)
    ensures r.message.WithLifespan? <==> removedAt.Some?
    ensures r.refresh <==> RefreshesCommands(dir, sender)
  {
    AfterSpawn(SC.Success(removedAt), RefreshesCommands(dir, sender))
  }
}
