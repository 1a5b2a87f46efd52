/**
 * The `distance` subcommand: how far a fake player is from the sender, per
 * block axis. Players in different worlds get only a "too far" reply.
 */
module DistanceCommand {
  import opened Domain

  /** `Location.toBlockLocation`: the block a location lies in. */
  datatype BlockLocation = BlockLocation(world: string, x: int, y: int, z: int)

  function ToBlock(l: Location): (b: BlockLocation)
    ensures b.world == l.world
    ensures b.x as real <= l.pos.x < b.x as real + 1.0
    ensures b.y as real <= l.pos.y < b.y as real + 1.0
    ensures b.z as real <= l.pos.z < b.z as real + 1.0
  {
    BlockLocation(l.world, l.pos.x.Floor, l.pos.y.Floor, l.pos.z.Floor)
  }

  /** What the sender is told. */
  datatype Reading = TooFar | Axes(x: nat, y: nat, z: nat)

  function Abs(n: int): (r: nat)
    ensures r == n || r == -n
  {
    if n < 0 then -n else n
  }

  /** The per-axis block distances between the target and the sender. */
  function Distance(from: BlockLocation, to: BlockLocation): (r: Reading)
    ensures r.TooFar? <==> from.world != to.world
    ensures r.Axes? ==> r.x == Abs(from.x - to.x) && r.y == Abs(from.y - to.y) && r.z == Abs(from.z - to.z)
  {
    if from.world != to.world then TooFar
    else Axes(Abs(from.x - to.x), Abs(from.y - to.y), Abs(from.z - to.z))
  }

  /** The reading does not depend on which of the two asks. */
  lemma DistanceSymmetric(a: BlockLocation, b: BlockLocation)
    ensures Distance(a, b) == Distance(b, a)
  {
  }

  /** Two locations in the same block are at distance zero on every axis. */
  lemma SameBlockIsZero(a: Location, b: Location)
    requires ToBlock(a) == ToBlock(b)
    ensures Distance(ToBlock(a), ToBlock(b)) == Axes(0, 0, 0)
  {
  }

  /** Zero on every axis means the same block. */
  lemma ZeroIsSameBlock(a: BlockLocation, b: BlockLocation)
    requires Distance(a, b) == Axes(0, 0, 0)
    ensures a == b
  {
  }

  /** Each axis reading obeys the triangle inequality through a third block
      in the same world. */
  lemma AxesTriangle(a: BlockLocation, b: BlockLocation, c: BlockLocation)
    requires a.world == b.world == c.world
    ensures Distance(a, c).x <= Distance(a, b).x + Distance(b, c).x
    ensures Distance(a, c).y <= Distance(a, b).y + Distance(b, c).y
    ensures Distance(a, c).z <= Distance(a, b).z + Distance(b, c).z
  {
  }
}
