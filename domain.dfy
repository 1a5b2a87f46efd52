/** Values shared by every part of the plugin: identifiers, command senders and positions. */
module Domain {

  predicate IsHexDigit(c: char) {
    '0' <= c <= '9' || 'a' <= c <= 'f'
  }

  /** The text form of `java.util.UUID`: 36 characters, lower-case hex digits
      with dashes at positions 8, 13, 18 and 23. */
  predicate IsUuidText(u: string) {
    && |u| == 36
    && forall i :: 0 <= i < |u| ==>
         if i == 8 || i == 13 || i == 18 || i == 23 then u[i] == '-' else IsHexDigit(u[i])
  }

  /** A player's unique id, identified with its text form. */
  type Uuid = u: string | IsUuidText(u) witness "00000000-0000-0000-0000-000000000000"

  /** Identity of a command sender: `equals` on Bukkit senders compares this. */
  datatype SenderKey = PlayerKey(id: Uuid) | ConsoleKey | OtherKey(tag: string)

  /** A `CommandSender`: a player, the console, or another sender such as a
      command block. `address` is what the plugin's address helper reports for it. */
  datatype Sender = Sender(key: SenderKey, name: string, isOp: bool, address: string) {
    predicate IsPlayer() {
      key.PlayerKey?
    }
  }

  /** Coordinates and facing. The model only copies and compares them. */
  datatype Pos = Pos(x: real, y: real, z: real)
  datatype Rot = Rot(yaw: real, pitch: real)

  /** A Bukkit `Location`: a world, a position and a facing. */
  datatype Location = Location(world: string, pos: Pos, rot: Rot)
}
