/**
 * `_get_user_color_class`: the CSS colour class a transcript line is drawn
 * with. Python's `hash()` on strings is salted per process, so the model
 * takes the hash as a parameter: every statement below holds for any hash.
 */
module Colors {
  import opened Wrappers
  import PyText

  const SystemUser := "System"
  const ColorDefault := "color-default"
  const ColorSystem := "color-system"
  const ColorSelf := "color-self"
  const ColorPlayerClasses := ["color-player1", "color-player2", "color-player3", "color-player4"]

  /** `hash(user) % len(COLOR_PLAYER_CLASSES)`: always a valid palette index, negative hashes included. */
  function PaletteIndex(h: int): (i: nat)
    ensures i < |ColorPlayerClasses|
    ensures i == h - |ColorPlayerClasses| * (h as real / |ColorPlayerClasses| as real).Floor
  {
    PyText.FloorMod(h, |ColorPlayerClasses|)
  }

  /**
   * The prioritised case split: no user, then the system user, then the
   * local player (compared by value), then a hash bucket of the palette.
   */
  function UserColorClass(user: Option<string>, playerName: string, hash: string -> int): (r: string)
    ensures r == ColorDefault || r == ColorSystem || r == ColorSelf || r in ColorPlayerClasses
  {
    match user
    case None => ColorDefault
    case Some(u) =>
      if u == SystemUser then ColorSystem
      else if u == playerName then ColorSelf
      else ColorPlayerClasses[PaletteIndex(hash(u))]
  }

  /** The default class is given exactly when there is no user. */
  lemma DefaultIffNoUser(user: Option<string>, playerName: string, hash: string -> int)
    ensures UserColorClass(user, playerName, hash) == ColorDefault <==> user == None
  {
  }

  /** The system class is given exactly to "System", whatever the local name is. */
  lemma SystemIffSystemUser(user: Option<string>, playerName: string, hash: string -> int)
    ensures UserColorClass(user, playerName, hash) == ColorSystem <==> user == Some(SystemUser)
  {
  }

  /** The self class is given exactly to the local name, unless that name is "System" (checked first). */
  lemma SelfIffOwnName(user: Option<string>, playerName: string, hash: string -> int)
    ensures UserColorClass(user, playerName, hash) == ColorSelf
        <==> user == Some(playerName) && playerName != SystemUser
  {
  }

  /** Every other user gets the palette entry its hash selects. */
  lemma OtherUsersGetPaletteColor(u: string, playerName: string, hash: string -> int)
    requires u != SystemUser && u != playerName
    ensures UserColorClass(Some(u), playerName, hash) == ColorPlayerClasses[PaletteIndex(hash(u))]
    ensures UserColorClass(Some(u), playerName, hash) in ColorPlayerClasses
  {
  }

  /**
   * A user other than the local player and "System" is coloured by its name
   * alone: the local name does not affect which palette entry it gets.
   */
  lemma OtherUserColorIgnoresLocalName(u: string, p1: string, p2: string, hash: string -> int)
    requires u != SystemUser && u != p1 && u != p2
    ensures UserColorClass(Some(u), p1, hash) == UserColorClass(Some(u), p2, hash)
  {
  }

  /** Names in the same hash bucket share a colour (there are only four buckets). */
  lemma SameBucketSameColor(u1: string, u2: string, playerName: string, hash: string -> int)
    requires u1 != SystemUser && u1 != playerName && u2 != SystemUser && u2 != playerName
    requires PaletteIndex(hash(u1)) == PaletteIndex(hash(u2))
    ensures UserColorClass(Some(u1), playerName, hash) == UserColorClass(Some(u2), playerName, hash)
  {
  }

  /**
   * The colour `_add_message` gives the player's own lines: the self class,
   * except when the player chose the name "System".
   */
  lemma OwnLineColor(playerName: string, hash: string -> int)
    ensures UserColorClass(Some(playerName), playerName, hash)
         == if playerName == SystemUser then ColorSystem else ColorSelf
  {
  }
}
