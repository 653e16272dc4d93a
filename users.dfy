/**
 * utils/users.js: the badge tests on a chat user. A user's badges are the
 * keys of the `badges` object Twitch sends, or `None` when it sends null.
 */
module Users {
  import opened Wrappers

  /** The part of a chat user the bot looks at. */
  datatype User = User(displayName: string, badges: Option<set<string>>)

  /** `isAdmin`: the channel's broadcaster or one of its moderators. */
  function IsAdmin(user: User): (admin: bool)
    ensures admin <==> user.badges.Some? && ("broadcaster" in user.badges.value || "moderator" in user.badges.value)
  {
    match user.badges
    case None => false
    case Some(badges) => "broadcaster" in badges || "moderator" in badges
  }

  /** `isSub`: a subscriber or a founder of the channel. */
  function IsSub(user: User): (sub: bool)
    ensures sub <==> user.badges.Some? && ("subscriber" in user.badges.value || "founder" in user.badges.value)
  {
    match user.badges
    case None => false
    case Some(badges) => "subscriber" in badges || "founder" in badges
  }

  /** A user without badges is neither admin nor subscriber. */
  lemma NoBadgesNoRights(name: string)
    ensures !IsAdmin(User(name, None)) && !IsSub(User(name, None))
  {
  }

  /** Subscriber badges never make an admin, and admin badges never make a subscriber. */
  lemma BadgesAreSeparate(name: string, badges: set<string>)
    ensures badges <= {"subscriber", "founder"} ==> !IsAdmin(User(name, Some(badges)))
    ensures badges <= {"broadcaster", "moderator"} ==> !IsSub(User(name, Some(badges)))
  {
    if badges <= {"subscriber", "founder"} {
      assert "broadcaster" !in badges && "moderator" !in badges;
    }
    if badges <= {"broadcaster", "moderator"} {
      assert "subscriber" !in badges && "founder" !in badges;
    }
  }
}
