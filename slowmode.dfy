/** The `SlowMode` cog: per-channel slow-mode delays and the per-(channel, author) time of the
    last message, used to delete messages sent too soon. The clock is a parameter; deleting a
    message is the `deleted` outcome. The bot owner and the server's mod and admin role names
    are inputs instead of bot settings. */
module Slowmode {
  import opened Wrappers
  import opened Strings
  import opened Numerals

  type ChannelId = string
  type AuthorId = string

  /** What the cog reads of a message: its channel, its author and the author's role names,
      whether the channel is private, and the author's resolved channel permissions. */
  datatype Message = Message(channel: ChannelId, author: AuthorId, roles: seq<string>,
                             isPrivate: bool, resolved: map<string, bool>)

  /** The bot settings `can_bypass` consults. */
  datatype BotSettings = BotSettings(owner: AuthorId, modRole: string, adminRole: string)

  /** `check_permissions`: the owner always passes; otherwise no requested permission means no,
      and every requested permission must have its requested value (a missing one is `None`). */
  function CheckPermissions(msg: Message, owner: AuthorId, perms: map<string, bool>): (granted: bool)
    ensures granted <==> msg.author == owner || (perms != map[] && perms.Items <= msg.resolved.Items)
  {
    if msg.author == owner then true
    else if |perms| == 0 then
      assert perms == map[] by { assert perms.Keys == {}; }
      false
    else
      ItemsSubset(perms, msg.resolved);
      forall name | name in perms :: name in msg.resolved && msg.resolved[name] == perms[name]
  }

  lemma ItemsSubset(perms: map<string, bool>, resolved: map<string, bool>)
    ensures (forall name | name in perms :: name in resolved && resolved[name] == perms[name])
      <==> perms.Items <= resolved.Items
  {
    if forall name | name in perms :: name in resolved && resolved[name] == perms[name] {
      forall item | item in perms.Items
        ensures item in resolved.Items
      {
        assert item.0 in perms;
      }
    }
    if perms.Items <= resolved.Items {
      forall name | name in perms
        ensures name in resolved && resolved[name] == perms[name]
      {
        assert (name, perms[name]) in perms.Items;
      }
    }
  }

  /** `discord.utils.find(check, roles)`: the position of the first role satisfying `check`. */
  function FindRole(check: string -> bool, roles: seq<string>): (found: Option<nat>)
    ensures found.Some? ==>
      && found.value < |roles| && check(roles[found.value])
      && forall j :: 0 <= j < found.value ==> !check(roles[j])
    ensures found.None? ==> forall j :: 0 <= j < |roles| ==> !check(roles[j])
    decreases |roles|
  {
    if |roles| == 0 then None
    else if check(roles[0]) then Some(0)
    else match FindRole(check, roles[1..])
      case None => None
      case Some(i) => Some(i + 1)
  }

  /** `role_or_permissions`: the permission check, or, outside private channels, any role of
      the author satisfying `check`. */
  function RoleOrPermissions(msg: Message, owner: AuthorId, check: string -> bool, perms: map<string, bool>): (allowed: bool)
    ensures allowed <==>
      || CheckPermissions(msg, owner, perms)
      || (!msg.isPrivate && exists i :: 0 <= i < |msg.roles| && check(msg.roles[i]))
  {
    if CheckPermissions(msg, owner, perms) then true
    else if msg.isPrivate then false
    else FindRole(check, msg.roles).Some?
  }

  /** `can_bypass`: the owner, anyone allowed to manage messages, and, outside private channels,
      anyone holding the server's mod or admin role (names compared in lower case). */
  function CanBypass(msg: Message, settings: BotSettings): (exempt: bool)
    ensures exempt <==>
      || msg.author == settings.owner
      || ("manage_messages" in msg.resolved && msg.resolved["manage_messages"])
      || (!msg.isPrivate && exists i :: (0 <= i < |msg.roles|
            && (Lower(msg.roles[i]) == Lower(settings.modRole) || Lower(msg.roles[i]) == Lower(settings.adminRole))))
  {
    var modRole, adminRole := Lower(settings.modRole), Lower(settings.adminRole);
    var perms := map["manage_messages" := true];
    ItemsSubset(perms, msg.resolved);
    RoleOrPermissions(msg, settings.owner, (r: string) => Lower(r) == modRole || Lower(r) == adminRole, perms)
  }

  class SlowMode {
    /** `lastTimeTalkingMap`: (channel, author) -> time of the author's last message there. */
    var lastTimeTalkingMap: map<(ChannelId, AuthorId), int>
    /** `slowDuration`: channel -> slow-mode delay in seconds, 0 when off. */
    var slowDuration: map<ChannelId, int>

    /** Delays are never negative: they come from digit strings or are 0. */
    ghost predicate Valid()
      reads this
    {
      forall c | c in slowDuration :: slowDuration[c] >= 0
    }

    constructor ()
      ensures Valid()
      ensures lastTimeTalkingMap == map[] && slowDuration == map[]
    {
      lastTimeTalkingMap := map[];
      slowDuration := map[];
    }

    /** `slowDuration.get(channel, 0)`. */
    function SlowIn(channel: ChannelId): (r: int)
      reads this
      ensures channel !in slowDuration ==> r == 0
      ensures channel in slowDuration ==> r == slowDuration[channel]
      ensures Valid() ==> r >= 0
    {
      if channel in slowDuration then slowDuration[channel] else 0
    }

    /** The `slowmode` command: a delay made of digits becomes the channel's delay; anything
        else is refused and changes nothing. */
    method Slowmode(channel: ChannelId, delay: string) returns (accepted: bool)
      requires Valid()
      modifies this`slowDuration
      ensures Valid()
      ensures accepted <==> IsDigits(delay)
      ensures accepted ==> ParseInt(delay).Some? && slowDuration == old(slowDuration)[channel := ParseInt(delay).value]
      ensures !accepted ==> slowDuration == old(slowDuration)
    {
      if !IsDigits(delay) {
        return false;
      }
      ParseIntOfDigits(delay);
      slowDuration := slowDuration[channel := ParseInt(delay).value];
      accepted := true;
    }

    /** The `slowoff` command: the channel's delay becomes 0. */
    method Slowoff(channel: ChannelId)
      requires Valid()
      modifies this`slowDuration
      ensures Valid()
      ensures slowDuration == old(slowDuration)[channel := 0]
      ensures SlowIn(channel) == 0
    {
      slowDuration := slowDuration[channel := 0];
    }

    /** The `on_message` listener `limiter`. Exempt authors and channels without slow mode are
        left alone; otherwise the message is deleted when it comes at most the delay after the
        author's previous one there (time 0 if none), and its time is recorded either way. */
    method Limiter(msg: Message, settings: BotSettings, now: int) returns (deleted: bool)
      modifies this`lastTimeTalkingMap
      ensures CanBypass(msg, settings) || SlowIn(msg.channel) == 0 ==>
        !deleted && lastTimeTalkingMap == old(lastTimeTalkingMap)
      ensures !CanBypass(msg, settings) && SlowIn(msg.channel) != 0 ==>
        var key := (msg.channel, msg.author);
        var previous := if key in old(lastTimeTalkingMap) then old(lastTimeTalkingMap)[key] else 0;
        && (deleted <==> now - previous <= SlowIn(msg.channel))
        && lastTimeTalkingMap == old(lastTimeTalkingMap)[key := now]
    {
      if CanBypass(msg, settings) {
        return false;
      }
      var slowInThisChannel := SlowIn(msg.channel);
      if slowInThisChannel == 0 {
        return false;
      }
      var userAndChannel := (msg.channel, msg.author);
      var previous := if userAndChannel in lastTimeTalkingMap then lastTimeTalkingMap[userAndChannel] else 0;
      deleted := now - previous <= slowInThisChannel;
      lastTimeTalkingMap := lastTimeTalkingMap[userAndChannel := now];
    }
  }
}
