/**
  The moderation engine of the bot: the per-message pipeline (`handle_message` with
  `delete_and_log`) and the admin commands (`add_blacklist`, `remove_blacklist`,
  `list_blacklist`), over the module-level state `BLACKLIST_USER_IDS`,
  `BLACKLIST_USERNAMES` and `violations`.

  Calls into the chat platform are not made: each handler returns the sequence of calls it
  would make, as `Effect` values, and the answer of the admin-status lookup is an input.
*/
module Moderation {
  import opened Options
  import opened SpamFilter
  import opened BlacklistStore

  /** `WARN_LIMIT`: a violation whose new count is at most this is warned, a later one banned. */
  const WarnLimit := 2

  datatype ChatType = Private | Group | Supergroup | Channel

  /** The sender or reply target of a message (`from_user`). */
  datatype User = User(id: int, isBot: bool, username: Option<string>)

  /** The parts of an incoming message the handlers read. */
  datatype Message = Message(
    chat: ChatType,
    sender: User,
    text: Option<string>,
    caption: Option<string>,
    replyTo: Option<User>)

  /** What a command answers in the chat (the wording is not modelled). */
  datatype Reply =
    | AdminsOnly
    | Added
    | Removed
    | NeedsReplyTarget
    | Listing(userIds: set<int>, usernames: set<string>)

  /** One call into the chat platform or the file system, in the order the handler makes it. */
  datatype Effect =
    | Delete                   // msg.delete()
    | Save(saved: Blacklist)   // save_blacklist() writing these sets
    | AdminLookup(user: int)   // chat.get_member(uid) inside is_admin
    | Warn(user: int)          // the "this is spam, you are blacklisted" notice
    | Ban(user: int)           // ban_chat_member(chat.id, uid)
    | BanNotice(user: int)     // the "banned" notice
    | Answer(reply: Reply)     // msg.reply_text(...)

  /** Python truthiness of an optional string: `None` and `""` are both false. */
  predicate Truthy(s: Option<string>) {
    s.Some? && s.value != ""
  }

  /** `msg.text or msg.caption or ""`. */
  function Payload(m: Message): string {
    if Truthy(m.text) then m.text.value
    else if Truthy(m.caption) then m.caption.value
    else ""
  }

  /** `user.username or ""`. */
  function NameOrEmpty(u: User): string {
    if Truthy(u.username) then u.username.value else ""
  }

  /** The scope filter: group or supergroup chats only, and never a bot sender. */
  predicate InScope(m: Message) {
    (m.chat == Group || m.chat == Supergroup) && !m.sender.isBot
  }

  /** The reaction to a confirmed violation whose new count is `count`. */
  function Escalation(user: int, count: int): seq<Effect> {
    if count <= WarnLimit then [Warn(user)] else [Ban(user), BanNotice(user)]
  }

  /** The lower-cased username the enforcement records for `u`, when it has one. */
  function NameKeys(lower: string -> string, u: User): set<string> {
    if Truthy(u.username) then {lower(u.username.value)} else {}
  }

  /** No counter disappears or goes down. */
  ghost predicate NeverDecreases(before: map<int, int>, after: map<int, int>) {
    forall uid :: uid in before ==> uid in after && before[uid] <= after[uid]
  }

  class Moderator {
    /** `str.lower`, which the model does not re-implement. */
    const lower: string -> string
    /** `BLACKLIST_USER_IDS`. */
    var userIds: set<int>
    /** `BLACKLIST_USERNAMES`. */
    var usernames: set<string>
    /** `violations`: confirmed spam messages per user id since start-up. */
    var violations: map<int, int>

    /**
      Every recorded count comes from at least one violation, and `lower` leaves the
      empty string empty, as `str.lower` does.
    */
    ghost predicate Valid()
      reads this
    {
      && lower("") == ""
      && forall uid :: uid in violations ==> violations[uid] >= 1
    }

    /** Start-up: empty state, then `load_blacklist`. */
    constructor (lower: string -> string, stored: StoredFile)
      requires lower("") == ""
      ensures Valid()
      ensures this.lower == lower
      ensures Blacklist(userIds, usernames) == Load(stored, Empty)
      ensures violations == map[]
    {
      this.lower := lower;
      var b := Load(stored, Empty);
      userIds, usernames := b.userIds, b.usernames;
      violations := map[];
    }

    /** The two sets as `save_blacklist` writes them. */
    function Snapshot(): Blacklist
      reads this
    {
      Blacklist(userIds, usernames)
    }

    /** `violations.get(uid, 0)`. */
    function Count(uid: int): int
      reads this
    {
      if uid in violations then violations[uid] else 0
    }

    /** The blacklist check: the id is listed, or the lower-cased username (or `""`) is. */
    predicate Blacklisted(u: User)
      reads this
    {
      u.id in userIds || lower(NameOrEmpty(u)) in usernames
    }

    /** `is_spam_text` on the message's text or caption. */
    predicate IsSpamMessage(m: Message) {
      IsSpamText(Some(Payload(m)), lower)
    }

    /** The message reaches the enforcement step of `handle_message`. */
    predicate IsViolation(m: Message, senderIsAdmin: bool)
      reads this
    {
      InScope(m) && !Blacklisted(m.sender) && IsSpamMessage(m) && !senderIsAdmin
    }

    /**
      `delete_and_log`: delete the message; with `autoBlacklist`, also blacklist its
      sender by id and, when it has a username, by lower-cased username, then save.
    */
    method DeleteAndLog(u: User, autoBlacklist: bool) returns (effects: seq<Effect>)
      requires Valid()
      modifies this
      ensures Valid()
      ensures violations == old(violations)
      ensures autoBlacklist ==>
        && userIds == old(userIds) + {u.id}
        && usernames == old(usernames) + NameKeys(lower, u)
        && effects == [Delete, Save(Snapshot())]
      ensures !autoBlacklist ==> unchanged(this) && effects == [Delete]
    {
      effects := [Delete];
      if autoBlacklist {
        userIds := userIds + {u.id};
        if Truthy(u.username) {
          usernames := usernames + {lower(u.username.value)};
        }
        effects := effects + [Save(Snapshot())];
      }
    }

    /**
      `handle_message`: the first matching step decides. Out of scope: nothing. Blacklisted
      sender: delete only. Not spam: nothing. Admin sender: only the lookup. Otherwise a
      confirmed violation: count it, delete, blacklist and save, then warn or ban.
    */
    method HandleMessage(m: Message, senderIsAdmin: bool) returns (effects: seq<Effect>)
      requires Valid()
      modifies this
      ensures Valid()
      ensures NeverDecreases(old(violations), violations)
      ensures !InScope(m) ==> effects == [] && unchanged(this)
      ensures InScope(m) && old(Blacklisted(m.sender)) ==> effects == [Delete] && unchanged(this)
      ensures InScope(m) && !old(Blacklisted(m.sender)) && !IsSpamMessage(m) ==>
        effects == [] && unchanged(this)
      ensures InScope(m) && !old(Blacklisted(m.sender)) && IsSpamMessage(m) && senderIsAdmin ==>
        effects == [AdminLookup(m.sender.id)] && unchanged(this)
      ensures old(IsViolation(m, senderIsAdmin)) ==>
        && violations == old(violations)[m.sender.id := old(Count(m.sender.id)) + 1]
        && userIds == old(userIds) + {m.sender.id}
        && usernames == old(usernames) + NameKeys(lower, m.sender)
        && Blacklisted(m.sender)
        && effects == [AdminLookup(m.sender.id), Delete, Save(Snapshot())]
                      + Escalation(m.sender.id, Count(m.sender.id))
      ensures old(IsViolation(m, senderIsAdmin)) ==>
        && (Warn(m.sender.id) in effects <==> old(Count(m.sender.id)) < WarnLimit)
        && (Ban(m.sender.id) in effects <==> old(Count(m.sender.id)) >= WarnLimit)
      ensures !old(IsViolation(m, senderIsAdmin)) ==> unchanged(this)
    {
      if !(m.chat == Group || m.chat == Supergroup) {
        return [];
      }
      if m.sender.isBot {
        return [];
      }
      var text := Payload(m);
      var uname := lower(NameOrEmpty(m.sender));
      if m.sender.id in userIds || uname in usernames {
        effects := DeleteAndLog(m.sender, false);
        return;
      }
      if !IsSpamText(Some(text), lower) {
        return [];
      }
      effects := [AdminLookup(m.sender.id)];
      if senderIsAdmin {
        return;
      }
      var uid := m.sender.id;
      violations := violations[uid := Count(uid) + 1];
      var deleted := DeleteAndLog(m.sender, true);
      effects := effects + deleted;
      if violations[uid] <= WarnLimit {
        effects := effects + [Warn(uid)];
      } else {
        effects := effects + [Ban(uid), BanNotice(uid)];
      }
    }

    /**
      `add_blacklist`: admins only; blacklists the author of the replied-to message by id
      and, when it has one, by lower-cased username, then saves.
    */
    method AddBlacklist(m: Message, callerIsAdmin: bool) returns (effects: seq<Effect>)
      requires Valid()
      modifies this
      ensures Valid()
      ensures violations == old(violations)
      ensures !callerIsAdmin ==>
        effects == [AdminLookup(m.sender.id), Answer(AdminsOnly)] && unchanged(this)
      ensures callerIsAdmin && m.replyTo.None? ==>
        effects == [AdminLookup(m.sender.id), Answer(NeedsReplyTarget)] && unchanged(this)
      ensures callerIsAdmin && m.replyTo.Some? ==>
        && userIds == old(userIds) + {m.replyTo.value.id}
        && usernames == old(usernames) + NameKeys(lower, m.replyTo.value)
        && Blacklisted(m.replyTo.value)
        && effects == [AdminLookup(m.sender.id), Save(Snapshot()), Answer(Added)]
      ensures callerIsAdmin && m.replyTo.Some?
              && old(m.replyTo.value.id in userIds && NameKeys(lower, m.replyTo.value) <= usernames) ==>
        userIds == old(userIds) && usernames == old(usernames)
    {
      effects := [AdminLookup(m.sender.id)];
      if !callerIsAdmin {
        return effects + [Answer(AdminsOnly)];
      }
      if m.replyTo.Some? {
        var target := m.replyTo.value;
        userIds := userIds + {target.id};
        if Truthy(target.username) {
          usernames := usernames + {lower(target.username.value)};
        }
        return effects + [Save(Snapshot()), Answer(Added)];
      }
      return effects + [Answer(NeedsReplyTarget)];
    }

    /**
      `remove_blacklist`: admins only; discards the id and, when it has one, the lower-cased
      username of the author of the replied-to message, then saves even when nothing was
      listed.
    */
    method RemoveBlacklist(m: Message, callerIsAdmin: bool) returns (effects: seq<Effect>)
      requires Valid()
      modifies this
      ensures Valid()
      ensures violations == old(violations)
      ensures !callerIsAdmin ==>
        effects == [AdminLookup(m.sender.id), Answer(AdminsOnly)] && unchanged(this)
      ensures callerIsAdmin && m.replyTo.None? ==>
        effects == [AdminLookup(m.sender.id), Answer(NeedsReplyTarget)] && unchanged(this)
      ensures callerIsAdmin && m.replyTo.Some? ==>
        && userIds == old(userIds) - {m.replyTo.value.id}
        && usernames == old(usernames) - NameKeys(lower, m.replyTo.value)
        && m.replyTo.value.id !in userIds
        && effects == [AdminLookup(m.sender.id), Save(Snapshot()), Answer(Removed)]
      ensures callerIsAdmin && m.replyTo.Some?
              && old(m.replyTo.value.id !in userIds && NameKeys(lower, m.replyTo.value) !! usernames) ==>
        userIds == old(userIds) && usernames == old(usernames)
    {
      effects := [AdminLookup(m.sender.id)];
      if !callerIsAdmin {
        return effects + [Answer(AdminsOnly)];
      }
      if m.replyTo.Some? {
        var target := m.replyTo.value;
        userIds := userIds - {target.id};
        if Truthy(target.username) {
          usernames := usernames - {lower(target.username.value)};
        }
        return effects + [Save(Snapshot()), Answer(Removed)];
      }
      return effects + [Answer(NeedsReplyTarget)];
    }

    /** `list_blacklist`: answers with both sets, with no admin check and no change. */
    method ListBlacklist() returns (effects: seq<Effect>)
      ensures effects == [Answer(Listing(userIds, usernames))]
    {
      effects := [Answer(Listing(userIds, usernames))];
    }
  }

  /**
    A first offence with an empty stored blacklist: the sender is warned and blacklisted,
    and their next message, spam or not and admin or not, is only deleted.
  */
  method FirstOffenceThenSilence(lower: string -> string, spam: Message, next: Message, nextFromAdmin: bool)
    returns (first: seq<Effect>, second: seq<Effect>)
    requires lower("") == ""
    requires InScope(spam) && IsSpamText(Some(Payload(spam)), lower)
    requires InScope(next) && next.sender == spam.sender
    ensures first == [AdminLookup(spam.sender.id), Delete,
                      Save(Blacklist({spam.sender.id}, NameKeys(lower, spam.sender))), Warn(spam.sender.id)]
    ensures second == [Delete]
  {
    var bot := new Moderator(lower, NoFile);
    assert bot.userIds == {} && bot.usernames == {};
    assert bot.IsViolation(spam, false);
    first := bot.HandleMessage(spam, false);
    assert bot.userIds == {spam.sender.id} && bot.usernames == NameKeys(lower, spam.sender);
    assert bot.Blacklisted(next.sender);
    second := bot.HandleMessage(next, nextFromAdmin);
  }

  /**
    The escalation to a ban: since a violation blacklists the sender, a later violation
    can only be counted after an admin removes them again. The first two counted
    violations warn, the third bans instead.
  */
  method ThirdViolationBans(lower: string -> string, spam: Message, unlist: Message)
    returns (first: seq<Effect>, second: seq<Effect>, third: seq<Effect>)
    requires lower("") == ""
    requires InScope(spam) && IsSpamText(Some(Payload(spam)), lower)
    requires unlist.replyTo == Some(spam.sender)
    ensures var s := spam.sender;
      var saved := Save(Blacklist({s.id}, NameKeys(lower, s)));
      && first == [AdminLookup(s.id), Delete, saved, Warn(s.id)]
      && second == [AdminLookup(s.id), Delete, saved, Warn(s.id)]
      && third == [AdminLookup(s.id), Delete, saved, Ban(s.id), BanNotice(s.id)]
  {
    var s := spam.sender;
    var bot := new Moderator(lower, NoFile);
    assert bot.userIds == {} && bot.usernames == {} && bot.Count(s.id) == 0;
    assert bot.IsViolation(spam, false);
    first := bot.HandleMessage(spam, false);
    assert bot.Snapshot() == Blacklist({s.id}, NameKeys(lower, s)) && bot.Count(s.id) == 1;
    var _ := bot.RemoveBlacklist(unlist, true);
    assert bot.userIds == {} && bot.usernames == {} && bot.Count(s.id) == 1;
    assert bot.IsViolation(spam, false);
    second := bot.HandleMessage(spam, false);
    assert bot.Snapshot() == Blacklist({s.id}, NameKeys(lower, s)) && bot.Count(s.id) == 2;
    var _ := bot.RemoveBlacklist(unlist, true);
    assert bot.userIds == {} && bot.usernames == {} && bot.Count(s.id) == 2;
    assert bot.IsViolation(spam, false);
    third := bot.HandleMessage(spam, false);
    assert bot.Snapshot() == Blacklist({s.id}, NameKeys(lower, s)) && bot.Count(s.id) == 3;
  }
}
