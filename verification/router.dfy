/**
 * The bot's update handlers (main.go): who sent a message (the configured
 * owner or an anonymous user), whether it is a fresh question or a reply,
 * which store entries that reads and writes, and which localized text goes
 * back. The chat platform is an oracle: for each update it says whether the
 * target chat can be looked up and which message ids the messages the bot
 * sends receive, if they are delivered at all.
 */
module Router {
  import opened Wrappers
  import opened Decimal
  import opened Storage
  import opened L10n

  /** The configuration the handlers read (the bot token is not used by them). */
  datatype Config = Config(owner: string, ownerChatID: Int64, ownerLanguage: string)

  /** An incoming text message, with the fields of the update the handlers read. */
  datatype Message = Message(
    chatID: Int64,              // Chat().ID
    msgID: Int64,               // Message().ID
    sender: string,             // Sender.Username
    language: string,           // Sender.LanguageCode
    text: string,
    replyTo: Option<Int64>)     // ReplyTo.ID, or no reply target

  /** The argument of a `Getf` template; formatting it in is not modelled. */
  datatype Arg = IntArg(n: int) | StrArg(s: string)

  /** The body of an outgoing message: plain text, or a template with its argument. */
  datatype Body = Text(text: string) | Template(template: string, arg: Arg)

  /** A message the platform delivered for the bot, with the id the platform gave it. */
  datatype Outgoing = Outgoing(chatID: Int64, msgID: Int64, replyTo: Option<Int64>, body: Body)

  /**
   * What the platform does with this update's calls: whether `ChatByID` finds
   * the chat (it is the identity on ids when it does), the id the relayed
   * message gets (None: sending failed), the id the acknowledgement gets.
   */
  datatype Platform = Platform(chatFound: bool, relayID: Option<Int64>, ackID: Option<Int64>)

  /** The errors a handler returns; Go wraps each with a message. */
  datatype Failure = LookupFailed(cause: StoreError) | ChatUnavailable | SendFailed | SaveFailed | AckFailed

  predicate IsOwner(m: Message, config: Config) {
    m.sender == config.owner
  }

  // ---------------------------------------------------------------------------
  // Commands that only answer

  /**
   * The localization keys of the `/status` answer: for the owner a title and
   * exactly one verdict on the configured owner chat id, for anybody else
   * only "not owner".
   */
  function StatusKeys(m: Message, config: Config): (keys: seq<string>)
    ensures !IsOwner(m, config) <==> keys == ["bot_status_not_owner"]
    ensures IsOwner(m, config) ==> |keys| == 2 && keys[0] == "bot_status_title"
    ensures IsOwner(m, config) ==> (keys[1] == "bot_status_no_id" <==> config.ownerChatID == 0)
    ensures IsOwner(m, config) ==>
              (keys[1] == "bot_status_wrong_id" <==> config.ownerChatID != 0 && config.ownerChatID != m.chatID)
    ensures IsOwner(m, config) ==>
              (keys[1] == "bot_status_ok" <==> config.ownerChatID != 0 && config.ownerChatID == m.chatID)
  {
    if IsOwner(m, config) then
      ["bot_status_title",
       if config.ownerChatID == 0 then "bot_status_no_id"
       else if config.ownerChatID != m.chatID then "bot_status_wrong_id"
       else "bot_status_ok"]
    else ["bot_status_not_owner"]
  }

  /** `handleStatus`: the reply to `/status`, in the sender's language. */
  function StatusReply(m: Message, config: Config, loc: Localizer): (b: Body)
    reads loc
    ensures !IsOwner(m, config) ==> b == Text(loc.Get("bot_status_not_owner", m.language))
    ensures IsOwner(m, config) ==>
              b == Text(loc.Get("bot_status_title", m.language) + loc.Get(StatusKeys(m, config)[1], m.language))
  {
    var keys := StatusKeys(m, config);
    if |keys| == 2 then Text(loc.Get(keys[0], m.language) + loc.Get(keys[1], m.language))
    else Text(loc.Get(keys[0], m.language))
  }

  /** `handleID`: the owner learns the current chat id; nobody else ever sees it. */
  function IDReply(m: Message, config: Config, loc: Localizer): (b: Body)
    reads loc
    ensures b.Template? <==> IsOwner(m, config)
    ensures b.Template? ==> b == Template(loc.Get("your_chat_id", m.language), IntArg(m.chatID))
    ensures b.Text? ==> b.text == loc.Get("bot_status_not_owner", m.language)
  {
    if IsOwner(m, config) then Template(loc.Get("your_chat_id", m.language), IntArg(m.chatID))
    else Text(loc.Get("bot_status_not_owner", m.language))
  }

  /**
   * `handleStart`: the owner gets a status greeting in the configured owner
   * language, a user the welcome text in the user's own language.
   */
  function StartReply(m: Message, config: Config, loc: Localizer): (b: Body)
    reads loc
    ensures b.Template? <==> IsOwner(m, config)
    ensures b.Template? ==> b == Template(loc.Get("bot_status_owner", config.ownerLanguage), StrArg(config.owner))
    ensures b.Text? ==> b.text == loc.Get("user_welcome", m.language)
  {
    if IsOwner(m, config) then Template(loc.Get("bot_status_owner", config.ownerLanguage), StrArg(config.owner))
    else Text(loc.Get("user_welcome", m.language))
  }

  // ---------------------------------------------------------------------------
  // Text handlers, specified on values

  /** The routes in the store and the messages delivered so far. */
  datatype World = World(routes: map<MsgRef, MsgRef>, outbox: seq<Outgoing>)

  /** A handler's effect: the new world and the error it returns. */
  datatype Outcome = Outcome(world: World, err: Option<Failure>)

  /** `context.Reply(text)`: answer the incoming message in its own chat. */
  function Acknowledge(w: World, m: Message, text: string, p: Platform): Outcome {
    if p.ackID.Some? then
      Outcome(World(w.routes, w.outbox + [Outgoing(m.chatID, p.ackID.value, Some(m.msgID), Text(text))]), None)
    else Outcome(w, Some(AckFailed))
  }

  /**
   * A reply to a relayed message, from either side: look up where the
   * replied-to message came from, send the text there as a reply to the
   * original, route the new message back to this one, acknowledge.
   */
  function RelayReplyEffect(w: World, m: Message, loc: Localizer, p: Platform): Outcome
    reads loc
    requires m.replyTo.Some?
  {
    var target := MsgRef(m.chatID, m.replyTo.value);
    if target !in w.routes then Outcome(w, Some(LookupFailed(NotFound)))
    else if !p.chatFound then Outcome(w, Some(ChatUnavailable))
    else if p.relayID.None? then Outcome(w, Some(SendFailed))
    else
      var origin := w.routes[target];
      var relayed := Outgoing(origin.chatID, p.relayID.value, Some(origin.msgID), Text(m.text));
      var w' := World(w.routes[MsgRef(origin.chatID, p.relayID.value) := MsgRef(m.chatID, m.msgID)],
                      w.outbox + [relayed]);
      Acknowledge(w', m, loc.Get("reply_sent", m.language), p)
  }

  /** `handleOwnerText`: a usage hint for a fresh message, a relayed reply otherwise. */
  function OwnerTextEffect(w: World, m: Message, loc: Localizer, p: Platform): Outcome
    reads loc
  {
    if m.replyTo.None? then Acknowledge(w, m, loc.Get("hint_answer", m.language), p)
    else RelayReplyEffect(w, m, loc, p)
  }

  /**
   * `handleUserText`: a reply is relayed back; a fresh question goes to the
   * owner chat, is routed back to the user's message and acknowledged, and
   * whether the acknowledgement arrives does not change the result.
   */
  function UserTextEffect(w: World, m: Message, config: Config, loc: Localizer, p: Platform): Outcome
    reads loc
  {
    if m.replyTo.Some? then RelayReplyEffect(w, m, loc, p)
    else if !p.chatFound then Outcome(w, Some(ChatUnavailable))
    else if p.relayID.None? then Outcome(w, Some(SendFailed))
    else
      var question := Outgoing(config.ownerChatID, p.relayID.value, None,
                               Template(loc.Get("new_question", config.ownerLanguage), StrArg(m.text)));
      var w' := World(w.routes[MsgRef(config.ownerChatID, p.relayID.value) := MsgRef(m.chatID, m.msgID)],
                      w.outbox + [question]);
      Outcome(Acknowledge(w', m, loc.Get("question_sent", m.language), p).world, None)
  }

  /** `handleText`: the owner's path for the owner, the user's path for everyone else. */
  function TextEffect(w: World, m: Message, config: Config, loc: Localizer, p: Platform): Outcome
    reads loc
  {
    if IsOwner(m, config) then OwnerTextEffect(w, m, loc, p) else UserTextEffect(w, m, config, loc, p)
  }

  // ---------------------------------------------------------------------------
  // What the text handlers guarantee

  /** The message the bot relays is the owner's copy of a question or a relayed reply. */
  function Relayed(o: Outgoing): MsgRef {
    MsgRef(o.chatID, o.msgID)
  }

  /** `handleText` splits on the sender alone. */
  lemma TextDispatch(w: World, m: Message, config: Config, loc: Localizer, p: Platform)
    ensures IsOwner(m, config) ==> TextEffect(w, m, config, loc, p) == OwnerTextEffect(w, m, loc, p)
    ensures !IsOwner(m, config) ==> TextEffect(w, m, config, loc, p) == UserTextEffect(w, m, config, loc, p)
  {
  }

  /**
   * A fresh message from the owner only earns the usage hint: no route is
   * read or written and nothing is relayed.
   */
  lemma OwnerHintOnly(w: World, m: Message, config: Config, loc: Localizer, p: Platform)
    requires IsOwner(m, config) && m.replyTo.None?
    ensures var o := TextEffect(w, m, config, loc, p);
            && o.world.routes == w.routes
            && o.world.outbox == w.outbox + (if p.ackID.Some? then
                 [Outgoing(m.chatID, p.ackID.value, Some(m.msgID), Text(loc.Get("hint_answer", m.language)))]
               else [])
            && (o.err == None <==> p.ackID.Some?)
  {
  }

  /**
   * A reply to a message the store has no route for fails with "not found",
   * from either side, and changes nothing.
   */
  lemma UnknownReplyTarget(w: World, m: Message, config: Config, loc: Localizer, p: Platform)
    requires m.replyTo.Some? && MsgRef(m.chatID, m.replyTo.value) !in w.routes
    ensures TextEffect(w, m, config, loc, p) == Outcome(w, Some(LookupFailed(NotFound)))
  {
  }

  /**
   * A transport failure (the chat cannot be looked up, or the relayed message
   * is not delivered) is returned as an error and writes no route.
   */
  lemma TransportFailureWritesNothing(w: World, m: Message, config: Config, loc: Localizer, p: Platform)
    requires !p.chatFound || p.relayID.None?
    requires IsOwner(m, config) ==> m.replyTo.Some?
    ensures var o := TextEffect(w, m, config, loc, p);
            o.world == w && o.err.Some?
  {
  }

  /**
   * A delivered reply, from either side, goes to the origin recorded for the
   * replied-to message, as a reply to it, and the message it became is routed
   * back to the reply; no other route changes.
   */
  lemma RelayDelivers(w: World, m: Message, config: Config, loc: Localizer, p: Platform)
    requires m.replyTo.Some? && MsgRef(m.chatID, m.replyTo.value) in w.routes
    requires p.chatFound && p.relayID.Some?
    ensures var origin := w.routes[MsgRef(m.chatID, m.replyTo.value)];
            var o := TextEffect(w, m, config, loc, p);
            && |o.world.outbox| > |w.outbox|
            && o.world.outbox[..|w.outbox|] == w.outbox
            && o.world.outbox[|w.outbox|] == Outgoing(origin.chatID, p.relayID.value, Some(origin.msgID), Text(m.text))
            && o.world.routes == w.routes[MsgRef(origin.chatID, p.relayID.value) := MsgRef(m.chatID, m.msgID)]
            && (o.err == None <==> p.ackID.Some?)
  {
  }

  /**
   * A fresh question from a user is sent to the owner chat, and the copy the
   * owner receives is routed back to the question; the handler reports
   * success whether or not the acknowledgement arrives.
   */
  lemma QuestionDelivers(w: World, m: Message, config: Config, loc: Localizer, p: Platform)
    requires !IsOwner(m, config) && m.replyTo.None?
    requires p.chatFound && p.relayID.Some?
    ensures var o := TextEffect(w, m, config, loc, p);
            && o.err == None
            && |o.world.outbox| > |w.outbox|
            && o.world.outbox[..|w.outbox|] == w.outbox
            && o.world.outbox[|w.outbox|] == Outgoing(config.ownerChatID, p.relayID.value, None,
                 Template(loc.Get("new_question", config.ownerLanguage), StrArg(m.text)))
            && o.world.routes == w.routes[MsgRef(config.ownerChatID, p.relayID.value) := MsgRef(m.chatID, m.msgID)]
  {
  }

  /** Every route is keyed by a message the bot delivered. */
  ghost predicate RoutesFromOutbox(w: World) {
    forall k :: k in w.routes ==> exists i :: 0 <= i < |w.outbox| && Relayed(w.outbox[i]) == k
  }

  /** Handlers only append to the outbox and key new routes by what they delivered. */
  lemma {:induction false} TextKeepsRoutesFromOutbox(w: World, m: Message, config: Config, loc: Localizer, p: Platform)
    requires RoutesFromOutbox(w)
    ensures var o := TextEffect(w, m, config, loc, p);
            && |w.outbox| <= |o.world.outbox|
            && o.world.outbox[..|w.outbox|] == w.outbox
            && RoutesFromOutbox(o.world)
  {
    var o := TextEffect(w, m, config, loc, p);
    var n := |w.outbox|;
    if o.world.routes != w.routes {
      assert p.chatFound && p.relayID.Some?;
      var k :=
        if IsOwner(m, config) || m.replyTo.Some? then
          MsgRef(w.routes[MsgRef(m.chatID, m.replyTo.value)].chatID, p.relayID.value)
        else MsgRef(config.ownerChatID, p.relayID.value);
      assert o.world.routes.Keys == w.routes.Keys + {k};
      assert Relayed(o.world.outbox[n]) == k;
    }
    forall r | r in o.world.routes
      ensures exists i :: 0 <= i < |o.world.outbox| && Relayed(o.world.outbox[i]) == r
    {
      if r in w.routes {
        var i :| 0 <= i < n && Relayed(w.outbox[i]) == r;
        assert o.world.outbox[i] == w.outbox[i];
      } else {
        assert Relayed(o.world.outbox[n]) == r;
      }
    }
  }

  /**
   * The reply chain closes: a user asks, the owner answers the copy from the
   * owner chat, the user answers that answer in their own chat. The answer
   * reaches the user's question and the follow-up reaches the owner's answer.
   */
  lemma ReplyChainCloses(w: World, config: Config, loc: Localizer,
                         question: Message, p1: Platform,
                         answer: Message, p2: Platform,
                         followUp: Message, p3: Platform)
    requires !IsOwner(question, config) && question.replyTo.None?
    requires IsOwner(answer, config) && answer.chatID == config.ownerChatID
    requires !IsOwner(followUp, config) && followUp.chatID == question.chatID
    requires p1.chatFound && p2.chatFound && p3.chatFound
    requires p1.relayID.Some? && p2.relayID.Some? && p3.relayID.Some?
    requires answer.replyTo == Some(p1.relayID.value)
    requires followUp.replyTo == Some(p2.relayID.value)
    ensures var o1 := TextEffect(w, question, config, loc, p1);
            var o2 := TextEffect(o1.world, answer, config, loc, p2);
            var o3 := TextEffect(o2.world, followUp, config, loc, p3);
            && |w.outbox| < |o1.world.outbox| < |o2.world.outbox| < |o3.world.outbox|
            && o2.world.outbox[|o1.world.outbox|]
               == Outgoing(question.chatID, p2.relayID.value, Some(question.msgID), Text(answer.text))
            && o3.world.outbox[|o2.world.outbox|]
               == Outgoing(config.ownerChatID, p3.relayID.value, Some(answer.msgID), Text(followUp.text))
  {
    var o1 := TextEffect(w, question, config, loc, p1);
    QuestionDelivers(w, question, config, loc, p1);
    var o2 := TextEffect(o1.world, answer, config, loc, p2);
    RelayDelivers(o1.world, answer, config, loc, p2);
    RelayDelivers(o2.world, followUp, config, loc, p3);
  }

  /** The worlds a sequence of text updates passes through, starting from `w`. */
  ghost function Replay(w: World, ms: seq<Message>, config: Config, loc: Localizer, ps: seq<Platform>): (ws: seq<World>)
    reads loc
    requires |ms| == |ps|
    ensures |ws| == |ms| + 1 && ws[0] == w
    ensures forall k :: 0 <= k < |ms| ==> ws[k + 1] == TextEffect(ws[k], ms[k], config, loc, ps[k]).world
    decreases |ms|
  {
    if ms == [] then [w]
    else [w] + Replay(TextEffect(w, ms[0], config, loc, ps[0]).world, ms[1..], config, loc, ps[1..])
  }

  /** The chat in which the `k`-th message of a conversation is delivered. */
  function DeliveredChat(ms: seq<Message>, config: Config, k: nat): Int64
    requires k < |ms|
  {
    if k == 0 then config.ownerChatID else ms[k - 1].chatID
  }

  /**
   * A conversation: a user's fresh question, then messages each replying,
   * in the chat where it arrived, to the message the bot delivered for the
   * one before; the platform delivers every relayed message.
   */
  ghost predicate Conversation(ms: seq<Message>, ps: seq<Platform>, config: Config) {
    && |ms| == |ps| && 0 < |ms|
    && !IsOwner(ms[0], config) && ms[0].replyTo.None?
    && (forall k :: 0 <= k < |ps| ==> ps[k].chatFound && ps[k].relayID.Some?)
    && (forall k :: 1 <= k < |ms| ==>
          ms[k].chatID == DeliveredChat(ms, config, k - 1) && ms[k].replyTo == Some(ps[k - 1].relayID.value))
  }

  /**
   * However long a conversation runs, every message after the question
   * reaches the message it answers, as a reply to it, and the copy it became
   * is routed back to it.
   */
  lemma {:induction false} ConversationStaysRouted(w: World, ms: seq<Message>, config: Config, loc: Localizer,
                                                   ps: seq<Platform>, k: nat)
    requires Conversation(ms, ps, config) && k < |ms|
    ensures var ws := Replay(w, ms, config, loc, ps);
            && MsgRef(DeliveredChat(ms, config, k), ps[k].relayID.value) in ws[k + 1].routes
            && ws[k + 1].routes[MsgRef(DeliveredChat(ms, config, k), ps[k].relayID.value)]
               == MsgRef(ms[k].chatID, ms[k].msgID)
            && |ws[k].outbox| < |ws[k + 1].outbox|
            && (0 < k ==> ws[k + 1].outbox[|ws[k].outbox|]
                          == Outgoing(ms[k - 1].chatID, ps[k].relayID.value, Some(ms[k - 1].msgID), Text(ms[k].text)))
  {
    var ws := Replay(w, ms, config, loc, ps);
    assert ws[k + 1] == TextEffect(ws[k], ms[k], config, loc, ps[k]).world;
    if k == 0 {
      QuestionDelivers(ws[0], ms[0], config, loc, ps[0]);
    } else {
      ConversationStaysRouted(w, ms, config, loc, ps, k - 1);
      RelayDelivers(ws[k], ms[k], config, loc, ps[k]);
    }
  }

  // ---------------------------------------------------------------------------
  // The handlers, operating on the store and the bot's outbox

  /** The chat platform as the handlers see it: what it has delivered. */
  class Bot {
    var outbox: seq<Outgoing>

    constructor ()
      ensures outbox == []
    {
      outbox := [];
    }

    /**
     * `Send`/`Reply`: deliver `body` to chat `chatID`, optionally as a reply;
     * `id` is the id the platform gives the message, None if it fails.
     */
    method Send(chatID: Int64, replyTo: Option<Int64>, body: Body, id: Option<Int64>) returns (sent: Option<MsgRef>)
      modifies this
      ensures sent == if id.Some? then Some(MsgRef(chatID, id.value)) else None
      ensures outbox == if id.Some? then old(outbox) + [Outgoing(chatID, id.value, replyTo, body)]
                        else old(outbox)
    {
      if id.None? {
        return None;
      }
      outbox := outbox + [Outgoing(chatID, id.value, replyTo, body)];
      sent := Some(MsgRef(chatID, id.value));
    }
  }

  /** `context.Reply(text)` on the incoming message. */
  method Reply(bot: Bot, m: Message, text: string, p: Platform) returns (err: Option<Failure>)
    modifies bot
    ensures Outcome(World(map[], bot.outbox), err) == Acknowledge(World(map[], old(bot.outbox)), m, text, p)
  {
    var sent := bot.Send(m.chatID, Some(m.msgID), Text(text), p.ackID);
    err := if sent.None? then Some(AckFailed) else None;
  }

  /** Shared tail of the owner's and the user's reply paths. */
  method RelayReply(m: Message, loc: Localizer, db: InMemoryStorage, bot: Bot, p: Platform)
    returns (err: Option<Failure>)
    requires m.replyTo.Some? && db.Valid()
    modifies db, bot
    ensures db.Valid()
    ensures Outcome(World(db.routes, bot.outbox), err)
            == RelayReplyEffect(World(old(db.routes), old(bot.outbox)), m, loc, p)
  {
    var origin := db.Get(m.chatID, m.replyTo.value);
    if origin.err.Some? {
      return Some(LookupFailed(origin.err.value));
    }
    if !p.chatFound {
      return Some(ChatUnavailable);
    }
    var relayed := bot.Send(origin.chatID, Some(origin.msgID), Text(m.text), p.relayID);
    if relayed.None? {
      return Some(SendFailed);
    }
    var saveErr := db.Set(relayed.value.chatID, relayed.value.msgID, m.chatID, m.msgID);
    if saveErr.Some? {
      return Some(SaveFailed);
    }
    err := Reply(bot, m, loc.Get("reply_sent", m.language), p);
  }

  /** `handleOwnerText`. */
  method HandleOwnerText(m: Message, loc: Localizer, db: InMemoryStorage, bot: Bot, p: Platform)
    returns (err: Option<Failure>)
    requires db.Valid()
    modifies db, bot
    ensures db.Valid()
    ensures Outcome(World(db.routes, bot.outbox), err)
            == OwnerTextEffect(World(old(db.routes), old(bot.outbox)), m, loc, p)
  {
    if m.replyTo.None? {
      err := Reply(bot, m, loc.Get("hint_answer", m.language), p);
      return;
    }
    err := RelayReply(m, loc, db, bot, p);
  }

  /** `handleUserReply`: the user's reply to a message the owner sent through the bot. */
  method HandleUserReply(m: Message, loc: Localizer, db: InMemoryStorage, bot: Bot, p: Platform)
    returns (err: Option<Failure>)
    requires m.replyTo.Some? && db.Valid()
    modifies db, bot
    ensures db.Valid()
    ensures Outcome(World(db.routes, bot.outbox), err)
            == RelayReplyEffect(World(old(db.routes), old(bot.outbox)), m, loc, p)
  {
    err := RelayReply(m, loc, db, bot, p);
  }

  /** `handleUserText`. */
  method HandleUserText(m: Message, config: Config, loc: Localizer, db: InMemoryStorage, bot: Bot, p: Platform)
    returns (err: Option<Failure>)
    requires db.Valid()
    modifies db, bot
    ensures db.Valid()
    ensures Outcome(World(db.routes, bot.outbox), err)
            == UserTextEffect(World(old(db.routes), old(bot.outbox)), m, config, loc, p)
  {
    if m.replyTo.Some? {
      err := HandleUserReply(m, loc, db, bot, p);
      return;
    }
    if !p.chatFound {
      return Some(ChatUnavailable);
    }
    var ownerChatID := config.ownerChatID;
    var msgToOwner := bot.Send(ownerChatID, None,
                               Template(loc.Get("new_question", config.ownerLanguage), StrArg(m.text)), p.relayID);
    if msgToOwner.None? {
      return Some(SendFailed);
    }
    var saveErr := db.Set(ownerChatID, msgToOwner.value.msgID, m.chatID, m.msgID);
    if saveErr.Some? {
      return Some(SaveFailed);
    }
    var _ := Reply(bot, m, loc.Get("question_sent", m.language), p);
    err := None;
  }

  /** `handleText`. */
  method HandleText(m: Message, config: Config, loc: Localizer, db: InMemoryStorage, bot: Bot, p: Platform)
    returns (err: Option<Failure>)
    requires db.Valid()
    modifies db, bot
    ensures db.Valid()
    ensures Outcome(World(db.routes, bot.outbox), err)
            == TextEffect(World(old(db.routes), old(bot.outbox)), m, config, loc, p)
  {
    if IsOwner(m, config) {
      err := HandleOwnerText(m, loc, db, bot, p);
    } else {
      err := HandleUserText(m, config, loc, db, bot, p);
    }
  }
}
