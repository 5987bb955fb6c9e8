# questionerbot, modelled in Dafny

questionerbot is an anonymous-question relay bot for a chat platform. A user
writes to the bot, and the bot forwards the question to the single configured
owner. The owner answers by replying to the forwarded copy, and the bot
delivers the answer as a reply to the user's original message. Either side can
keep replying, and the bot keeps routing the replies.

The bot tracks routing in a store. For every message it relays, the store
records the chat and message the copy came from. Texts come from per-language
bundles through a localizer with a fallback language.

The project has four modules:

- `decimal.dfy` (module `Decimal`) models the integer text conversions the
  store relies on: Go's `%d` formatting, `strconv.ParseInt(s, 10, 64)`
  together with the `ParseUint` digit scan it uses, and `strings.Split(s, ":")`.
  These follow the Go standard library's behaviour. A syntax error yields 0.
  A range error yields the nearest bound. An overflowing scan stops at once.
- `storage.dfy` (module `Storage`) models the reply-routing store of
  `storage/inmemory.go`. Keys are `"qbot:%d:%d"` texts and values are
  `"%d:%d"` texts. `Decode` follows `Get`'s split-and-parse, except
  that it returns an error where Go panics on a value without `:`.
  `InMemoryStorage` is a class over a `map<string, string>`. Its ghost field
  `routes` holds the table that map encodes, and `Valid()` ties the two
  together.
- `l10n.dfy` (module `L10n`) models `l10n/l10n.go`. Bundles are values.
  `Localizer` is a class whose `AddBundle` updates the bundle map in place.
- `router.dfy` (module `Router`) models the handlers of `main.go`.
  - The command answers `/status`, `/id` and `/start` are functions from the
    message and the configuration to a reply body.
  - The text handlers are methods. They mutate the store and a `Bot` outbox.
    Each one is proved equal to a specification function on a `World` value
    (the routes plus the outbox).
  - Lemmas over those functions state what the handlers guarantee, including
    that the user → owner → user reply chain closes.

The chat platform is an oracle. A `Platform` value says three things for one
update:

- whether `ChatByID` finds the chat (the lookup is the identity on ids);
- which id the relayed message receives, or that sending it failed;
- which id the acknowledgement receives.

The global `LOCALIZER` becomes an explicit `Localizer` parameter.

How the code reports failures:

- `Get` reports a miss through its error result, with (0, 0) as the numbers
  (storage/inmemory.go:22-23).
- A store miss in a reply path is returned as an error, and no message is sent
  (main.go:143-145, 166-168).
- `handleUserText` returns nil whatever `context.Reply` returns
  (main.go:206-207).

## Model

| member | source | states |
|---|---|---|
| `Decimal.FormatNat` | storage/inmemory.go:36 | The digits of `%d` for a non-negative number are non-empty, all decimal digits, and have no leading zero. |
| `Decimal.FormatInt` | storage/inmemory.go:35-36 | `%d` text is non-empty, starts with `-` exactly for negative numbers, and never contains `:`. |
| `Decimal.ParseUint` | storage/inmemory.go:26 | An unsigned parse without error means the text is a non-empty digit string whose decimal value is the result. A syntax error carries 0 and a range error carries 2^64-1. |
| `Decimal.ParseInt` | storage/inmemory.go:26-30 | `ParseInt` always yields an int64. A successful parse means an optional sign followed by a non-empty digit string, and its value is that string's decimal value, negated after `-`. A syntax error carries 0. A range error carries `MinInt64` exactly when the text starts with `-`, and `MaxInt64` otherwise. |
| `Decimal.Split` | storage/inmemory.go:25 | `strings.Split` on `:` gives at least one piece. No piece contains `:`. Joining the pieces with `:` gives back the input. |
| `Decimal.ParseFormatInt` | storage/inmemory.go:26-36 | Every int64, negative ones included, parses back from its `%d` text with no error. |
| `Decimal.FormatIntInjective` | storage/inmemory.go:18 | Distinct int64s have distinct `%d` texts. |
| `Decimal.SplitColonPair` | storage/inmemory.go:25 | The text `"%d:%d"` of two numbers splits into exactly those two numbers' texts. |
| `Storage.Decode` | storage/inmemory.go:25-31 | A decoded value without error has a `:`. `MissingField`, returned where Go panics on `parts[1]`, arises only for a value without `:`. |
| `Storage.DecodeValue` | storage/inmemory.go:25-31 | Every value `Set` writes (`Value`, the `Pair` text `"%d:%d"`) reads back through `Decode` as the pair it encodes, with no error. The parse-error branches are therefore unreachable. |
| `Storage.KeyInjective` | storage/inmemory.go:35 | The key `Key` (`"qbot:"` followed by the `Pair` text) is injective. Distinct (chat, message) pairs never share an entry. |
| `Storage.InMemoryStorage.constructor` | storage/inmemory.go:43-48 | A new store is empty: it has no routes and no entries, so every `Get` reports "not found". |
| `Storage.InMemoryStorage.Get` | storage/inmemory.go:17-32 | A recorded pair returns its origin with no error. An unrecorded pair returns (0, 0) and "not found". `Get` has no `modifies` clause, so the table is unchanged. |
| `Storage.InMemoryStorage.Set` | storage/inmemory.go:34-41 | The route of (chat, msg) becomes (chat2, msg2), stored as `Value` under `Key`. The last write wins and every other route is kept. The table gains exactly the encoded key and value. The store stays valid and the result is always nil. |
| `L10n.Bundle.Get` | l10n/l10n.go:24-29 | A bundle returns its text for a key it holds and the key itself otherwise. |
| `L10n.NewBundle` | l10n/l10n.go:31-33 | The placeholder bundle has code "empty" and display name "Inexistent language", and it translates every key to itself. |
| `L10n.Localizer.constructor` | l10n/l10n.go:57-59 | A new localizer records the fallback locale and has no bundles. |
| `L10n.Localizer.AddBundle` | l10n/l10n.go:61-67 | It errors exactly when the locale code is already registered, and then the map is unchanged, so the first bundle wins. Otherwise it adds the bundle under its code and leaves the rest alone. |
| `L10n.Localizer.Get` | l10n/l10n.go:69-77 | A registered language answers alone, with the key for a missing message and without consulting the fallback. Otherwise the fallback bundle answers if registered. Otherwise the key is returned. |
| `L10n.LocalizerResolution` | l10n/l10n.go:57-77 | Without bundles every request yields its key. Every result is the key or a text of the chosen bundle: the requested language's bundle, or the fallback's when that language is unregistered. In a valid localizer the answering bundle carries that locale code. |
| `Router.StatusKeys` | main.go:95-110 | The owner gets `bot_status_title` and exactly one verdict. The verdict is `no_id` iff the owner chat id is 0, `wrong_id` iff it is set and differs from this chat, and `ok` iff it equals this chat. Anyone else gets only `bot_status_not_owner`. |
| `Router.StatusReply` | main.go:95-110 | The `/status` reply is the title followed by the verdict text for the owner, and the "not owner" text for anyone else, both in the sender's language. |
| `Router.IDReply` | main.go:112-119 | The chat id appears in the reply exactly when the sender is the owner. A non-owner gets only the "not owner" text. |
| `Router.StartReply` | main.go:121-127 | The owner gets the status greeting in the configured owner language, carrying the owner's name. A user gets the welcome text in the user's own language. |
| `Router.Bot.Send` | main.go:198-201 | A delivered message is appended to the outbox with the id the platform assigned and is returned as a (chat, id) pair. An undelivered one changes nothing. |
| `Router.Reply` | main.go:160 | The method behaves as `Acknowledge`: the acknowledgement answers the incoming message in its own chat. When it is not delivered, the result is an error. |
| `Router.RelayReply` | main.go:142-160 | The method behaves as `RelayReplyEffect`. The steps run in order: store lookup, chat lookup, send, route write, acknowledgement. It stops with an error at the first failure. |
| `Router.HandleOwnerText` | main.go:137-161 | The store and outbox evolve as `OwnerTextEffect` says: a hint for a fresh message, and a relayed reply (`RelayReplyEffect`) otherwise. |
| `Router.HandleUserReply` | main.go:163-184 | The store and outbox evolve as `RelayReplyEffect` says. |
| `Router.HandleUserText` | main.go:186-208 | The store and outbox evolve as `UserTextEffect` says. A reply is relayed. A fresh question is forwarded to the owner and routed back. |
| `Router.HandleText` | main.go:129-135 | The store and outbox evolve as `TextEffect` says, which dispatches on the sender to `OwnerTextEffect` or `UserTextEffect`. |
| `Router.TextDispatch` | main.go:129-135 | Text from the owner takes the owner path and text from anyone else takes the user path. |
| `Router.OwnerHintOnly` | main.go:137-141 | A fresh owner message leaves the routes unchanged and relays nothing. Its only effect is the `hint_answer` reply, and it succeeds iff that reply is delivered. |
| `Router.UnknownReplyTarget` | main.go:142-145 | A reply, on either side, to a message without a route fails with "not found". It sends nothing and writes nothing. |
| `Router.TransportFailureWritesNothing` | main.go:146-155 | If the chat lookup or the relayed send fails, the error is returned and the world is unchanged. |
| `Router.RelayDelivers` | main.go:146-160 | A delivered reply goes, as a reply, to the stored origin of the replied-to message. The new message is routed back to the reply and no other route changes. Success follows the acknowledgement. |
| `Router.QuestionDelivers` | main.go:186-207 | A user's fresh question reaches the owner chat as `new_question`, and the owner's copy is routed back to the question. The handler returns nil whatever happens to the acknowledgement. |
| `Router.TextKeepsRoutesFromOutbox` | main.go:156 | Handlers only append to the outbox. Every route stays keyed by a message the bot delivered. |
| `Router.ReplyChainCloses` | main.go:142-202 | Take a question, an owner answer to its copy sent from the owner chat, and a user follow-up to that answer. The answer reaches the user's question, and the follow-up reaches the owner's answer. |
| `Router.Replay` | main.go:129-135 | Replaying a sequence of text updates passes through one world per update, each the effect of `handleText` on the one before. |
| `Router.ConversationStaysRouted` | main.go:142-202 | Take a conversation of any length: a user's question, then replies in turn, each in the chat where the previous message arrived and to the copy the bot delivered. Every reply reaches the message it answers, as a reply to it, and its own copy is routed back to it. |

## Left out

- `storage/storage.go`: the `Storage` interface has no behaviour of its own. The handlers are modelled against `InMemoryStorage` directly.
- `storage/redis.go`: a wrapper over a network key-value client. It uses the same key and value texts, so `Storage.KeyInjective` and `Storage.DecodeValue` cover its format.
- The mutex in `InMemoryStorage`: the store is modelled single-threaded, so concurrent handlers are not modelled.
- Go's `int` is taken to be 64 bits wide. The `int(resultMsgID)` conversion is therefore the identity.
- `Localizer.Getf`: `fmt.Sprintf` over variadic arguments is not modelled. A formatted reply is the pair of its template text and its argument (`Router.Body.Template`).
- TOML decoding and file I/O: `NewBundleFromString`, `NewBundleFromFile`, `readConfig`, and the locale loading in `init`.
- Process start-up and shut-down: `main` (flags, bot construction, handler registration, polling) and `gracefulShutdownHandler` (signals, `os.Exit`).
- `handleLanguage`: it only echoes a platform field.
- The chat platform (`ChatByID`, `Send`, `Reply`) is the `Platform` oracle. Its failures are not distinguished further, and the wording of wrapped errors is not modelled.
- Router.StatusReply: models only the reply body. The error `context.Reply` may return is not modelled; the same holds for `Router.IDReply` and `Router.StartReply`.
- Storage.Decode: where Go panics indexing `parts[1]` of a value without `:`, the model returns `MissingField`. This is unreachable, because only `Set` writes the table.
- The `SaveFailed` error after a `Set` mirrors the check in the code (main.go:157, 180, 203). It is unreachable, because `Set` never fails.
