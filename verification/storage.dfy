/**
 * The reply-routing store (storage/inmemory.go): for every message the bot
 * relayed, identified by its chat and message ids, the chat and message it was
 * relayed from. Entries live in a string-to-string table under the key
 * "qbot:<chat>:<msg>" with the value "<chat>:<msg>".
 */
module Storage {
  import opened Wrappers
  import opened Decimal

  /** A message, identified as the chat platform identifies it. */
  datatype MsgRef = MsgRef(chatID: Int64, msgID: Int64)

  /** Why a lookup produced no route. */
  datatype StoreError =
    | NotFound                 // no entry under the key
    | BadNumber(NumError)      // a field of the stored value is not a 64-bit decimal
    | MissingField             // the stored value has no ':'; Go panics indexing parts[1]

  /** What `Get` returns: Go's (int64, int, error) triple. */
  datatype Lookup = Lookup(chatID: Int64, msgID: Int64, err: Option<StoreError>)

  /** `fmt.Sprintf("%d:%d", a, b)`: the stored value, and the tail of every key. */
  function Pair(a: int, b: int): string {
    FormatInt(a) + ":" + FormatInt(b)
  }

  /** `fmt.Sprintf("qbot:%d:%d", chatID, msgID)`. */
  function Key(r: MsgRef): string {
    "qbot:" + Pair(r.chatID, r.msgID)
  }

  /** The value stored for a route's origin. */
  function Value(r: MsgRef): string {
    Pair(r.chatID, r.msgID)
  }

  /**
   * How `Get` reads a stored value: split on ':', parse both fields as
   * base-10 int64. Where Go panics indexing a missing second field, this
   * returns `MissingField`.
   */
  function Decode(v: string): (r: Lookup)
    ensures r.err == Some(MissingField) ==> ':' !in v
    ensures r.err == None ==> ':' in v
  {
    var parts := Split(v);
    var chat := ParseInt(parts[0]);
    if chat.err.Some? then Lookup(0, 0, Some(BadNumber(chat.err.value)))
    else if |parts| < 2 then Lookup(0, 0, Some(MissingField))
    else
      var msg := ParseInt(parts[1]);
      Lookup(chat.value, msg.value, if msg.err.Some? then Some(BadNumber(msg.err.value)) else None)
  }

  /** Every value `Set` writes reads back as the route it encodes, without error. */
  lemma DecodeValue(r: MsgRef)
    ensures Decode(Value(r)) == Lookup(r.chatID, r.msgID, None)
  {
    SplitColonPair(r.chatID, r.msgID);
    ParseFormatInt(r.chatID);
    ParseFormatInt(r.msgID);
  }

  /** Distinct messages get distinct keys, negative chat ids included. */
  lemma KeyInjective(a: MsgRef, b: MsgRef)
    requires Key(a) == Key(b)
    ensures a == b
  {
    var pa, pb := Pair(a.chatID, a.msgID), Pair(b.chatID, b.msgID);
    assert pa == Key(a)[5..] && pb == Key(b)[5..];
    SplitColonPair(a.chatID, a.msgID);
    SplitColonPair(b.chatID, b.msgID);
    assert Split(pa) == Split(pb);
    FormatIntInjective(a.chatID, b.chatID);
    FormatIntInjective(a.msgID, b.msgID);
  }

  /** The in-process store. `routes` is the table `data` encodes. */
  class InMemoryStorage {
    var data: map<string, string>
    ghost var routes: map<MsgRef, MsgRef>

    /** Every entry of `data` is the encoding of one route, and every route is stored. */
    ghost predicate Valid()
      reads this
    {
      && data.Keys == (set r | r in routes :: Key(r))
      && forall r :: r in routes ==> Key(r) in data && data[Key(r)] == Value(routes[r])
    }

    /** `NewInMemoryStorage`: an empty store. */
    constructor ()
      ensures Valid()
      ensures routes == map[] && data == map[]
    {
      data := map[];
      routes := map[];
    }

    /**
     * `Get(chatID, msgID)`: the origin recorded for the message, or (0, 0) and
     * "not found". The parse errors of a malformed value cannot arise, since
     * only `Set` writes the table.
     */
    method Get(chatID: Int64, msgID: Int64) returns (r: Lookup)
      requires Valid()
      ensures MsgRef(chatID, msgID) in routes ==>
                r == Lookup(routes[MsgRef(chatID, msgID)].chatID, routes[MsgRef(chatID, msgID)].msgID, None)
      ensures MsgRef(chatID, msgID) !in routes ==> r == Lookup(0, 0, Some(NotFound))
    {
      var query := Key(MsgRef(chatID, msgID));
      if query !in data {
        return Lookup(0, 0, Some(NotFound));
      }
      ghost var stored :| stored in routes && Key(stored) == query;
      KeyInjective(stored, MsgRef(chatID, msgID));
      var result := data[query];
      r := Decode(result);
      DecodeValue(routes[stored]);
    }

    /**
     * `Set(chatID, msgID, chatID2, msgID2)`: record that the message is routed
     * to (chatID2, msgID2). A second write under the same key replaces the
     * first; no other route changes and none is ever evicted. Never fails.
     */
    method Set(chatID: Int64, msgID: Int64, chatID2: Int64, msgID2: Int64) returns (err: Option<StoreError>)
      requires Valid()
      modifies this
      ensures Valid()
      ensures routes == old(routes)[MsgRef(chatID, msgID) := MsgRef(chatID2, msgID2)]
      ensures data == old(data)[Key(MsgRef(chatID, msgID)) := Value(MsgRef(chatID2, msgID2))]
      ensures err == None
    {
      var from, to := MsgRef(chatID, msgID), MsgRef(chatID2, msgID2);
      data := data[Key(from) := Value(to)];
      routes := routes[from := to];
      forall r | r in routes
        ensures Key(r) in data && data[Key(r)] == Value(routes[r])
      {
        if Key(r) == Key(from) { KeyInjective(r, from); }
      }
      err := None;
    }
  }
}
