/** The event payload of `report_to_backend`: the event type and its data,
    then each optional field only when its value is truthy, in a fixed
    order. Posting it to the backend is not modelled. */
module Reporting {
  import opened Wrappers
  import Api

  datatype Json =
    | JNull
    | JBool(b: bool)
    | JInt(i: int)
    | JStr(s: string)
    | JList(items: seq<Json>)
    | JObject(fields: seq<(string, Json)>)

  /** The payload keys, in the order the bot adds them. */
  datatype Key = EventType | Data | TelegramUserId | TelegramUsername | ChatId | Description

  /** The JSON name of each key. */
  function KeyName(k: Key): string {
    match k
    case EventType => "event_type"
    case Data => "data"
    case TelegramUserId => "telegram_user_id"
    case TelegramUsername => "telegram_username"
    case ChatId => "chat_id"
    case Description => "description"
  }

  /** Distinct keys have distinct JSON names, so a payload with distinct
      keys serialises to an object with distinct member names. */
  lemma KeyNamesDistinct(a: Key, b: Key)
    requires a != b
    ensures KeyName(a) != KeyName(b)
  {
    assert |KeyName(a)| != |KeyName(b)|;
  }

  type Payload = seq<(Key, Json)>

  /** The value under `key`, as a dictionary lookup. */
  function Lookup(p: Payload, key: Key): Option<Json> {
    if p == [] then None
    else if p[0].0 == key then Some(p[0].1)
    else Lookup(p[1..], key)
  }

  /** Python truthiness of an optional id: present and non-zero. */
  predicate TruthyInt(v: Option<int>) { v.Some? && v.value != 0 }

  /** Python truthiness of an optional string: present and non-empty. */
  predicate TruthyStr(v: Option<string>) { v.Some? && v.value != [] }

  /** No key occurs twice, as in a dictionary. */
  predicate DistinctKeys(p: Payload) {
    forall i, j :: 0 <= i < j < |p| ==> p[i].0 != p[j].0
  }

  /** The position of each key in the order the bot adds them. */
  function Rank(k: Key): nat {
    match k
    case EventType => 0
    case Data => 1
    case TelegramUserId => 2
    case TelegramUsername => 3
    case ChatId => 4
    case Description => 5
  }

  /** Keys appear in the order the bot adds them. */
  predicate Ascending(p: Payload) {
    forall i, j :: 0 <= i < j < |p| ==> Rank(p[i].0) < Rank(p[j].0)
  }

  /** Every key of `p` comes before rank `n`. */
  predicate Below(p: Payload, n: nat) {
    forall i :: 0 <= i < |p| ==> Rank(p[i].0) < n
  }

  /** A lookup in a concatenation looks in the first part, then the second. */
  lemma {:induction false} LookupAppend(p: Payload, q: Payload, key: Key)
    ensures Lookup(p + q, key) == if Lookup(p, key).Some? then Lookup(p, key) else Lookup(q, key)
    decreases |p|
  {
    if p == [] {
      assert p + q == q;
    } else {
      assert (p + q)[1..] == p[1..] + q;
      LookupAppend(p[1..], q, key);
    }
  }

  /** A key that is set only when its value is truthy: `if v: d[key] = v`.
      Every key is new when it is set, so it goes at the end. */
  function Field(present: bool, key: Key, value: Json): (r: Payload)
    ensures |r| <= 1
    ensures Lookup(r, key) == (if present then Some(value) else None)
    ensures forall k :: k != key ==> Lookup(r, k) == None
  {
    if present then [(key, value)] else []
  }

  /** The payload dictionary: `event_type` and `data` always, first; then
      the user id, user name, chat id and description, each only when
      truthy (a zero id and an empty string are left out). */
  function BuildPayload(eventType: string, data: Json, userId: Option<int>, username: Option<string>,
                        chatId: Option<int>, description: Option<string>): Payload
  {
    [(EventType, JStr(eventType)), (Data, data)]
    + Field(TruthyInt(userId), TelegramUserId, JInt(userId.GetOr(0)))
    + Field(TruthyStr(username), TelegramUsername, JStr(username.GetOr([])))
    + Field(TruthyInt(chatId), ChatId, JInt(chatId.GetOr(0)))
    + Field(TruthyStr(description), Description, JStr(description.GetOr([])))
  }

  /** Adding one optional field after every key ranked below it keeps the
      order and leaves what came before in place. */
  lemma AddField(p: Payload, present: bool, key: Key, value: Json)
    requires Ascending(p) && Below(p, Rank(key))
    ensures var q := p + Field(present, key, value);
            Ascending(q) && Below(q, Rank(key) + 1) && q[..|p|] == p
  {
  }

  /** The built payload starts with the event type and the data, keeps the
      keys in the order they are added, and so holds each key at most once. */
  lemma PayloadShape(eventType: string, data: Json, userId: Option<int>, username: Option<string>,
                     chatId: Option<int>, description: Option<string>)
    ensures var r := BuildPayload(eventType, data, userId, username, chatId, description);
            && Ascending(r)
            && DistinctKeys(r)
            && 2 <= |r| <= 6
            && r[0] == (EventType, JStr(eventType)) && r[1] == (Data, data)
  {
    var p0: Payload := [(EventType, JStr(eventType)), (Data, data)];
    var p1 := p0 + Field(TruthyInt(userId), TelegramUserId, JInt(userId.GetOr(0)));
    AddField(p0, TruthyInt(userId), TelegramUserId, JInt(userId.GetOr(0)));
    var p2 := p1 + Field(TruthyStr(username), TelegramUsername, JStr(username.GetOr([])));
    AddField(p1, TruthyStr(username), TelegramUsername, JStr(username.GetOr([])));
    var p3 := p2 + Field(TruthyInt(chatId), ChatId, JInt(chatId.GetOr(0)));
    AddField(p2, TruthyInt(chatId), ChatId, JInt(chatId.GetOr(0)));
    var r := p3 + Field(TruthyStr(description), Description, JStr(description.GetOr([])));
    AddField(p3, TruthyStr(description), Description, JStr(description.GetOr([])));
    assert r == BuildPayload(eventType, data, userId, username, chatId, description);
    assert r[0] == p1[0] && r[1] == p1[1];
  }

  /** The built payload carries each optional field exactly when its value
      is truthy. */
  lemma PayloadOptionalFields(eventType: string, data: Json, userId: Option<int>, username: Option<string>,
                              chatId: Option<int>, description: Option<string>)
    ensures var r := BuildPayload(eventType, data, userId, username, chatId, description);
            && Lookup(r, EventType) == Some(JStr(eventType))
            && Lookup(r, Data) == Some(data)
            && Lookup(r, TelegramUserId) == (if TruthyInt(userId) then Some(JInt(userId.value)) else None)
            && Lookup(r, TelegramUsername) == (if TruthyStr(username) then Some(JStr(username.value)) else None)
            && Lookup(r, ChatId) == (if TruthyInt(chatId) then Some(JInt(chatId.value)) else None)
            && Lookup(r, Description) == (if TruthyStr(description) then Some(JStr(description.value)) else None)
  {
    var p0: Payload := [(EventType, JStr(eventType)), (Data, data)];
    var f1 := Field(TruthyInt(userId), TelegramUserId, JInt(userId.GetOr(0)));
    var f2 := Field(TruthyStr(username), TelegramUsername, JStr(username.GetOr([])));
    var f3 := Field(TruthyInt(chatId), ChatId, JInt(chatId.GetOr(0)));
    var f4 := Field(TruthyStr(description), Description, JStr(description.GetOr([])));
    var r := p0 + f1 + f2 + f3 + f4;
    forall k
      ensures Lookup(r, k) == if Lookup(p0, k).Some? then Lookup(p0, k)
                              else if Lookup(f1, k).Some? then Lookup(f1, k)
                              else if Lookup(f2, k).Some? then Lookup(f2, k)
                              else if Lookup(f3, k).Some? then Lookup(f3, k)
                              else Lookup(f4, k)
    {
      LookupAppend(p0 + f1 + f2 + f3, f4, k);
      LookupAppend(p0 + f1 + f2, f3, k);
      LookupAppend(p0 + f1, f2, k);
      LookupAppend(p0, f1, k);
    }
    forall k | k != EventType && k != Data ensures Lookup(p0, k) == None {
      assert p0[0].0 != k && p0[1..] == [(Data, data)];
      assert p0[1..][1..] == [];
      assert Lookup(p0[1..], k) == Lookup(p0[1..][1..], k);
    }
    assert r == BuildPayload(eventType, data, userId, username, chatId, description);
  }

  /** The headers `report_to_backend` sends: the JSON content type, and the
      bot key only when it is non-empty. */
  function EventHeaders(botKey: string): seq<Api.Header> {
    var h := [("Content-Type", "application/json")];
    if botKey != [] then h + [("X-Bot-Key", botKey)] else h
  }

  /** The event endpoint sends the same headers as an `api_request` made
      without a user token. */
  lemma EventHeadersAreApiHeaders(botKey: string)
    ensures EventHeaders(botKey) == Api.Headers(None, botKey)
  {
  }
}
