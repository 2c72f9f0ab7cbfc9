/** The event record sent to the broker and its encoding as an ordered list of
    key/value pairs, the level at which `omitempty` acts (cmd/main.go:42-50). */
module Encoding {
  /** The published event. */
  datatype Message = Message(
    event: string,      // "event"
    timestamp: string,  // "timestamp"
    sessionId: string,  // "session_id", omitted when empty
    message: string,    // "message"
    state: string,      // "state", omitted when empty
    taskNum: string)    // "task_num", omitted when empty

  /** A key and its string value. */
  type Pair = (string, string)

  /** The keys in the order of the record's declaration. */
  const FieldOrder: seq<string> := ["event", "timestamp", "session_id", "message", "state", "task_num"]

  /** The value of the record's field for a key; "" for a key the record does not have. */
  function FieldValue(m: Message, key: string): string {
    if key == "event" then m.event
    else if key == "timestamp" then m.timestamp
    else if key == "session_id" then m.sessionId
    else if key == "message" then m.message
    else if key == "state" then m.state
    else if key == "task_num" then m.taskNum
    else ""
  }

  function Keys(kvs: seq<Pair>): (ks: seq<string>)
    ensures |ks| == |kvs| && forall i :: 0 <= i < |kvs| ==> ks[i] == kvs[i].0
  {
    seq(|kvs|, i requires 0 <= i < |kvs| => kvs[i].0)
  }

  /** One pair for a field that is kept exactly when it is non-empty. */
  function OmitEmpty(key: string, value: string): (p: seq<Pair>)
    ensures value != "" ==> p == [(key, value)]
    ensures value == "" ==> p == []
  {
    if value == "" then [] else [(key, value)]
  }

  /** The pairs of a record, in declaration order. */
  function Encode(m: Message): (kvs: seq<Pair>)
    ensures forall i :: 0 <= i < |kvs| ==> kvs[i].1 == FieldValue(m, kvs[i].0)
    ensures forall k :: k in Keys(kvs) ==> k in FieldOrder
    ensures forall i, j :: 0 <= i < j < |kvs| ==> Rank(kvs[i].0) < Rank(kvs[j].0)
  {
    [("event", m.event), ("timestamp", m.timestamp)]
    + OmitEmpty("session_id", m.sessionId)
    + [("message", m.message)]
    + OmitEmpty("state", m.state)
    + OmitEmpty("task_num", m.taskNum)
  }

  /** The keys always present, and the optional keys present exactly when their value
      is non-empty. */
  lemma {:induction false} OmitsExactlyEmpty(m: Message)
    ensures "event" in Keys(Encode(m)) && "timestamp" in Keys(Encode(m)) && "message" in Keys(Encode(m))
    ensures "session_id" in Keys(Encode(m)) <==> m.sessionId != ""
    ensures "state" in Keys(Encode(m)) <==> m.state != ""
    ensures "task_num" in Keys(Encode(m)) <==> m.taskNum != ""
  {
    var head := [("event", m.event), ("timestamp", m.timestamp)];
    var sid := OmitEmpty("session_id", m.sessionId);
    var msg := [("message", m.message)];
    var st := OmitEmpty("state", m.state);
    var tn := OmitEmpty("task_num", m.taskNum);
    assert Encode(m) == head + sid + msg + st + tn;
    KeysConcat(head, sid);
    KeysConcat(head + sid, msg);
    KeysConcat(head + sid + msg, st);
    KeysConcat(head + sid + msg + st, tn);
    var ks := Keys(Encode(m));
    assert ks == Keys(head) + Keys(sid) + Keys(msg) + Keys(st) + Keys(tn);
    assert Keys(head) == ["event", "timestamp"];
    assert Keys(msg) == ["message"];
    OptionalKey("session_id", m.sessionId);
    OptionalKey("state", m.state);
    OptionalKey("task_num", m.taskNum);
    assert "session_id" !in Keys(head) + Keys(msg) + Keys(st) + Keys(tn);
    assert "state" !in Keys(head) + Keys(sid) + Keys(msg) + Keys(tn);
    assert "task_num" !in Keys(head) + Keys(sid) + Keys(msg) + Keys(st);
  }

  lemma OptionalKey(key: string, value: string)
    ensures key in Keys(OmitEmpty(key, value)) <==> value != ""
  {
    if value != "" {
      assert Keys(OmitEmpty(key, value))[0] == key;
    }
  }

  lemma KeysConcat(a: seq<Pair>, b: seq<Pair>)
    ensures Keys(a + b) == Keys(a) + Keys(b)
  {
  }

  /** The position of a key in the declaration order (6 for a key not there). */
  function Rank(key: string): nat {
    if key == "event" then 0
    else if key == "timestamp" then 1
    else if key == "session_id" then 2
    else if key == "message" then 3
    else if key == "state" then 4
    else if key == "task_num" then 5
    else 6
  }

  /** The value of the last pair with the key (a later duplicate overwrites an earlier
      one), or "" when the key is absent, as decoding into a zero record leaves it. */
  function Lookup(kvs: seq<Pair>, key: string): string {
    if kvs == [] then ""
    else if kvs[|kvs| - 1].0 == key then kvs[|kvs| - 1].1
    else Lookup(kvs[..|kvs| - 1], key)
  }

  /** The record read back from a list of pairs, as decoding into a zero record does:
      each field takes the value of the last pair with its key. */
  function Decode(kvs: seq<Pair>): (m: Message)
    ensures forall k :: k in FieldOrder ==> FieldValue(m, k) == Lookup(kvs, k)
  {
    Message(Lookup(kvs, "event"), Lookup(kvs, "timestamp"), Lookup(kvs, "session_id"),
            Lookup(kvs, "message"), Lookup(kvs, "state"), Lookup(kvs, "task_num"))
  }

  /** A list whose every pair carries the record's value for its key, and which leaves out
      only keys whose value is empty, looks up to the record's value. */
  lemma {:induction false} LookupFaithful(kvs: seq<Pair>, m: Message, key: string)
    requires forall i :: 0 <= i < |kvs| ==> kvs[i].1 == FieldValue(m, kvs[i].0)
    requires key !in Keys(kvs) ==> FieldValue(m, key) == ""
    ensures Lookup(kvs, key) == FieldValue(m, key)
  {
    if kvs != [] && kvs[|kvs| - 1].0 != key {
      var init := kvs[..|kvs| - 1];
      assert key in Keys(init) ==> key in Keys(kvs);
      assert key !in Keys(init) ==> key !in Keys(kvs);
      LookupFaithful(init, m, key);
    }
  }

  /** A key that no pair carries looks up to "". */
  lemma {:induction false} LookupAbsent(kvs: seq<Pair>, key: string)
    requires key !in Keys(kvs)
    ensures Lookup(kvs, key) == ""
  {
    if kvs != [] {
      var init := kvs[..|kvs| - 1];
      assert Keys(kvs)[|kvs| - 1] == kvs[|kvs| - 1].0;
      assert key in Keys(init) ==> key in Keys(kvs);
      LookupAbsent(init, key);
    }
  }

  /** A field whose key is absent from the pairs decodes to "". */
  lemma {:induction false} DecodeMissingKey(kvs: seq<Pair>, key: string)
    requires key in FieldOrder && key !in Keys(kvs)
    ensures FieldValue(Decode(kvs), key) == ""
  {
    LookupAbsent(kvs, key);
  }

  /** A later pair for a field overwrites the field and leaves the other fields alone. */
  lemma {:induction false} DecodeLaterPairWins(kvs: seq<Pair>, key: string, value: string)
    requires key in FieldOrder
    ensures FieldValue(Decode(kvs + [(key, value)]), key) == value
    ensures forall k :: k in FieldOrder && k != key ==>
      FieldValue(Decode(kvs + [(key, value)]), k) == FieldValue(Decode(kvs), k)
  {
  }

  /** A pair whose key the record does not have is ignored. */
  lemma {:induction false} DecodeIgnoresUnknownKey(kvs: seq<Pair>, key: string, value: string)
    requires key !in FieldOrder
    ensures Decode(kvs + [(key, value)]) == Decode(kvs)
  {
  }

  /** Decoding the encoding of a record gives back the record. */
  lemma {:induction false} DecodeEncode(m: Message)
    ensures Decode(Encode(m)) == m
  {
    var kvs := Encode(m);
    OmitsExactlyEmpty(m);
    LookupFaithful(kvs, m, "event");
    LookupFaithful(kvs, m, "timestamp");
    LookupFaithful(kvs, m, "session_id");
    LookupFaithful(kvs, m, "message");
    LookupFaithful(kvs, m, "state");
    LookupFaithful(kvs, m, "task_num");
  }

  /** Two records with the same encoding are the same record. */
  lemma {:induction false} EncodeInjective(m: Message, m': Message)
    requires Encode(m) == Encode(m')
    ensures m == m'
  {
    DecodeEncode(m);
    DecodeEncode(m');
  }
}
