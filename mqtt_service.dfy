/** The MQTT service (`mqtt_service.c`): it receives QR display commands
    on three topics, parses their JSON bodies and keeps the last accepted
    payload for the UI task. The broker connection, the cJSON parser and
    the critical section around the shared state are not modelled: a
    message arrives already parsed (or not), and each handler runs as one
    atomic step. */
module MqttService {
  import opened Util
  import AppConfig

  // ---------------------------------------------------------------------
  // qr_payload_t (mqtt_service.h)
  // ---------------------------------------------------------------------

  const QR_DATA_MAX: nat := 512
  const QR_AMOUNT_MAX: nat := 32
  const QR_DESC_MAX: nat := 64

  /** The three fixed-size character arrays of `qr_payload_t`, every byte
      included, so that `memcmp` over the struct is equality of values. */
  datatype Payload = Payload(data: seq<char>, amount: seq<char>, desc: seq<char>)

  predicate Sized(p: Payload)
  {
    |p.data| == QR_DATA_MAX && |p.amount| == QR_AMOUNT_MAX && |p.desc| == QR_DESC_MAX
  }

  /** A payload whose every byte is zero (static storage, `= {0}`,
      `memset(.., 0, ..)`). */
  const ZERO: Payload :=
    Payload(seq(QR_DATA_MAX, _ => '\0'), seq(QR_AMOUNT_MAX, _ => '\0'), seq(QR_DESC_MAX, _ => '\0'))

  /** The three C strings a payload holds. */
  function Text(p: Payload): (string, string, string)
  {
    (CStr(p.data), CStr(p.amount), CStr(p.desc))
  }

  lemma ZeroIsEmpty()
    ensures Sized(ZERO) && Text(ZERO) == ([], [], [])
  {
  }

  // ---------------------------------------------------------------------
  // Parsed JSON
  // ---------------------------------------------------------------------

  /** What `cJSON_GetObjectItemCaseSensitive` can find under a key: a
      string item (its `valuestring`, a C string) or any other item. */
  datatype JsonValue = JString(s: CString) | JOther

  /** A parsed JSON object: its members by key. */
  type JsonObject = map<string, JsonValue>

  /** The text `json_str` leaves in a buffer of `size` bytes for `key`:
      the string value cut to `size - 1` characters, or the empty string
      when the key is missing or not a string. */
  function FieldText(root: JsonObject, key: string, size: nat): (r: string)
    requires size >= 1
    ensures NoNul(r) && |r| < size
    ensures key in root && root[key].JString? ==> |r| <= |root[key].s| && r == root[key].s[..|r|]
    ensures key in root && root[key].JString? && |root[key].s| < size ==> r == root[key].s
  {
    if key in root && root[key].JString? then Truncate(root[key].s, size - 1) else []
  }

  /** The three fields `handle_qr_show` extracts. */
  function Fields(root: JsonObject): (string, string, string)
  {
    (FieldText(root, "qr_data", QR_DATA_MAX),
     FieldText(root, "amount", QR_AMOUNT_MAX),
     FieldText(root, "desc", QR_DESC_MAX))
  }

  /** A show message is stored when it is valid JSON with a non-empty
      "qr_data" string. */
  predicate Accepted(json: Option<JsonObject>)
  {
    json.Some? && FieldText(json.value, "qr_data", QR_DATA_MAX) != []
  }

  /** `json_str(root, key, dst, dst.Length)`. For a string value the whole
      buffer is written (strncpy pads); otherwise only the first byte is,
      and the rest keeps whatever it held. */
  method JsonStr(root: JsonObject, key: string, dst: array<char>)
    requires dst.Length >= 1
    modifies dst
    ensures CStr(dst[..]) == FieldText(root, key, dst.Length)
    ensures key in root && root[key].JString? ==> dst[..] == Padded(FieldText(root, key, dst.Length), dst.Length)
    ensures !(key in root && root[key].JString?) ==> dst[0] == '\0' && dst[1..] == old(dst[1..])
  {
    if key in root && root[key].JString? {
      var text := FieldText(root, key, dst.Length);
      Strncpy(dst, root[key].s, dst.Length - 1);
      dst[dst.Length - 1] := '\0';
      assert dst[..] == Padded(text, dst.Length);
      CStrPadded(text, dst.Length);
    } else {
      dst[0] := '\0';
    }
  }

  // ---------------------------------------------------------------------
  // Topic matching
  // ---------------------------------------------------------------------

  /** `memcmp(a, b, n) == 0`. */
  function SameBytes(a: seq<char>, b: seq<char>, n: nat): bool
    requires n <= |a| && n <= |b|
  {
    n == 0 || (a[n - 1] == b[n - 1] && SameBytes(a, b, n - 1))
  }

  lemma {:induction false} SameBytesIsPrefixEquality(a: seq<char>, b: seq<char>, n: nat)
    requires n <= |a| && n <= |b|
    ensures SameBytes(a, b, n) <==> a[..n] == b[..n]
  {
    if n > 0 {
      SameBytesIsPrefixEquality(a, b, n - 1);
      assert a[..n] == a[..n - 1] + [a[n - 1]];
      assert b[..n] == b[..n - 1] + [b[n - 1]];
    }
  }

  /** `topic_eq(topic, topic_len, expected)`: the received topic (not
      NUL-terminated, `topic_len` bytes) matches the expected string
      exactly when it has its length and its bytes. */
  function TopicEq(topic: seq<char>, expected: string): (r: bool)
    ensures r <==> topic == expected
  {
    if |topic| == |expected| then
      SameBytesIsPrefixEquality(topic, expected, |expected|);
      SameBytes(topic, expected, |expected|)
    else
      false
  }

  // ---------------------------------------------------------------------
  // The service state
  // ---------------------------------------------------------------------

  /** `s_qr` and `s_has_qr`. */
  class Service {
    var qr: Payload
    var hasQr: bool

    /** The payload is a full `qr_payload_t`, and whenever the UI is told
        there is QR data, that data is a non-empty string. */
    ghost predicate Valid()
      reads this
    {
      Sized(qr) && (hasQr ==> CStr(qr.data) != [])
    }

    /** The zero-initialised static storage. */
    constructor ()
      ensures Valid() && qr == ZERO && !hasQr
    {
      qr := ZERO;
      hasQr := false;
    }

    /** `handle_qr_show`: invalid JSON or an empty or missing "qr_data"
        changes nothing; otherwise the three fields are stored and the
        has-data flag is raised. "amount" and "desc" default to "". */
    method HandleQrShow(json: Option<JsonObject>)
      requires Valid()
      modifies this
      ensures Valid()
      ensures !Accepted(json) ==> qr == old(qr) && hasQr == old(hasQr)
      ensures Accepted(json) ==> hasQr && Text(qr) == Fields(json.value)
      ensures Accepted(json) ==> qr.data == Padded(FieldText(json.value, "qr_data", QR_DATA_MAX), QR_DATA_MAX)
    {
      if json.None? {
        return;
      }
      var root := json.value;
      var data := new char[QR_DATA_MAX];
      var amount := new char[QR_AMOUNT_MAX];
      var desc := new char[QR_DESC_MAX];
      JsonStr(root, "qr_data", data);
      JsonStr(root, "amount", amount);
      JsonStr(root, "desc", desc);
      if data[0] == '\0' {
        return;
      }
      qr := Payload(data[..], amount[..], desc[..]);
      hasQr := true;
    }

    /** `handle_qr_hide`: lower the flag, keep the stored payload. */
    method HandleQrHide()
      requires Valid()
      modifies this
      ensures Valid()
      ensures !hasQr && qr == old(qr)
    {
      hasQr := false;
    }

    /** The `MQTT_EVENT_DATA` branch of `mqtt_event_handler`. A fragment
        (`data_len != total_data_len`) is dropped; otherwise the topic is
        compared with the show, hide and result topics in that order. The
        result handler only logs. `json` is what cJSON makes of the body. */
    method OnData(topic: seq<char>, dataLen: int, totalLen: int, json: Option<JsonObject>,
                  showTopic: string, hideTopic: string)
      requires Valid()
      modifies this
      ensures Valid()
      ensures dataLen != totalLen ==> qr == old(qr) && hasQr == old(hasQr)
      ensures dataLen == totalLen && topic == showTopic ==>
                (!Accepted(json) ==> qr == old(qr) && hasQr == old(hasQr)) &&
                (Accepted(json) ==> hasQr && Text(qr) == Fields(json.value))
      ensures dataLen == totalLen && topic != showTopic && topic == hideTopic ==>
                !hasQr && qr == old(qr)
      ensures topic != showTopic && topic != hideTopic ==> qr == old(qr) && hasQr == old(hasQr)
    {
      if dataLen != totalLen {
        return;
      }
      if TopicEq(topic, showTopic) {
        HandleQrShow(json);
      } else if TopicEq(topic, hideTopic) {
        HandleQrHide();
      } else if TopicEq(topic, AppConfig.MQTT_TOPIC_RESULT) {
        // handle_result: logs "status" and "message", stores nothing.
      }
    }

    /** `mqtt_service_has_qr_data`. */
    method HasQrData() returns (r: bool)
      requires Valid()
      ensures r == hasQr
      ensures r ==> CStr(qr.data) != []
    {
      r := hasQr;
    }

    /** `mqtt_service_get_qr`: the stored payload, a full `qr_payload_t`. */
    method GetQr() returns (p: Payload)
      requires Valid()
      ensures p == qr && Sized(p)
    {
      p := qr;
    }
  }
}
