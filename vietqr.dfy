/** The static VietQR string of ui.c: an EMVCo merchant-presented QR
    payload for walk-in payments, built once at start-up from a fixed
    prefix and the CRC-16/CCITT-FALSE of that prefix in four uppercase
    hexadecimal digits. */
module VietQr {
  import opened Util
  import Crc

  // ---------------------------------------------------------------------
  // EMVCo data objects: two-digit ID, two-digit length, value
  // ---------------------------------------------------------------------

  datatype DataObject = DataObject(id: string, value: string)

  /** An object the two-digit ID/length framing can carry. */
  predicate WellFormed(o: DataObject)
  {
    |o.id| == 2 && IsDigit(o.id[0]) && IsDigit(o.id[1]) && |o.value| < 100
  }

  predicate AllWellFormed(objs: seq<DataObject>)
  {
    forall k :: 0 <= k < |objs| ==> WellFormed(objs[k])
  }

  /** The framing of one object: ID, value length as "%02d", value. */
  function Field(o: DataObject): string
    requires WellFormed(o)
  {
    o.id + TwoDigits(|o.value|) + o.value
  }

  /** A list of objects written one after the other. */
  function Encode(objs: seq<DataObject>): (r: string)
    requires AllWellFormed(objs)
  {
    if objs == [] then [] else Field(objs[0]) + Encode(objs[1..])
  }

  /** Reads a string as a list of data objects, failing when an ID or a
      length is not two decimal digits or a value runs past the end. */
  function Parse(s: string): (r: Option<seq<DataObject>>)
    ensures r.Some? ==> AllWellFormed(r.value)
    decreases |s|
  {
    if s == [] then Some([])
    else if |s| < 4 || !(IsDigit(s[0]) && IsDigit(s[1]) && IsDigit(s[2]) && IsDigit(s[3])) then None
    else
      var n := DecimalValue(s[2..4]);
      if |s| < 4 + n then None
      else
        match Parse(s[4 + n..])
        case None => None
        case Some(rest) => Some([DataObject(s[..2], s[4..4 + n])] + rest)
  }

  lemma {:induction false} EncodeAppend(a: seq<DataObject>, b: seq<DataObject>)
    requires AllWellFormed(a) && AllWellFormed(b)
    ensures AllWellFormed(a + b)
    ensures Encode(a + b) == Encode(a) + Encode(b)
  {
    if a == [] {
      assert a + b == b;
    } else {
      var h, t := a[0], a[1..];
      assert a == [h] + t;
      assert a + b == [h] + (t + b);
      EncodeAppend(t, b);
      EncodeCons(h, t + b);
      EncodeCons(h, t);
    }
  }

  /** Parsing reads back exactly the objects that were written. */
  lemma {:induction false} ParseEncode(objs: seq<DataObject>)
    requires AllWellFormed(objs)
    ensures Parse(Encode(objs)) == Some(objs)
  {
    if objs != [] {
      var o := objs[0];
      var s := Encode(objs);
      var n := |o.value|;
      assert s == o.id + TwoDigits(n) + o.value + Encode(objs[1..]);
      assert s[..2] == o.id;
      assert s[2..4] == TwoDigits(n);
      TwoDigitsRoundTrip(n);
      assert s[4..4 + n] == o.value;
      assert s[4 + n..] == Encode(objs[1..]);
      ParseEncode(objs[1..]);
      assert [o] + objs[1..] == objs;
    }
  }

  /** Whatever parses is written back unchanged: the framing loses and
      invents nothing. */
  lemma {:induction false} EncodeParse(s: string)
    requires Parse(s).Some?
    ensures Encode(Parse(s).value) == s
  {
    if s != [] {
      ParseStep(s);
      var n := DecimalValue(s[2..4]);
      EncodeParse(s[4 + n..]);
      DecimalValueRoundTrip(s[2..4]);
      EncodeFirst(s, n, Parse(s[4 + n..]).value, Parse(s).value);
    }
  }

  /** One object in front of a list that encodes to the rest of `s`. */
  lemma EncodeFirst(s: string, n: nat, rest: seq<DataObject>, objs: seq<DataObject>)
    requires n < 100 && |s| >= 4 + n && TwoDigits(n) == s[2..4]
    requires IsDigit(s[0]) && IsDigit(s[1])
    requires AllWellFormed(rest) && Encode(rest) == s[4 + n..]
    requires objs == [DataObject(s[..2], s[4..4 + n])] + rest
    ensures AllWellFormed(objs) && Encode(objs) == s
  {
    var o := DataObject(s[..2], s[4..4 + n]);
    EncodeCons(o, rest);
    assert Field(o) == s[..2] + s[2..4] + s[4..4 + n];
    assert s[..2] + s[2..4] + s[4..4 + n] + s[4 + n..] == s;
  }

  /** What a successful parse of a non-empty string consists of: the
      first object's header and value, then the parse of the rest. */
  lemma ParseStep(s: string)
    requires s != [] && Parse(s).Some?
    ensures |s| >= 4 && IsDigit(s[0]) && IsDigit(s[1]) && IsDigit(s[2]) && IsDigit(s[3])
    ensures |s| >= 4 + DecimalValue(s[2..4])
    ensures var n := DecimalValue(s[2..4]);
      && Parse(s[4 + n..]).Some?
      && WellFormed(DataObject(s[..2], s[4..4 + n]))
      && Parse(s).value == [DataObject(s[..2], s[4..4 + n])] + Parse(s[4 + n..]).value
  {
  }

  // ---------------------------------------------------------------------
  // "%04X"
  // ---------------------------------------------------------------------

  predicate IsUpperHex(c: char)
  {
    '0' <= c <= '9' || 'A' <= c <= 'F'
  }

  predicate AllUpperHex(s: string)
  {
    forall k :: 0 <= k < |s| ==> IsUpperHex(s[k])
  }

  function HexDigit(v: nat): (c: char)
    requires v < 16
  {
    if v < 10 then ('0' as int + v) as char else ('A' as int + v - 10) as char
  }

  function HexDigitValue(c: char): (v: nat)
    requires IsUpperHex(c)
    ensures v < 16
  {
    if c <= '9' then c as int - '0' as int else c as int - 'A' as int + 10
  }

  /** The low `n` hexadecimal digits of `v`, most significant first and
      zero-padded, in uppercase. */
  function HexDigits(v: nat, n: nat): (r: string)
    ensures |r| == n
  {
    if n == 0 then [] else HexDigits(v / 16, n - 1) + [HexDigit(v % 16)]
  }

  /** The number a string of uppercase hexadecimal digits spells. */
  function HexValue(s: string): nat
    requires AllUpperHex(s)
  {
    if s == [] then 0 else 16 * HexValue(s[..|s| - 1]) + HexDigitValue(s[|s| - 1])
  }

  function Pow16(n: nat): nat
  {
    if n == 0 then 1 else 16 * Pow16(n - 1)
  }

  lemma {:induction false} HexDigitsRoundTrip(v: nat, n: nat)
    requires v < Pow16(n)
    ensures AllUpperHex(HexDigits(v, n))
    ensures HexValue(HexDigits(v, n)) == v
  {
    if n > 0 {
      HexDigitsRoundTrip(v / 16, n - 1);
      var s := HexDigits(v, n);
      assert s[..n - 1] == HexDigits(v / 16, n - 1);
      assert HexDigitValue(HexDigit(v % 16)) == v % 16;
    }
  }

  /** `snprintf(buf, 5, "%04X", v)` for a 16-bit value. */
  function Hex4(v: nat): (r: string)
    requires v < 0x10000
  {
    HexDigits(v, 4)
  }

  /** "%04X" gives four uppercase digits that read back as `v`. */
  lemma Hex4RoundTrip(v: nat)
    requires v < 0x10000
    ensures |Hex4(v)| == 4 && AllUpperHex(Hex4(v)) && HexValue(Hex4(v)) == v
  {
    assert Pow16(4) == 0x10000;
    HexDigitsRoundTrip(v, 4);
  }

  // ---------------------------------------------------------------------
  // The payload
  // ---------------------------------------------------------------------

  /** The string literals whose concatenation is VIETQR_BASE, in source
      order; the last one is the ID and length of the CRC object. */
  const LINE1: string := "00020101021138540010A000000727"
  const LINE2: string := "0124000697042201100973202625"
  const LINE3: string := "0208QRIBFTTA"
  const LINE4: string := "5303704"
  const LINE5: string := "5802VN"
  const LINE6: string := "62230819Thanh toan tai quay"
  const CRC_TAG: string := "6304"

  const VIETQR_BASE: string := LINE1 + LINE2 + LINE3 + LINE4 + LINE5 + LINE6 + CRC_TAG

  /** The values the prefix carries. */
  const NAPAS_AID: string := "A000000727"
  const BANK_BIN: string := "970422"
  const ACCOUNT: string := "0973202625"
  const SERVICE_CODE: string := "QRIBFTTA"
  const PURPOSE: string := "Thanh toan tai quay"

  /** Beneficiary organisation (ID 01 of the merchant account template):
      the bank BIN (MB Bank) and the account number. */
  function Beneficiary(): seq<DataObject>
  {
    [DataObject("00", BANK_BIN), DataObject("01", ACCOUNT)]
  }

  const BENEFICIARY: string := "0006970422" + "0110" + "0973202625"

  /** Merchant account information (ID 38): the NAPAS application ID, the
      beneficiary, and the service code for a transfer to an account. */
  function MerchantAccount(): seq<DataObject>
  {
    [DataObject("00", NAPAS_AID), DataObject("01", BENEFICIARY), DataObject("02", SERVICE_CODE)]
  }

  const MERCHANT_INFO: string := "0010A000000727" + LINE2 + LINE3

  /** Additional data (ID 62): the purpose of transaction (ID 08). */
  const ADDITIONAL_DATA: string := "0819" + PURPOSE

  /** The objects the prefix encodes before the CRC object: payload format
      indicator, static initiation method, merchant account, currency 704
      (VND), country VN and additional data. */
  function BaseObjects(): seq<DataObject>
  {
    [ DataObject("00", "01"),
      DataObject("01", "11"),
      DataObject("38", MERCHANT_INFO),
      DataObject("53", "704"),
      DataObject("58", "VN"),
      DataObject("62", ADDITIONAL_DATA) ]
  }

  /** The CRC the firmware appends: over the prefix including "6304". */
  function PayloadCrc(): (v: nat)
    ensures v < 0x10000
  {
    Crc.Crc16(Crc.Octets(VIETQR_BASE)) as nat
  }

  /** The complete static payload `ui_init` leaves in `s_vietqr`. */
  function Payload(): string
  {
    VIETQR_BASE + Hex4(PayloadCrc())
  }

  lemma EncodeCons(o: DataObject, rest: seq<DataObject>)
    requires WellFormed(o) && AllWellFormed(rest)
    ensures AllWellFormed([o] + rest)
    ensures Encode([o] + rest) == Field(o) + Encode(rest)
  {
    assert ([o] + rest)[0] == o;
    assert ([o] + rest)[1..] == rest;
  }

  lemma Encode2(a: DataObject, b: DataObject)
    requires WellFormed(a) && WellFormed(b)
    ensures AllWellFormed([a, b])
    ensures Encode([a, b]) == Field(a) + Field(b)
  {
    EncodeCons(b, []);
    EncodeCons(a, [b]);
    assert [a] + [b] == [a, b];
  }

  lemma Encode3(a: DataObject, b: DataObject, c: DataObject)
    requires WellFormed(a) && WellFormed(b) && WellFormed(c)
    ensures AllWellFormed([a, b, c])
    ensures Encode([a, b, c]) == Field(a) + Field(b) + Field(c)
  {
    Encode2(b, c);
    EncodeCons(a, [b, c]);
    assert [a] + [b, c] == [a, b, c];
  }

  /** The source lines regrouped into fields: the first line holds two
      fields and the start of the third, which the next two lines finish. */
  lemma Regroup(base: string, l1: string, l2: string, l3: string, l4: string, l5: string,
                l6: string, tag: string, f0: string, f1: string, f2: string, head: string,
                aid: string, enc: string)
    requires base == l1 + l2 + l3 + l4 + l5 + l6 + tag
    requires l1 == f0 + f1 + head + aid
    requires f2 == head + (aid + l2 + l3)
    requires enc == f0 + f1 + f2 + (l4 + l5 + l6)
    ensures base == enc + tag
  {
    assert l1 + l2 + l3 == f0 + f1 + f2;
  }

  lemma Line1Fields()
    ensures LINE1 == "000201" + "010211" + "3854" + "0010A000000727"
  {
  }

  lemma Line6Field()
    ensures LINE6 == "6223" + ADDITIONAL_DATA
  {
  }

  lemma BeneficiaryEncoding()
    ensures AllWellFormed(Beneficiary())
    ensures Encode(Beneficiary()) == BENEFICIARY
  {
    var bin, acc := DataObject("00", BANK_BIN), DataObject("01", ACCOUNT);
    assert Field(bin) == "0006" + BANK_BIN;
    assert Field(acc) == "0110" + ACCOUNT;
    Encode2(bin, acc);
  }

  lemma AidField()
    ensures Field(DataObject("00", NAPAS_AID)) == "0010A000000727"
  {
    assert TwoDigits(10) == "10";
  }

  lemma BeneficiaryField()
    ensures Field(DataObject("01", BENEFICIARY)) == LINE2
  {
    assert |BENEFICIARY| == 24 && TwoDigits(24) == "24";
    assert "01" + "24" + BENEFICIARY == LINE2;
  }

  lemma ServiceField()
    ensures Field(DataObject("02", SERVICE_CODE)) == LINE3
  {
    assert TwoDigits(8) == "08";
  }

  lemma MerchantAccountEncoding()
    ensures AllWellFormed(MerchantAccount())
    ensures Encode(MerchantAccount()) == MERCHANT_INFO
  {
    AidField();
    BeneficiaryField();
    ServiceField();
    Encode3(DataObject("00", NAPAS_AID), DataObject("01", BENEFICIARY), DataObject("02", SERVICE_CODE));
  }

  lemma BaseFields()
    ensures AllWellFormed(BaseObjects())
    ensures Field(BaseObjects()[0]) == "000201"
    ensures Field(BaseObjects()[1]) == "010211"
    ensures Field(BaseObjects()[2]) == "3854" + MERCHANT_INFO
    ensures Field(BaseObjects()[3]) == LINE4
    ensures Field(BaseObjects()[4]) == LINE5
    ensures Field(BaseObjects()[5]) == LINE6
  {
    assert |MERCHANT_INFO| == 54;
    assert |ADDITIONAL_DATA| == 23;
    Line6Field();
  }

  lemma BaseEncoding()
    ensures AllWellFormed(BaseObjects())
    ensures Encode(BaseObjects())
      == "000201" + "010211" + Field(BaseObjects()[2]) + (LINE4 + LINE5 + LINE6)
  {
    var b := BaseObjects();
    BaseFields();
    Encode3(b[3], b[4], b[5]);
    EncodeCons(b[2], [b[3], b[4], b[5]]);
    EncodeCons(b[1], [b[2], b[3], b[4], b[5]]);
    EncodeCons(b[0], [b[1], b[2], b[3], b[4], b[5]]);
    assert [b[0]] + [b[1], b[2], b[3], b[4], b[5]] == b;
  }

  /** VIETQR_BASE is the six data objects followed by the ID and length
      of the CRC object, whose value is still missing. */
  lemma BaseLayout()
    ensures AllWellFormed(BaseObjects())
    ensures VIETQR_BASE == Encode(BaseObjects()) + CRC_TAG
  {
    BaseEncoding();
    Line1Fields();
    BaseFields();
    Regroup(VIETQR_BASE, LINE1, LINE2, LINE3, LINE4, LINE5, LINE6, CRC_TAG,
            "000201", "010211", Field(BaseObjects()[2]), "3854", "0010A000000727",
            Encode(BaseObjects()));
  }

  /** The merchant account template (ID 38) holds the application ID,
      the beneficiary and the service code; the beneficiary holds the
      bank BIN and the account. */
  lemma MerchantObjects()
    ensures BaseObjects()[2].value == MERCHANT_INFO
    ensures Parse(MERCHANT_INFO) == Some(MerchantAccount())
    ensures MerchantAccount()[1].value == BENEFICIARY
    ensures Parse(BENEFICIARY) == Some(Beneficiary())
  {
    MerchantAccountEncoding();
    ParseEncode(MerchantAccount());
    BeneficiaryEncoding();
    ParseEncode(Beneficiary());
  }

  /** The additional data template (ID 62) holds the purpose (ID 08). */
  lemma AdditionalObjects()
    ensures BaseObjects()[5].value == ADDITIONAL_DATA
    ensures Parse(ADDITIONAL_DATA) == Some([DataObject("08", PURPOSE)])
  {
    var p := DataObject("08", PURPOSE);
    assert |PURPOSE| == 19 && TwoDigits(19) == "19";
    assert Field(p) == "0819" + PURPOSE;
    EncodeCons(p, []);
    assert [p] + [] == [p];
    assert Encode([p]) == ADDITIONAL_DATA;
    ParseEncode([p]);
  }

  /** The payload is the prefix plus four uppercase hex digits: 118
      characters, which with the terminating NUL fit `s_vietqr[128]`. */
  lemma PayloadShape()
    ensures |VIETQR_BASE| == 114
    ensures VIETQR_BASE[110..] == CRC_TAG
    ensures |Payload()| == 118 && |Payload()| + 1 <= 128
    ensures Payload()[..114] == VIETQR_BASE
    ensures AllUpperHex(Payload()[114..])
  {
    Hex4RoundTrip(PayloadCrc());
    assert Payload()[114..] == Hex4(PayloadCrc());
  }

  /** Objects followed by a final object whose ID and length were already
      written parse as one list. */
  lemma ParseWithTrailer(objs: seq<DataObject>, base: string, id: string, value: string)
    requires AllWellFormed(objs) && |id| == 2 && IsDigit(id[0]) && IsDigit(id[1]) && |value| < 100
    requires base == Encode(objs) + id + TwoDigits(|value|)
    ensures AllWellFormed(objs + [DataObject(id, value)])
    ensures Parse(base + value) == Some(objs + [DataObject(id, value)])
  {
    var last := DataObject(id, value);
    EncodeCons(last, []);
    assert [last] + [] == [last];
    EncodeAppend(objs, [last]);
    var enc := Encode(objs + [last]);
    assert enc == Encode(objs) + Field(last);
    assert Encode(objs) + Field(last) == base + value;
    ParseEncode(objs + [last]);
    assert Parse(enc) == Some(objs + [last]);
  }

  /** The whole payload parses as the six objects and a final CRC object
      (ID 63, length 04) carrying the four hex digits. */
  lemma PayloadObjects()
    ensures AllWellFormed(BaseObjects() + [DataObject("63", Hex4(PayloadCrc()))])
    ensures Parse(Payload()) == Some(BaseObjects() + [DataObject("63", Hex4(PayloadCrc()))])
  {
    BaseLayout();
    Hex4RoundTrip(PayloadCrc());
    assert CRC_TAG == "63" + TwoDigits(4);
    ParseWithTrailer(BaseObjects(), VIETQR_BASE, "63", Hex4(PayloadCrc()));
  }

  /** What a scanner checks: the last four characters are the uppercase
      hex CRC-16/CCITT-FALSE of everything before them, "6304" included. */
  predicate CrcValid(p: string)
  {
    |p| >= 4 && AllUpperHex(p[|p| - 4..])
    && HexValue(p[|p| - 4..]) == Crc.Crc16(Crc.Octets(p[..|p| - 4])) as nat
  }

  /** Appending the "%04X" CRC of a string makes it pass the check. */
  lemma AppendedCrcValid(base: string)
    ensures CrcValid(base + Hex4(Crc.Crc16(Crc.Octets(base)) as nat))
  {
    var v := Crc.Crc16(Crc.Octets(base)) as nat;
    var p := base + Hex4(v);
    Hex4RoundTrip(v);
    assert p[|p| - 4..] == Hex4(v);
    assert p[..|p| - 4] == base;
  }

  lemma PayloadCrcValid()
    ensures CrcValid(Payload())
  {
    AppendedCrcValid(VIETQR_BASE);
  }

  // ---------------------------------------------------------------------
  // Building the string in the static buffer
  // ---------------------------------------------------------------------

  lemma BaseHasNoNul()
    ensures NoNul(VIETQR_BASE)
  {
    assert NoNul(LINE1) && NoNul(LINE2) && NoNul(LINE3) && NoNul(LINE4);
    assert NoNul(LINE5) && NoNul(LINE6) && NoNul(CRC_TAG);
    NoNulAppend(LINE1, LINE2);
    NoNulAppend(LINE1 + LINE2, LINE3);
    NoNulAppend(LINE1 + LINE2 + LINE3, LINE4);
    NoNulAppend(LINE1 + LINE2 + LINE3 + LINE4, LINE5);
    NoNulAppend(LINE1 + LINE2 + LINE3 + LINE4 + LINE5, LINE6);
    NoNulAppend(LINE1 + LINE2 + LINE3 + LINE4 + LINE5 + LINE6, CRC_TAG);
  }

  /** `snprintf(buf + at, 5, "%04X", v)`: four uppercase digits and a NUL. */
  method WriteHex4(buf: array<char>, at: nat, v: bv16)
    requires at + 5 <= buf.Length
    modifies buf
    ensures buf[..at] == old(buf[..at])
    ensures buf[at..at + 4] == Hex4(v as nat) && buf[at + 4] == '\0'
  {
    var hex := Hex4(v as nat);
    var k := 0;
    while k < 4
      invariant k <= 4
      invariant buf[..at] == old(buf[..at])
      invariant buf[at..at + k] == hex[..k]
    {
      buf[at + k] := hex[k];
      k := k + 1;
    }
    buf[at + 4] := '\0';
  }

  /** `strcpy(buf, prefix)`, the CRC over `strlen(buf)` characters, then
      the CRC in hex right after the prefix. */
  method CopyWithCrc(buf: array<char>, prefix: string)
    requires NoNul(prefix) && |prefix| + 5 <= buf.Length
    modifies buf
    ensures CStr(buf[..]) == prefix + Hex4(Crc.Crc16(Crc.Octets(prefix)) as nat)
  {
    Strcpy(buf, prefix);
    var len := Strlen(buf);
    var crc := Crc.Crc16Ccitt(buf, len);
    assert buf[..len] == prefix;
    WriteHex4(buf, len, crc);
    var text := prefix + Hex4(crc as nat);
    Hex4RoundTrip(crc as nat);
    assert buf[..len + 4] == text;
    assert NoNul(text);
    CStrOfTerminated(buf[..], text);
  }

  /** The payload-building lines of `ui_init`: `s_vietqr[128]` ends up
      holding the static payload as a C string. */
  method BuildStaticQr(buf: array<char>)
    requires buf.Length == 128
    modifies buf
    ensures CStr(buf[..]) == Payload()
  {
    PayloadShape();
    BaseHasNoNul();
    CopyWithCrc(buf, VIETQR_BASE);
  }
}
