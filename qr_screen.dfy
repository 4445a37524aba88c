/** The QR display screen (`qr_screen.c`): a QR code with an amount label
    below and a description label above, shown on its own screen. The
    screen remembers the last payload so that a repeated `show` does not
    redraw, distinguishes a static (locally generated) QR from one sent
    over MQTT, and records whether the user dismissed an MQTT QR by
    tapping. LVGL objects are reduced to the texts they display and to
    which of the two screens is loaded. */
module QrScreen {
  import opened Util
  import opened MqttService

  /** The two screens this module switches between. */
  datatype Screen = Idle | QrCode

  /** The payload `qr_screen_show_static` builds: a zeroed `qr_payload_t`
      with each argument copied by `strncpy` into at most `size - 1`
      bytes, so every field keeps a terminating NUL. */
  function StaticPayload(qrData: CString, amount: CString, desc: CString): (p: Payload)
    ensures Sized(p)
  {
    Payload(Padded(Truncate(qrData, QR_DATA_MAX - 1), QR_DATA_MAX),
            Padded(Truncate(amount, QR_AMOUNT_MAX - 1), QR_AMOUNT_MAX),
            Padded(Truncate(desc, QR_DESC_MAX - 1), QR_DESC_MAX))
  }

  /** A static payload reads back as its arguments, each cut to the room
      its field has. */
  lemma StaticText(qrData: CString, amount: CString, desc: CString)
    ensures Text(StaticPayload(qrData, amount, desc)) ==
              (Truncate(qrData, QR_DATA_MAX - 1), Truncate(amount, QR_AMOUNT_MAX - 1),
               Truncate(desc, QR_DESC_MAX - 1))
  {
    CStrPadded(Truncate(qrData, QR_DATA_MAX - 1), QR_DATA_MAX);
    CStrPadded(Truncate(amount, QR_AMOUNT_MAX - 1), QR_AMOUNT_MAX);
    CStrPadded(Truncate(desc, QR_DESC_MAX - 1), QR_DESC_MAX);
  }

  /** A static payload is all zero only when all three strings are empty. */
  lemma StaticNonZero(qrData: CString, amount: CString, desc: CString)
    ensures StaticPayload(qrData, amount, desc) == ZERO <==> qrData == [] && amount == [] && desc == []
  {
    var p := StaticPayload(qrData, amount, desc);
    StaticText(qrData, amount, desc);
    ZeroIsEmpty();
    if qrData == [] && amount == [] && desc == [] {
      assert p.data == ZERO.data;
      assert p.amount == ZERO.amount;
      assert p.desc == ZERO.desc;
    }
  }

  /** One field of the payload `qr_screen_show_static` builds: a zeroed
      buffer of `size` bytes after `strncpy(field, s, size - 1)`. */
  method ZeroedCopy(s: CString, size: nat) returns (field: seq<char>)
    requires size >= 1
    ensures field == Padded(Truncate(s, size - 1), size)
  {
    var buf := new char[size](_ => '\0');
    Strncpy(buf, s, size - 1);
    assert buf[..] == buf[..size - 1] + buf[size - 1..];
    field := buf[..];
  }

  class Screens {
    /** The screen LVGL has loaded. */
    var active: Screen
    /** `s_last`: the payload of the last full update (zero after hide). */
    var last: Payload
    /** `s_qr_dismissed_by_user`. */
    var dismissed: bool
    /** `s_showing_static`. */
    var showingStatic: bool
    /** What the QR widget encodes and what the two labels read. */
    var qrText: string
    var amountLabel: string
    var descLabel: string

    function Displayed(): (string, string, string)
      reads this
    {
      (qrText, amountLabel, descLabel)
    }

    /** Unless it was cleared by a hide, the remembered payload is the one
        on screen; a static QR is only flagged while the QR screen is up. */
    ghost predicate Valid()
      reads this
    {
      Sized(last) &&
      (last != ZERO ==> Displayed() == Text(last)) &&
      (showingStatic ==> active == QrCode)
    }

    /** `qr_screen_init`: the screen active at start-up becomes the idle
        screen, the QR widget and labels are empty, the statics are zero. */
    constructor Init()
      ensures Valid()
      ensures active == Idle && last == ZERO && !dismissed && !showingStatic
      ensures Displayed() == ([], [], [])
    {
      active := Idle;
      last := ZERO;
      dismissed := false;
      showingStatic := false;
      qrText, amountLabel, descLabel := [], [], [];
    }

    /** `qr_screen_show`: always clears the static flag and ends on the QR
        screen. A payload byte-equal to the remembered one changes nothing
        else; any other payload is remembered and redrawn. */
    method Show(p: Payload)
      requires Valid() && Sized(p)
      modifies this
      ensures Valid()
      ensures active == QrCode && !showingStatic && last == p && dismissed == old(dismissed)
      ensures old(last) == p ==> Displayed() == old(Displayed())
      ensures p != ZERO ==> Displayed() == Text(p)
    {
      showingStatic := false;
      if last == p {
        if active != QrCode {
          active := QrCode;
        }
        return;
      }
      last := p;
      qrText := CStr(p.data);
      amountLabel := CStr(p.amount);
      descLabel := CStr(p.desc);
      active := QrCode;
    }

    /** `qr_screen_show_static`: the render path of `show` on a zeroed,
        strncpy-filled payload, then the static flag is raised. */
    method ShowStatic(qrData: CString, amount: CString, desc: CString)
      requires Valid()
      modifies this
      ensures Valid()
      ensures active == QrCode && showingStatic && dismissed == old(dismissed)
      ensures last == StaticPayload(qrData, amount, desc)
      ensures qrData != [] || amount != [] || desc != [] ==>
                Displayed() == (Truncate(qrData, QR_DATA_MAX - 1), Truncate(amount, QR_AMOUNT_MAX - 1),
                                Truncate(desc, QR_DESC_MAX - 1))
    {
      var data := ZeroedCopy(qrData, QR_DATA_MAX);
      var amt := ZeroedCopy(amount, QR_AMOUNT_MAX);
      var dsc := ZeroedCopy(desc, QR_DESC_MAX);
      var p := Payload(data, amt, dsc);
      StaticText(qrData, amount, desc);
      StaticNonZero(qrData, amount, desc);
      Show(p);
      showingStatic := true;
    }

    /** `qr_screen_hide`: back to the idle screen, the remembered payload
        zeroed (so the next non-zero `show` redraws), the static flag
        cleared. The widgets keep their texts. */
    method Hide()
      requires Valid()
      modifies this
      ensures Valid()
      ensures active == Idle && last == ZERO && !showingStatic
      ensures dismissed == old(dismissed) && Displayed() == old(Displayed())
    {
      active := Idle;
      last := ZERO;
      showingStatic := false;
    }

    /** `on_qr_screen_tap`: a static QR just returns to idle; an MQTT QR
        also records that the user dismissed it. The handler is registered
        on the QR screen only, so it runs while that screen is loaded. The
        widgets keep their texts. */
    method Tap()
      requires Valid() && active == QrCode
      modifies this
      ensures Valid()
      ensures active == Idle && last == ZERO && !showingStatic
      ensures Displayed() == old(Displayed())
      ensures old(showingStatic) ==> dismissed == old(dismissed)
      ensures !old(showingStatic) ==> dismissed
    {
      if showingStatic {
        showingStatic := false;
        Hide();
      } else {
        dismissed := true;
        Hide();
      }
    }

    /** `qr_screen_is_dismissed`. */
    method IsDismissed() returns (r: bool)
      ensures r == dismissed
    {
      r := dismissed;
    }

    /** `qr_screen_clear_dismissed`: only the flag changes. */
    method ClearDismissed()
      requires Valid()
      modifies this
      ensures Valid()
      ensures !dismissed
      ensures active == old(active) && last == old(last) && showingStatic == old(showingStatic)
      ensures Displayed() == old(Displayed())
    {
      dismissed := false;
    }
  }
}
