/** The main clock screen (`ui.c`): six flip-card digits HH MM SS driven by
    a 500 ms timer, two blinking colons, a rotating Vietnamese quote and a
    full-screen tap that shows the shop's static VietQR. The time of day
    is an input of the timer callback; the widgets, fonts, animations and
    the rain background are not modelled. */
module Ui {
  import opened Util
  import opened FlipCard
  import VietQr
  import QrScreen

  const NDIGITS: nat := 6
  const QUOTE_ROTATE_S: nat := 10

  /** Timer ticks between quote rotations: the timer fires every 500 ms. */
  const ROTATE_TICKS: nat := QUOTE_ROTATE_S * 2

  /** `s_vietqr`'s size. */
  const VIETQR_SIZE: nat := 128

  /** The description shown under the static VietQR. */
  const STATIC_DESC: string := "NGUYEN THI NHI - MB Bank"

  /** The eighteen quotes, in the order `QUOTES` lists them.  They are
      written as Unicode text, not as their UTF-8 bytes: the model only
      compares them for identity and never measures, copies or truncates
      them. */
  const QUOTE_0: string := "Yêu bản thân là khởi đầu của hạnh phúc"
  const QUOTE_1: string := "Phụ nữ đẹp nhất khi là chính mình"
  const QUOTE_2: string := "Thư giãn - Nghỉ ngơi - Hồi phục"
  const QUOTE_3: string := "Chăm sóc bản thân là ưu tiên hàng đầu"
  const QUOTE_4: string := "Vẻ đẹp đến từ sự bình yên nội tâm"
  const QUOTE_5: string := "Đừng quên mỉm cười ngày hôm nay"
  const QUOTE_6: string := "Bạn xứng đáng được yêu thương"
  const QUOTE_7: string := "MK Beauty House - Nơi vẻ đẹp thăng hoa"
  const QUOTE_8: string := "Hạnh phúc là được làm điều mình yêu"
  const QUOTE_9: string := "Mỗi người phụ nữ là một món quà vô giá"
  const QUOTE_10: string := "Yêu chiều bản thân không phải là ích kỷ"
  const QUOTE_11: string := "Vẻ đẹp bắt đầu từ khoảnh khắc bạn là chính mình"
  const QUOTE_12: string := "Đôi tay đẹp làm nên những điều kỳ diệu"
  const QUOTE_13: string := "Sống chậm lại và yêu thương nhiều hơn"
  const QUOTE_14: string := "Nụ cười là trang sức lấp lánh nhất"
  const QUOTE_15: string := "Hãy để chúng tôi chăm sóc bạn"
  const QUOTE_16: string := "Thư thái tâm hồn, rạng ngời nhan sắc"
  const QUOTE_17: string := "Đẹp hơn mỗi ngày cùng MK Beauty"
  const QUOTES: seq<string> := [
    QUOTE_0, QUOTE_1, QUOTE_2, QUOTE_3, QUOTE_4, QUOTE_5,
    QUOTE_6, QUOTE_7, QUOTE_8, QUOTE_9, QUOTE_10, QUOTE_11,
    QUOTE_12, QUOTE_13, QUOTE_14, QUOTE_15, QUOTE_16, QUOTE_17
  ]

  const NUM_QUOTES: nat := 18

  /** The ranges `localtime_r` gives `tm_hour`, `tm_min` and `tm_sec`
      (61 seconds allow for a leap second). */
  predicate ValidTime(h: int, m: int, s: int)
  {
    0 <= h < 24 && 0 <= m < 60 && 0 <= s <= 60
  }

  /** `snprintf(buf, 7, "%02d%02d%02d", h, m, s)`. */
  function ClockText(h: int, m: int, s: int): (r: string)
    requires ValidTime(h, m, s)
    ensures |r| == NDIGITS
    ensures forall i :: 0 <= i < |r| ==> IsDigit(r[i])
  {
    TwoDigits(h) + TwoDigits(m) + TwoDigits(s)
  }

  /** The six cards spell the time back: each pair of digits reads as the
      field it was formatted from. */
  lemma ClockTextReadsBack(h: int, m: int, s: int)
    requires ValidTime(h, m, s)
    ensures DecimalValue(ClockText(h, m, s)[0..2]) == h
    ensures DecimalValue(ClockText(h, m, s)[2..4]) == m
    ensures DecimalValue(ClockText(h, m, s)[4..6]) == s
  {
    var r := ClockText(h, m, s);
    assert r[0..2] == TwoDigits(h);
    assert r[2..4] == TwoDigits(m);
    assert r[4..6] == TwoDigits(s);
    TwoDigitsRoundTrip(h);
    TwoDigitsRoundTrip(m);
    TwoDigitsRoundTrip(s);
  }

  /** Two different times never show the same six digits. */
  lemma ClockTextInjective(h: int, m: int, s: int, h': int, m': int, s': int)
    requires ValidTime(h, m, s) && ValidTime(h', m', s')
    requires ClockText(h, m, s) == ClockText(h', m', s')
    ensures h == h' && m == m' && s == s'
  {
    ClockTextReadsBack(h, m, s);
    ClockTextReadsBack(h', m', s');
  }

  /** The tick counter after `n` timer callbacks starting from `t`, and
      how many of those callbacks started a quote rotation. */
  function TicksAfter(t: nat, n: nat): (r: (nat, nat))
    requires t < ROTATE_TICKS
    ensures r.0 < ROTATE_TICKS
  {
    if n == 0 then (t, 0)
    else
      var (c, k) := TicksAfter(t, n - 1);
      if c + 1 >= ROTATE_TICKS then (0, k + 1) else (c + 1, k)
  }

  /** One callback moves the counter as `Clock.Tick` does: up by one,
      wrapping to zero exactly when a rotation starts. */
  lemma TicksAfterOne(t: nat)
    requires t < ROTATE_TICKS
    ensures TicksAfter(t, 1).0 == (t + 1) % ROTATE_TICKS
    ensures TicksAfter(t, 1).1 == 1 <==> t == ROTATE_TICKS - 1
  {
    assert TicksAfter(t, 0) == (t, 0);
  }

  /** From the counter reset by `ui_init`, a rotation starts on every
      twentieth callback, that is every ten seconds, and on no other. */
  lemma {:induction false} RotationEveryTenSeconds(n: nat)
    ensures TicksAfter(0, n) == (n % ROTATE_TICKS, n / ROTATE_TICKS)
  {
    if n > 0 {
      RotationEveryTenSeconds(n - 1);
      var q, r := (n - 1) / ROTATE_TICKS, (n - 1) % ROTATE_TICKS;
      DivModOf(n - 1, q, r);
      if r == ROTATE_TICKS - 1 {
        DivModOf(n, q + 1, 0);
      } else {
        DivModOf(n, q, r + 1);
      }
    }
  }

  lemma DivModOf(n: nat, q: nat, r: nat)
    requires r < ROTATE_TICKS
    ensures n == q * ROTATE_TICKS + r <==> n / ROTATE_TICKS == q && n % ROTATE_TICKS == r
  {
  }

  /** The quote index after `quote_fade_out_done`. */
  function NextQuote(i: nat): (r: nat)
    ensures r < NUM_QUOTES
  {
    (i + 1) % NUM_QUOTES
  }

  /** The quote index after `n` rotations. */
  function QuoteAfter(i: nat, n: nat): nat
  {
    if n == 0 then i else NextQuote(QuoteAfter(i, n - 1))
  }

  lemma {:induction false} QuoteAfterIsModular(i: nat, n: nat)
    requires i < NUM_QUOTES
    ensures QuoteAfter(i, n) == (i + n) % NUM_QUOTES
  {
    if n > 0 {
      QuoteAfterIsModular(i, n - 1);
    }
  }

  /** The quotes cycle: eighteen rotations come back to the same quote,
      and every quote is reached from any other within fewer. */
  lemma QuoteCycle(i: nat, j: nat)
    requires i < NUM_QUOTES && j < NUM_QUOTES
    ensures QuoteAfter(i, NUM_QUOTES) == i
    ensures QuoteAfter(i, (j + NUM_QUOTES - i) % NUM_QUOTES) == j
  {
    QuoteAfterIsModular(i, NUM_QUOTES);
    QuoteModOf(i + NUM_QUOTES, 1, i);
    var n := (j + NUM_QUOTES - i) % NUM_QUOTES;
    if i <= j {
      QuoteModOf(j + NUM_QUOTES - i, 1, j - i);
      QuoteModOf(j, 0, j);
    } else {
      QuoteModOf(j + NUM_QUOTES - i, 0, j + NUM_QUOTES - i);
      QuoteModOf(j + NUM_QUOTES, 1, j);
    }
    QuoteAfterIsModular(i, n);
  }

  lemma QuoteModOf(x: nat, q: nat, r: nat)
    requires r < NUM_QUOTES && x == q * NUM_QUOTES + r
    ensures x % NUM_QUOTES == r
  {
  }

  /** A row of valid cards spelling the time `h:m:s`. */
  predicate ShowsTime(ds: seq<Digit>, h: int, m: int, s: int)
  {
    AllValid(ds) && ValidTime(h, m, s) && Shown(ds) == ClockText(h, m, s)
  }

  /** The quote label shows quote number `idx`. */
  predicate QuoteShown(idx: nat, text: string)
  {
    idx < NUM_QUOTES && text == QUOTES[idx]
  }

  /** The three lines of `ui_init` that fill `s_vietqr`, and the C string
      they leave in it. */
  method BuildVietQr() returns (text: string)
    ensures text == VietQr.Payload()
    ensures NoNul(text) && |text| < VIETQR_SIZE
  {
    var buf := new char[VIETQR_SIZE];
    VietQr.BuildStaticQr(buf);
    text := CStr(buf[..]);
    VietQr.PayloadShape();
  }

  /** The module state of `ui.c`. */
  class Clock {
    /** `s_dig`: H1 H2 M1 M2 S1 S2. */
    const dig: array<Digit>
    /** The C string in `s_vietqr`, which only `ui_init` writes. */
    const vietqr: string
    var lastHour: int
    var lastMin: int
    var lastSec: int
    /** `s_tick_count`: 500 ms ticks since the last quote rotation. */
    var tickCount: nat
    /** `colon_vis` in `ui_timer_cb`. */
    var colonVisible: bool
    var quoteIdx: nat
    /** The text of the quote label. */
    var quote: string

    /** The cards spell the last time seen, the counters stay in range,
        the quote label shows the indexed quote, and `s_vietqr` holds the
        static VietQR payload. */
    ghost predicate Valid()
      reads this, dig
    {
      dig.Length == NDIGITS &&
      ShowsTime(dig[..], lastHour, lastMin, lastSec) &&
      tickCount < ROTATE_TICKS &&
      QuoteShown(quoteIdx, quote) &&
      NoNul(vietqr) && |vietqr| < VIETQR_SIZE
    }

    /** `ui_init` at time `h:m:s`: cards built on label 0 and set to the
        time without animation, first quote, tick counter reset, static
        VietQR built once. */
    constructor Init(h: int, m: int, s: int)
      requires ValidTime(h, m, s)
      ensures Valid() && fresh(dig)
      ensures vietqr == VietQr.Payload()
      ensures lastHour == h && lastMin == m && lastSec == s
      ensures forall i :: 0 <= i < NDIGITS ==> dig[i].active == 0
      ensures tickCount == 0 && quoteIdx == 0 && colonVisible
    {
      var cards := new Digit[NDIGITS](_ => INITIAL);
      var text := ClockText(h, m, s);
      ghost var built := cards[..];
      SetAll(cards, text);
      SetRowShows(built, text);
      var qr := BuildVietQr();
      dig := cards;
      vietqr := qr;
      quoteIdx := 0;
      quote := QUOTES[0];
      lastHour, lastMin, lastSec := h, m, s;
      tickCount := 0;
      colonVisible := true;
    }

    /** `ui_timer_cb` at time `h:m:s`. The cards are re-flipped only when
        the time differs from the last one seen; the colons toggle and
        the tick counter advances on every call; `rotate` says whether
        `quote_rotate` started the fade-out of the quote. */
    method Tick(h: int, m: int, s: int) returns (rotate: bool)
      requires Valid() && ValidTime(h, m, s)
      modifies this, dig
      ensures Valid()
      ensures lastHour == h && lastMin == m && lastSec == s
      ensures dig[..] == FlipRow(old(dig[..]), ClockText(h, m, s))
      ensures h == old(lastHour) && m == old(lastMin) && s == old(lastSec) ==> dig[..] == old(dig[..])
      ensures colonVisible == !old(colonVisible)
      ensures tickCount == (old(tickCount) + 1) % ROTATE_TICKS
      ensures rotate <==> old(tickCount) == ROTATE_TICKS - 1
      ensures quoteIdx == old(quoteIdx) && quote == old(quote)
    {
      ShowTime(h, m, s);
      colonVisible := !colonVisible;
      tickCount := tickCount + 1;
      rotate := false;
      if tickCount >= ROTATE_TICKS {
        tickCount := 0;
        rotate := true;
      }
    }

    /** The clock part of `ui_timer_cb`: the cards flip to `h:m:s` when
        that differs from the last time seen. */
    method ShowTime(h: int, m: int, s: int)
      requires Valid() && ValidTime(h, m, s)
      modifies this, dig
      ensures Valid()
      ensures lastHour == h && lastMin == m && lastSec == s
      ensures dig[..] == FlipRow(old(dig[..]), ClockText(h, m, s))
      ensures h == old(lastHour) && m == old(lastMin) && s == old(lastSec) ==> dig[..] == old(dig[..])
      ensures tickCount == old(tickCount) && colonVisible == old(colonVisible)
      ensures quoteIdx == old(quoteIdx) && quote == old(quote)
    {
      if h != lastHour || m != lastMin || s != lastSec {
        lastHour, lastMin, lastSec := h, m, s;
        var buf := ClockText(h, m, s);
        FlipAll(dig, buf);
        FlipRowShows(old(dig[..]), buf);
      } else {
        FlipRowUnchanged(dig[..]);
      }
    }

    /** `quote_fade_out_done`: the next quote, wrapping after the last. */
    method QuoteFadeOutDone()
      requires Valid()
      modifies this
      ensures Valid()
      ensures quoteIdx == NextQuote(old(quoteIdx)) && quote == QUOTES[quoteIdx]
      ensures tickCount == old(tickCount) && colonVisible == old(colonVisible)
      ensures lastHour == old(lastHour) && lastMin == old(lastMin) && lastSec == old(lastSec)
    {
      quoteIdx := (quoteIdx + 1) % NUM_QUOTES;
      quote := QUOTES[quoteIdx];
    }

    /** `on_idle_tap`: the static VietQR with no amount and the account
        holder's name, shown through the QR screen's static path. */
    method OnIdleTap(screen: QrScreen.Screens)
      requires Valid() && screen.Valid()
      modifies screen
      ensures screen.Valid()
      ensures screen.active == QrScreen.QrCode && screen.showingStatic
      ensures screen.Displayed() == (vietqr, [], STATIC_DESC)
      ensures screen.last == QrScreen.StaticPayload(vietqr, [], STATIC_DESC)
      ensures screen.dismissed == old(screen.dismissed)
    {
      screen.ShowStatic(vietqr, [], STATIC_DESC);
    }
  }
}
