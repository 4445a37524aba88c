/** The minimal HH:MM flip clock (`idle_screen.c`): four large cards laid
    out symmetrically around a centred colon, redrawn only when the hour or
    minute changes. Cards are placed at absolute coordinates; the model
    computes those coordinates and the state of the four cards. Widgets,
    styles and animations are not modelled. */
module IdleScreen {
  import opened Util
  import opened FlipCard
  import AppConfig

  const CARD_W: int := 90
  const CARD_H: int := 120
  const PAIR_GAP: int := 8
  const COLON_GAP: int := 16
  const COLON_W: int := 30
  const NDIGITS: nat := 4

  /** The width of the whole group: four cards, two gaps inside the pairs,
      the colon and the gaps on either side of it. */
  const GROUP_W: int := NDIGITS * CARD_W + 2 * PAIR_GAP + 2 * COLON_GAP + COLON_W

  /** A card's position and size on the 480 x 480 screen. */
  datatype Rect = Rect(x: int, y: int, w: int, h: int)

  predicate OnScreen(r: Rect)
  {
    0 <= r.x && r.x + r.w <= AppConfig.LCD_H_RES && 0 <= r.y && r.y + r.h <= AppConfig.LCD_V_RES
  }

  /** `ox` and `oy`: the group centred horizontally, the cards vertically.
      Both operands are positive, so C's truncating division agrees with
      Dafny's. */
  function Origin(): (o: (int, int))
    ensures o.0 * 2 + GROUP_W <= AppConfig.LCD_H_RES && o.1 * 2 + CARD_H <= AppConfig.LCD_V_RES
  {
    ((AppConfig.LCD_H_RES - GROUP_W) / 2, (AppConfig.LCD_V_RES - CARD_H) / 2)
  }

  /** The card positions and the slot kept for the colon, computed the way
      `idle_screen_init` walks `x` from `ox`. */
  method Layout() returns (cards: seq<Rect>, colonX: int)
    ensures |cards| == NDIGITS
    ensures forall i :: 0 <= i < NDIGITS ==> OnScreen(cards[i])
    ensures forall i :: 0 <= i < NDIGITS ==> cards[i].w == CARD_W && cards[i].h == CARD_H && cards[i].y == Origin().1
    ensures cards[0].x + CARD_W + PAIR_GAP == cards[1].x
    ensures cards[1].x + CARD_W + COLON_GAP == colonX
    ensures colonX + COLON_W + COLON_GAP == cards[2].x
    ensures cards[2].x + CARD_W + PAIR_GAP == cards[3].x
    ensures cards[0].x == AppConfig.LCD_H_RES - (cards[3].x + CARD_W)
    ensures 2 * colonX + COLON_W == AppConfig.LCD_H_RES
    ensures 2 * cards[0].y + CARD_H == AppConfig.LCD_V_RES
    ensures cards[0].x == 21 && cards[1].x == 119 && cards[2].x == 271 && cards[3].x == 369
    ensures colonX == 225 && cards[0].y == 180
  {
    var (ox, oy) := Origin();
    var x := ox;
    cards := [Rect(x, oy, CARD_W, CARD_H)];
    x := x + CARD_W + PAIR_GAP;
    cards := cards + [Rect(x, oy, CARD_W, CARD_H)];
    x := x + CARD_W + COLON_GAP;
    colonX := x;
    x := x + COLON_W + COLON_GAP;
    cards := cards + [Rect(x, oy, CARD_W, CARD_H)];
    x := x + CARD_W + PAIR_GAP;
    cards := cards + [Rect(x, oy, CARD_W, CARD_H)];
  }

  /** The group is 438 pixels wide and starts at (21, 180). */
  lemma OriginValues()
    ensures GROUP_W == 438 && Origin() == (21, 180)
  {
  }

  predicate ValidHM(h: int, m: int)
  {
    0 <= h < 24 && 0 <= m < 60
  }

  /** `snprintf(buf, 5, "%02d%02d", h, m)`. */
  function HourMinText(h: int, m: int): (r: string)
    requires ValidHM(h, m)
    ensures |r| == NDIGITS
  {
    TwoDigits(h) + TwoDigits(m)
  }

  /** Different times of day give different card texts. */
  lemma HourMinTextInjective(h: int, m: int, h': int, m': int)
    requires ValidHM(h, m) && ValidHM(h', m')
    requires HourMinText(h, m) == HourMinText(h', m')
    ensures h == h' && m == m'
  {
    var r := HourMinText(h, m);
    assert r[..2] == TwoDigits(h) && r[2..] == TwoDigits(m);
    var r' := HourMinText(h', m');
    assert r'[..2] == TwoDigits(h') && r'[2..] == TwoDigits(m');
    TwoDigitsRoundTrip(h);
    TwoDigitsRoundTrip(m);
    TwoDigitsRoundTrip(h');
    TwoDigitsRoundTrip(m');
  }

  /** A row of valid cards spelling `h:m`. */
  predicate ShowsTime(ds: seq<Digit>, h: int, m: int)
  {
    AllValid(ds) && ValidHM(h, m) && Shown(ds) == HourMinText(h, m)
  }

  /** The module state of `idle_screen.c`. */
  class Clock {
    /** `s_dig`: H1 H2 M1 M2. */
    const dig: array<Digit>
    /** Where `init_digit` placed the four cards. */
    const cards: seq<Rect>
    var lastHour: int
    var lastMin: int
    /** Whether `idle_screen_show` has loaded this screen. */
    var loaded: bool

    ghost predicate Valid()
      reads this, dig
    {
      dig.Length == NDIGITS && |cards| == NDIGITS && ShowsTime(dig[..], lastHour, lastMin)
    }

    /** `idle_screen_init` at `h:m`: cards laid out, set to the time
        without animation on label 0. The screen is built, not loaded. */
    constructor Init(h: int, m: int)
      requires ValidHM(h, m)
      ensures Valid() && fresh(dig) && !loaded
      ensures lastHour == h && lastMin == m
      ensures forall i :: 0 <= i < NDIGITS ==> dig[i].active == 0 && OnScreen(cards[i])
    {
      var rects, colonX := Layout();
      var row := new Digit[NDIGITS](_ => INITIAL);
      var text := HourMinText(h, m);
      ghost var built := row[..];
      SetAll(row, text);
      SetRowShows(built, text);
      dig := row;
      cards := rects;
      lastHour, lastMin := h, m;
      loaded := false;
    }

    /** `time_check_cb` at `h:m` (the seconds of the time of day play no
        part). The same hour and minute change nothing; otherwise they
        are recorded and every card is flipped to its new digit. */
    method TimeCheck(h: int, m: int)
      requires Valid() && ValidHM(h, m)
      modifies this, dig
      ensures Valid()
      ensures lastHour == h && lastMin == m && loaded == old(loaded)
      ensures dig[..] == FlipRow(old(dig[..]), HourMinText(h, m))
      ensures h == old(lastHour) && m == old(lastMin) ==> dig[..] == old(dig[..])
    {
      if h == lastHour && m == lastMin {
        FlipRowUnchanged(dig[..]);
        return;
      }
      lastHour, lastMin := h, m;
      var buf := HourMinText(h, m);
      FlipAll(dig, buf);
      FlipRowShows(old(dig[..]), buf);
    }

    /** `idle_screen_show`. */
    method Show()
      requires Valid()
      modifies this
      ensures Valid() && loaded
      ensures lastHour == old(lastHour) && lastMin == old(lastMin)
    {
      loaded := true;
    }
  }
}
