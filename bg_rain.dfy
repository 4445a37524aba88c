/** The rain background (`bg_rain.c`): a full-screen base, ten translucent
    "bokeh" discs from a fixed table, sixty thin rain streaks placed by
    fixed modular formulas, and a full-screen fog layer on top. Every
    object is static; the model is the list of objects `bg_rain_create`
    makes, in creation (and so drawing) order, with their geometry,
    colour and opacity. */
module BgRain {
  import opened Util
  import AppConfig

  datatype Color = Color(red: byte, green: byte, blue: byte)

  /** A rectangle object; `round` is set for the discs, which use a
      circular radius. */
  datatype Obj = Obj(x: int, y: int, w: int, h: int, color: Color, opa: int, round: bool)

  predicate OnScreen(o: Obj)
  {
    0 <= o.x && o.x + o.w <= AppConfig.LCD_H_RES && 0 <= o.y && o.y + o.h <= AppConfig.LCD_V_RES
  }

  /** Covers the whole 480 x 480 screen. */
  predicate FullScreen(o: Obj)
  {
    o.x == 0 && o.y == 0 && o.w == AppConfig.LCD_H_RES && o.h == AppConfig.LCD_V_RES
  }

  const WHITE: Color := Color(255, 255, 255)
  const LV_OPA_COVER: int := 255

  /** The base, a dark navy gradient (its gradient end colour is not
      modelled). */
  const BASE: Obj := Obj(0, 0, 480, 480, Color(15, 20, 35), LV_OPA_COVER, false)

  /** The fog layer: white at opacity 8. */
  const FOG: Obj := Obj(0, 0, 480, 480, WHITE, 8, false)

  /** One row of the `lights` table: centre, radius, colour, opacity. */
  datatype Light = Light(x: int, y: int, r: int, color: Color, opa: int)

  const LIGHTS: seq<Light> := [
    Light(120, 200, 40, Color(255, 200, 100), 30),
    Light(350, 180, 55, Color(255, 150, 50), 25),
    Light(80, 350, 35, Color(200, 220, 255), 20),
    Light(400, 320, 45, Color(255, 180, 80), 28),
    Light(240, 280, 50, Color(255, 255, 200), 22),
    Light(180, 150, 30, Color(200, 150, 255), 18),
    Light(320, 380, 38, Color(255, 200, 150), 25),
    Light(60, 180, 42, Color(150, 200, 255), 20),
    Light(440, 150, 35, Color(255, 220, 100), 22),
    Light(280, 100, 48, Color(200, 180, 255), 18)
  ]

  const NUM_STREAKS: nat := 60

  /** The disc for one light: a `2r` square whose corner is `r` above and
      to the left of the centre, drawn round. */
  function Dot(l: Light): (o: Obj)
    ensures o.round && o.w == o.h
  {
    Obj(l.x - l.r, l.y - l.r, l.r * 2, l.r * 2, l.color, l.opa, true)
  }

  /** Rain streak `i`: one pixel wide, placed by the formulas of the
      second loop. All operands are non-negative, so C's `%` and Dafny's
      agree. */
  function Streak(i: nat): Obj
  {
    Obj((i * 37 + 13) % 480, (i * 53 + 7) % 300, 1, 40 + (i * 29) % 120, WHITE, 15 + (i * 7) % 30, false)
  }

  function Dots(): (ds: seq<Obj>)
    ensures |ds| == |LIGHTS|
  {
    seq(|LIGHTS|, i requires 0 <= i < |LIGHTS| => Dot(LIGHTS[i]))
  }

  function Streaks(): (ss: seq<Obj>)
    ensures |ss| == NUM_STREAKS
  {
    seq(NUM_STREAKS, i requires 0 <= i < NUM_STREAKS => Streak(i))
  }

  /** Everything `bg_rain_create` makes, in creation order. */
  function Scene(): seq<Obj>
  {
    [BASE] + Dots() + Streaks() + [FOG]
  }

  /** Each disc is centred on its light's centre. */
  lemma DotCentred(l: Light)
    ensures Dot(l).x + Dot(l).w / 2 == l.x && Dot(l).y + Dot(l).h / 2 == l.y
  {
  }

  /** The ranges of the streak formulas, and so every streak lies on the
      screen: `x` in [0, 480), `y` in [0, 300), height in [40, 160),
      opacity in [15, 45), and `y + h` below 460. */
  lemma StreakRanges(i: nat)
    ensures 0 <= Streak(i).x < 480 && 0 <= Streak(i).y < 300
    ensures 40 <= Streak(i).h < 160 && 15 <= Streak(i).opa < 45
    ensures Streak(i).y + Streak(i).h < 460
    ensures OnScreen(Streak(i))
  {
  }

  /** The ten discs of the table lie inside the screen. */
  lemma DotsOnScreen()
    ensures forall i :: 0 <= i < |LIGHTS| ==> OnScreen(Dots()[i])
  {
    forall i | 0 <= i < |LIGHTS|
      ensures OnScreen(Dots()[i])
    {
      var l := LIGHTS[i];
      assert 0 <= l.x - l.r && l.x + l.r <= 480 && 0 <= l.y - l.r && l.y + l.r <= 480;
    }
  }

  /** The scene: 72 objects, the base at the bottom and the fog on top,
      both covering the screen, and no object outside it. */
  lemma SceneShape()
    ensures |Scene()| == 2 + |LIGHTS| + NUM_STREAKS == 72
    ensures Scene()[0] == BASE && Scene()[71] == FOG
    ensures FullScreen(BASE) && FullScreen(FOG)
    ensures forall i :: 0 <= i < |Scene()| ==> OnScreen(Scene()[i])
  {
    DotsOnScreen();
    forall i | 0 <= i < |Scene()|
      ensures OnScreen(Scene()[i])
    {
      if 1 <= i < 1 + |LIGHTS| {
        assert Scene()[i] == Dots()[i - 1];
      } else if 1 + |LIGHTS| <= i < 1 + |LIGHTS| + NUM_STREAKS {
        assert Scene()[i] == Streak(i - 1 - |LIGHTS|);
        StreakRanges(i - 1 - |LIGHTS|);
      }
    }
  }

  /** `bg_rain_create`: the base, then one disc per table row, then the
      streaks, then the fog, each appended as the C code creates it. */
  method BgRainCreate() returns (objs: seq<Obj>)
    ensures objs == Scene()
  {
    objs := [BASE];
    for i := 0 to 10
      invariant objs == [BASE] + Dots()[..i]
    {
      var l := LIGHTS[i];
      objs := objs + [Obj(l.x - l.r, l.y - l.r, l.r * 2, l.r * 2, l.color, l.opa, true)];
      assert Dots()[..i + 1] == Dots()[..i] + [Dot(l)];
    }
    for i := 0 to NUM_STREAKS
      invariant objs == [BASE] + Dots() + Streaks()[..i]
    {
      var x := (i * 37 + 13) % 480;
      var y := (i * 53 + 7) % 300;
      var h := 40 + (i * 29) % 120;
      objs := objs + [Obj(x, y, 1, h, WHITE, 15 + (i * 7) % 30, false)];
      assert Streaks()[..i + 1] == Streaks()[..i] + [Streak(i)];
    }
    objs := objs + [FOG];
  }
}
