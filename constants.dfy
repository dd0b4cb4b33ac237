/** Geometry, direction table, game states, power-ups and the player
    information formatters (src/constants.rs). World coordinates are reals:
    every f32 constant of the source is exactly representable. */
module Constants {

  import opened Resources

  datatype Vec2 = Vec2(x: real, y: real)
  datatype Vec3 = Vec3(x: real, y: real, z: real)

  const MAP_WIDTH: real := 1600.0
  const MAP_HEIGHT: real := 1200.0
  const LEFT_PADDING: real := 230.0
  const RIGHT_PADDING: real := 230.0
  const TOP_PADDING: real := 100.0
  const BOTTOM_PADDING: real := 0.0
  const TANK_WIDTH: real := 87.0
  const TANK_HEIGHT: real := 87.0
  const VERTICAL_OFFSET: real := (BOTTOM_PADDING - TOP_PADDING) / 2.0
  const WINDOW_WIDTH: real := MAP_WIDTH + LEFT_PADDING + RIGHT_PADDING
  const WINDOW_HEIGHT: real := MAP_HEIGHT + TOP_PADDING + BOTTOM_PADDING
  const WINDOW_LEFT_X: real := -WINDOW_WIDTH / 2.0
  const WINDOW_RIGHT_X: real := WINDOW_WIDTH / 2.0
  const WINDOW_TOP_Y: real := WINDOW_HEIGHT / 2.0
  const MAP_LEFT_X: real := -MAP_WIDTH / 2.0
  const MAP_RIGHT_X: real := MAP_WIDTH / 2.0
  const MAP_TOP_Y: real := MAP_HEIGHT / 2.0 + VERTICAL_OFFSET
  const MAP_BOTTOM_Y: real := -MAP_HEIGHT / 2.0 + VERTICAL_OFFSET

  /** The derived window and map geometry. */
  lemma DerivedGeometry()
    ensures WINDOW_WIDTH == 2060.0 && WINDOW_HEIGHT == 1300.0
    ensures VERTICAL_OFFSET == -50.0
    ensures MAP_TOP_Y - MAP_BOTTOM_Y == MAP_HEIGHT
    ensures MAP_RIGHT_X - MAP_LEFT_X == MAP_WIDTH
    ensures WINDOW_LEFT_X < MAP_LEFT_X && MAP_RIGHT_X < WINDOW_RIGHT_X
    ensures MAP_TOP_Y < WINDOW_TOP_Y
  {
  }

  const ENEMY_BORN_PLACES: seq<Vec3> := [
    Vec3(MAP_LEFT_X + TANK_WIDTH / 2.0, MAP_TOP_Y - TANK_HEIGHT / 2.0, 0.0),
    Vec3(0.0, MAP_TOP_Y - TANK_HEIGHT / 2.0, 0.0),
    Vec3(MAP_RIGHT_X - TANK_WIDTH / 2.0, MAP_TOP_Y - TANK_HEIGHT / 2.0, 0.0)
  ]

  /** Every enemy birth place holds a whole tank inside the map, touching the
      top edge. */
  lemma BornPlacesInsideMap(i: nat)
    requires i < |ENEMY_BORN_PLACES|
    ensures MAP_LEFT_X <= ENEMY_BORN_PLACES[i].x - TANK_WIDTH / 2.0
    ensures ENEMY_BORN_PLACES[i].x + TANK_WIDTH / 2.0 <= MAP_RIGHT_X
    ensures ENEMY_BORN_PLACES[i].y + TANK_HEIGHT / 2.0 == MAP_TOP_Y
    ensures MAP_BOTTOM_Y <= ENEMY_BORN_PLACES[i].y - TANK_HEIGHT / 2.0
  {
  }

  /** Up, down, left, right. */
  const DIRECTIONS: seq<Vec2> := [Vec2(0.0, 1.0), Vec2(0.0, -1.0), Vec2(-1.0, 0.0), Vec2(1.0, 0.0)]

  predicate IsAxisUnit(v: Vec2)
  {
    (v.x == 0.0 && (v.y == 1.0 || v.y == -1.0)) || (v.y == 0.0 && (v.x == 1.0 || v.x == -1.0))
  }

  /** The direction table holds the four axis-aligned unit vectors, each once. */
  lemma DirectionsAreTheFourAxes()
    ensures |DIRECTIONS| == 4
    ensures forall i :: 0 <= i < 4 ==> IsAxisUnit(DIRECTIONS[i])
    ensures forall i, j :: 0 <= i < j < 4 ==> DIRECTIONS[i] != DIRECTIONS[j]
    ensures forall v :: IsAxisUnit(v) ==> v in DIRECTIONS
  {
  }

  datatype GameState = StartScreen | FadingOut | StageIntro | Playing | Paused | GameOver

  /** `#[default] StartScreen`. */
  const DEFAULT_GAME_STATE: GameState := StartScreen

  /** First and last atlas index of an animation. */
  datatype AnimationIndices = AnimationIndices(first: nat, last: nat)

  datatype TankType = Player1 | Player2 | Enemy

  datatype PowerUp = SpeedUp | Protection | FireSpeed | FireShell | TrackChain
                   | Penetrate | Repair | Hamburger | AirCushion | Shell

  function PowerUpTexturePath(p: PowerUp): (path: string)
    ensures |path| > |"power_up/"| && path[..|"power_up/"|] == "power_up/"
  {
    match p
    case SpeedUp => "power_up/speed_up.png"
    case Protection => "power_up/protection.png"
    case FireSpeed => "power_up/fire_speed.png"
    case FireShell => "power_up/fire_shell.png"
    case TrackChain => "power_up/track_chain.png"
    case Penetrate => "power_up/penetrate.png"
    case Repair => "power_up/repair.png"
    case Hamburger => "power_up/hamburger.png"
    case AirCushion => "power_up/air_cushion.png"
    case Shell => "power_up/shell.png"
  }

  /** Different power-ups never share a texture. */
  lemma PowerUpTexturePathInjective(p: PowerUp, q: PowerUp)
    ensures PowerUpTexturePath(p) == PowerUpTexturePath(q) <==> p == q
  {
  }

  /** `TankFireConfig::default()`: one bullet at a time, 0.2 s cooldown (in ms). */
  datatype TankFireConfig = TankFireConfig(maxBullets: nat, cooldownMillis: nat)
  const DEFAULT_TANK_FIRE_CONFIG: TankFireConfig := TankFireConfig(1, 200)

  // ---------------------------------------------------------------------
  // Decimal rendering, the `{}` of Rust's format! on an unsigned integer.

  function DigitChar(d: nat): (c: char)
    requires d < 10
    ensures '0' <= c <= '9'
  {
    "0123456789"[d]
  }

  function DigitValue(c: char): (d: nat)
    requires '0' <= c <= '9'
    ensures d < 10
  {
    (c - '0') as nat
  }

  predicate AllDigits(s: string)
  {
    forall i :: 0 <= i < |s| ==> '0' <= s[i] <= '9'
  }

  /** The shortest decimal rendering of n. */
  function NatToString(n: nat): (s: string)
    ensures |s| >= 1 && AllDigits(s)
    ensures |s| > 1 ==> s[0] != '0'
  {
    if n < 10 then [DigitChar(n)] else NatToString(n / 10) + [DigitChar(n % 10)]
  }

  /** Reads a string of decimal digits back as a number. */
  function ParseDecimal(s: string): (n: nat)
    requires AllDigits(s)
  {
    if s == [] then 0 else ParseDecimal(s[..|s| - 1]) * 10 + DigitValue(s[|s| - 1])
  }

  /** Rendering a number and reading it back gives the number. */
  lemma {:induction false} ParseNatToString(n: nat)
    ensures ParseDecimal(NatToString(n)) == n
  {
    var s := NatToString(n);
    if n < 10 {
      assert s[..|s| - 1] == [];
      assert DigitValue(DigitChar(n)) == n;
    } else {
      ParseNatToString(n / 10);
      assert s[..|s| - 1] == NatToString(n / 10);
      assert DigitValue(DigitChar(n % 10)) == n % 10;
    }
  }

  /** Different numbers render differently. */
  lemma NatToStringInjective(m: nat, n: nat)
    ensures NatToString(m) == NatToString(n) <==> m == n
  {
    ParseNatToString(m);
    ParseNatToString(n);
  }

  // ---------------------------------------------------------------------
  // The player information texts (the NormalText closures of the UI tables).

  /** A percentage statistic: "<caption>:MAX" from 100 on, "<caption>:<v>%" below. */
  function PercentText(caption: string, v: nat): (text: string)
    ensures text == caption + ":MAX" <==> v >= 100
    ensures v < 100 ==> text == caption + ":" + NatToString(v) + "%"
  {
    if v >= 100 then caption + ":MAX"
    else
      var text := caption + ":" + NatToString(v) + "%";
      assert text[|text| - 1] == '%';
      assert (caption + ":MAX")[|caption| + 3] == 'X';
      text
  }

  function OnOff(b: bool): (text: string)
    ensures text == "On" <==> b
    ensures text == "Off" <==> !b
  {
    if b then "On" else "Off"
  }

  /** Which text a NormalText element shows. */
  datatype TextField = Name | Speed | FireSpeedText | ProtectionText | Shells
                     | PenetrateText | TrackChainText | AirCushionText | FireShellText
                     | Effects | Score(playerNumber: nat)

  datatype UIElementType = NormalText(field: TextField) | PlayerAvatar | HealthBar | BlueBar

  datatype UIElementConfig = UIElementConfig(elementType: UIElementType, xPos: real, yPos: real, fontSize: real)

  function RenderText(field: TextField, info: PlayerStats): (text: string)
  {
    match field
    case Name => info.name
    case Speed => PercentText("Speed", info.speed)
    case FireSpeedText => PercentText("Fire Speed", info.fireSpeed)
    case ProtectionText => PercentText("Protection", info.protection)
    case Shells => "Shells: " + NatToString(info.shells)
    case PenetrateText => "Penetrate: " + OnOff(info.penetrate)
    case TrackChainText => "Track Chain:" + OnOff(info.trackChain)
    case AirCushionText => "Air Cushion:" + OnOff(info.airCushion)
    case FireShellText => "Fire Shell:" + OnOff(info.fireShell)
    case Effects => "Effects"
    case Score(k) => "Scores" + NatToString(k) + ": " + NatToString(info.score)
  }

  /** The speed line reads "Speed:MAX" exactly when the speed is at least 100,
      and otherwise shows the speed itself, which can be read back from it. */
  lemma SpeedTextShowsValue(info: PlayerStats)
    ensures RenderText(Speed, info) == "Speed:MAX" <==> info.speed >= 100
    ensures info.speed < 100 ==>
      var t := RenderText(Speed, info);
      |t| >= 8 && t[..6] == "Speed:" && t[|t| - 1] == '%' &&
      AllDigits(t[6..|t| - 1]) && ParseDecimal(t[6..|t| - 1]) == info.speed
  {
    if info.speed < 100 {
      var t := RenderText(Speed, info);
      var digits := NatToString(info.speed);
      assert t == "Speed:" + digits + "%";
      assert t[6..|t| - 1] == digits;
      ParseNatToString(info.speed);
    }
  }

  /** One column of player information, at horizontal position x. */
  function PlayerColumn(x: real, scoreNumber: nat): (configs: seq<UIElementConfig>)
    ensures |configs| == 14
    ensures forall i :: 0 <= i < |configs| ==> configs[i].xPos == x
  {
    [ UIElementConfig(NormalText(Name), x, WINDOW_TOP_Y - 780.0, 32.0),
      UIElementConfig(NormalText(Speed), x, WINDOW_TOP_Y - 830.0, 24.0),
      UIElementConfig(NormalText(FireSpeedText), x, WINDOW_TOP_Y - 880.0, 24.0),
      UIElementConfig(NormalText(ProtectionText), x, WINDOW_TOP_Y - 930.0, 24.0),
      UIElementConfig(NormalText(Shells), x, WINDOW_TOP_Y - 980.0, 24.0),
      UIElementConfig(NormalText(PenetrateText), x, WINDOW_TOP_Y - 420.0, 24.0),
      UIElementConfig(NormalText(TrackChainText), x, WINDOW_TOP_Y - 470.0, 24.0),
      UIElementConfig(NormalText(AirCushionText), x, WINDOW_TOP_Y - 520.0, 24.0),
      UIElementConfig(NormalText(FireShellText), x, WINDOW_TOP_Y - 370.0, 24.0),
      UIElementConfig(NormalText(Effects), x, WINDOW_TOP_Y - 320.0, 32.0),
      UIElementConfig(NormalText(Score(scoreNumber)), x, WINDOW_TOP_Y - 50.0, 28.0),
      UIElementConfig(PlayerAvatar, x, WINDOW_TOP_Y - 150.0, 0.0),
      UIElementConfig(HealthBar, x, WINDOW_TOP_Y - 235.0, 0.0),
      UIElementConfig(BlueBar, x, WINDOW_TOP_Y - 250.0, 0.0) ]
  }

  const PLAYER1_UI_ELEMENTS: seq<UIElementConfig> := PlayerColumn(WINDOW_LEFT_X + 115.0, 1)
  const PLAYER2_UI_ELEMENTS: seq<UIElementConfig> := PlayerColumn(WINDOW_RIGHT_X - 115.0, 2)

  /** Player 1's elements all sit left of the centre line and player 2's all
      right of it. */
  lemma UiColumnsOnTheirSides()
    ensures forall i :: 0 <= i < |PLAYER1_UI_ELEMENTS| ==> PLAYER1_UI_ELEMENTS[i].xPos < 0.0
    ensures forall i :: 0 <= i < |PLAYER2_UI_ELEMENTS| ==> PLAYER2_UI_ELEMENTS[i].xPos > 0.0
  {
  }
}
