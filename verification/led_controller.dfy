/**
 * The animation engine of the status LED ring.
 *
 * The controller keeps a mode, an 8-bit step counter, a pulse brightness and
 * direction, a rainbow offset, the audio level buffer and the pixel buffer of
 * the NeoPixel strip.  Every animation is time-gated: it does nothing until its
 * interval has passed since the last frame.  The clock `millis()` is a
 * parameter `now`, which never decreases; random draws are parameters too.
 *
 * `Leds` is the whole state as a value and the `...Spec` functions are the
 * transitions; the `Strip` class holds the same state in fields and arrays and
 * its methods are proved to perform exactly those transitions.
 */
module LedController {
  import opened Arduino

  /** The display modes (`LedState`). */
  datatype LedState =
    | Idle | WifiConnecting | WifiError | SpotifyConnecting | SpotifyError
    | NfcReading | TagProcessing | TagSuccess | TagFailure | DeviceSelected
    | MusicPlaying | MusicPaused | Standby | Startup | TokenRefresh
    | Searching | VolumeUp | VolumeDown | SkipTrack | PrevTrack

  /** A pixel colour, one byte per channel. */
  datatype Color = Color(r: byte, g: byte, b: byte)

  const OFF: Color := Color(0, 0, 0)

  // The status colours.
  const WIFI_CONNECTING_COLOR: Color := Color(255, 200, 0)
  const WIFI_ERROR_COLOR: Color := Color(255, 0, 0)
  const SPOTIFY_CONNECTING_COLOR: Color := Color(0, 100, 255)
  const SPOTIFY_ERROR_COLOR: Color := Color(255, 80, 0)
  const NFC_READING_COLOR: Color := Color(0, 0, 255)
  const TAG_PROCESSING_COLOR: Color := Color(138, 43, 226)
  const SUCCESS_COLOR: Color := Color(0, 255, 0)
  const IDLE_COLOR: Color := Color(0, 100, 0)
  const DEVICE_SELECTED_COLOR: Color := Color(0, 255, 255)
  const PAUSED_COLOR: Color := Color(30, 50, 100)
  const STANDBY_COLOR: Color := Color(20, 20, 20)
  const TOKEN_REFRESH_COLOR: Color := Color(150, 0, 200)
  const SEARCHING_COLOR: Color := Color(200, 200, 200)
  const VOLUME_COLOR: Color := Color(0, 200, 100)
  const SKIP_COLOR: Color := Color(0, 200, 255)

  // Frame intervals in milliseconds.
  const PULSE_INTERVAL: nat := 30
  const BLINK_FAST_INTERVAL: nat := 150
  const BLINK_SLOW_INTERVAL: nat := 500
  const SPIN_INTERVAL: nat := 100
  const RAINBOW_INTERVAL: nat := 50
  const BREATHING_INTERVAL: nat := 40
  const SPARKLE_INTERVAL: nat := 80
  const CHASE_INTERVAL: nat := 60
  const FLASH_INTERVAL: nat := 150
  const SWEEP_INTERVAL: nat := 80
  const RING_INTERVAL: nat := 60
  const MIC_SAMPLE_INTERVAL: nat := 35

  /** Number of LEDs on the ring of the device. */
  const NUM_LEDS: nat := 8

  // ---------------------------------------------------------------------------
  // Arithmetic of the 8-bit counters and colour channels
  // ---------------------------------------------------------------------------

  /** Conversion to `uint8_t`: the value modulo 256. */
  function Wrap8(x: int): (b: byte)
    ensures 0 <= x < 256 ==> b == x
    ensures (b - x) % 256 == 0
  {
    x % 256
  }

  /** C's `/` on `int`, which truncates toward zero. */
  function CDiv(a: int, d: int): (q: int)
    requires d > 0
    ensures a >= 0 ==> q == a / d
    ensures a < 0 ==> q == -((-a) / d)
  {
    if a >= 0 then a / d else -((-a) / d)
  }

  /** Arduino's `constrain`. */
  function Clamp(x: int, lo: int, hi: int): (y: int)
    requires lo <= hi
    ensures lo <= y <= hi
    ensures lo <= x <= hi ==> y == x
  {
    if x < lo then lo else if x > hi then hi else x
  }

  lemma ProductBelow(x: nat, level: nat)
    requires level <= 255
    ensures x * level <= x * 255
  {
  }

  /** One channel scaled by `level / 255`. */
  function ScaleChannel(x: byte, level: byte): (y: byte)
    ensures y <= x
    ensures level == 255 ==> y == x
    ensures level == 0 ==> y == 0
  {
    ProductBelow(x, level);
    (x * level) / 255
  }

  /** `(c * level) / 255` on each channel. */
  function Scale(c: Color, level: byte): (s: Color)
    ensures s.r <= c.r && s.g <= c.g && s.b <= c.b
    ensures level == 255 ==> s == c
  {
    Color(ScaleChannel(c.r, level), ScaleChannel(c.g, level), ScaleChannel(c.b, level))
  }

  function Half(c: Color): Color
  {
    Color(c.r / 2, c.g / 2, c.b / 2)
  }

  function Quarter(c: Color): Color
  {
    Color(c.r / 4, c.g / 4, c.b / 4)
  }

  /**
   * One channel times the `double` 0.7, truncated to a byte.  The double nearest
   * 0.7 lies just below it, and the rounded product falls just short of the
   * integer seven tenths for 90, 170 and 180 only.  A lit channel always fades.
   */
  function DimChannel(x: byte): (y: byte)
    ensures y <= x * 7 / 10 <= y + 1
    ensures x > 0 ==> y < x
  {
    if x == 90 || x == 170 || x == 180 then x * 7 / 10 - 1 else x * 7 / 10
  }

  /** The dimming of the sparkle effect, every channel times 0.7. */
  function Dim(c: Color): Color
  {
    Color(DimChannel(c.r), DimChannel(c.g), DimChannel(c.b))
  }

  function Filled(n: nat, c: Color): (f: seq<Color>)
    ensures |f| == n && forall i :: 0 <= i < n ==> f[i] == c
  {
    seq(n, _ => c)
  }

  // ---------------------------------------------------------------------------
  // Pulse and breathing brightness
  // ---------------------------------------------------------------------------

  /** A brightness and the direction it moves in (1 brightening, 0 dimming). */
  datatype Glow = Glow(brightness: byte, direction: byte)

  /** The brightness values the pulse animation can be in. */
  predicate PulseRange(g: Glow)
  {
    g.direction <= 1 && g.brightness % 5 == 0 && 20 <= g.brightness <= 255 &&
    (g.direction == 1 ==> g.brightness < 255) && (g.direction == 0 ==> g.brightness > 20)
  }

  /** The brightness values the breathing animation can be in. */
  predicate BreathRange(g: Glow)
  {
    g.direction <= 1 && g.brightness % 2 == 0 && 10 <= g.brightness <= 150 &&
    (g.direction == 1 ==> g.brightness < 150) && (g.direction == 0 ==> g.brightness > 10)
  }

  /** One pulse frame: 5 up to 255, then 5 down to 20, in 8-bit arithmetic. */
  function PulseStep(g: Glow): Glow
  {
    if g.direction == 1 then
      var up := Wrap8(g.brightness + 5);
      if up >= 255 then Glow(255, 0) else Glow(up, g.direction)
    else
      var down := Wrap8(g.brightness - 5);
      if down <= 20 then Glow(20, 1) else Glow(down, g.direction)
  }

  /** One breathing frame: 2 up to 150, then 2 down to 10, in 8-bit arithmetic. */
  function BreathStep(g: Glow): Glow
  {
    if g.direction == 1 then
      var up := Wrap8(g.brightness + 2);
      if up >= 150 then Glow(150, 0) else Glow(up, g.direction)
    else
      var down := Wrap8(g.brightness - 2);
      if down <= 10 then Glow(10, 1) else Glow(down, g.direction)
  }

  /**
   * The pulse stays within [20, 255] without wrapping, moves by 5, and its
   * direction flips exactly when it reaches a bound.
   */
  lemma PulseStepInRange(g: Glow)
    requires PulseRange(g)
    ensures var h := PulseStep(g);
            PulseRange(h) &&
            (h.direction != g.direction <==> h.brightness == 20 || h.brightness == 255) &&
            (h.direction == g.direction ==> h.brightness == if g.direction == 1 then g.brightness + 5 else g.brightness - 5)
  {
    if g.direction == 1 {
      assert Wrap8(g.brightness + 5) == g.brightness + 5;
    } else {
      assert Wrap8(g.brightness - 5) == g.brightness - 5;
    }
  }

  /**
   * Breathing stays within [10, 150] without wrapping, moves by 2, and its
   * direction flips exactly when it reaches a bound.
   */
  lemma BreathStepInRange(g: Glow)
    requires BreathRange(g)
    ensures var h := BreathStep(g);
            BreathRange(h) &&
            (h.direction != g.direction <==> h.brightness == 10 || h.brightness == 150) &&
            (h.direction == g.direction ==> h.brightness == if g.direction == 1 then g.brightness + 2 else g.brightness - 2)
  {
    if g.direction == 1 {
      assert Wrap8(g.brightness + 2) == g.brightness + 2;
    } else {
      assert Wrap8(g.brightness - 2) == g.brightness - 2;
    }
  }

  // ---------------------------------------------------------------------------
  // Colour wheel and frames
  // ---------------------------------------------------------------------------

  /** `colorWheel`: a hue on the red-green-blue circle at full intensity. */
  function ColorWheel(pos: byte): (c: Color)
    ensures c.r + c.g + c.b == 255
    ensures c.r == 0 || c.g == 0 || c.b == 0
  {
    var w := 255 - pos;
    if w < 85 then Color(255 - w * 3, 0, w * 3)
    else if w < 170 then Color(0, (w - 85) * 3, 255 - (w - 85) * 3)
    else Color((w - 170) * 3, 255 - (w - 170) * 3, 0)
  }

  /** The spin comet: full colour at `pos`, half after it, a quarter before it. */
  function SpinFrame(n: nat, pos: nat, c: Color): (f: seq<Color>)
    requires 2 <= n && pos < n
    ensures |f| == n
  {
    Filled(n, OFF)[pos := c][(pos + 1) % n := Half(c)][(pos + n - 1) % n := Quarter(c)]
  }

  /** Only `pos` and its two neighbours on the ring are lit, and all three are when the colour is bright enough. */
  lemma SpinLights(n: nat, pos: nat, c: Color)
    requires 2 <= n && pos < n
    ensures forall j :: 0 <= j < n && SpinFrame(n, pos, c)[j] != OFF ==>
              j == pos || j == (pos + 1) % n || j == (pos + n - 1) % n
    ensures Quarter(c) != OFF ==>
              SpinFrame(n, pos, c)[pos] != OFF && SpinFrame(n, pos, c)[(pos + 1) % n] != OFF &&
              SpinFrame(n, pos, c)[(pos + n - 1) % n] != OFF
  {
    var f := SpinFrame(n, pos, c);
    if Quarter(c) != OFF {
      assert Half(c) != OFF && c != OFF;
      if n > 2 {
        assert (pos + 1) % n != pos && (pos + n - 1) % n != pos;
      } else {
        assert (pos + 1) % n == (pos + n - 1) % n;
        assert (pos + 1) % n != pos;
      }
    }
  }

  /** Two comets running in opposite directions, the second drawn over the first. */
  function DualSpinFrame(n: nat, step: nat, c1: Color, c2: Color): (f: seq<Color>)
    requires 2 <= n
    ensures |f| == n
  {
    var pos1 := step % n;
    var pos2 := n - 1 - step % n;
    SpinFrame(n, pos1, c1)[pos2 := c2][(pos2 + n - 1) % n := Half(c2)][(pos2 + 1) % n := Quarter(c2)]
  }

  /** The two comets are mirror images: their heads add up to `n - 1`. */
  lemma DualSpinLights(n: nat, step: nat, c1: Color, c2: Color)
    requires 2 <= n
    ensures var pos1 := step % n;
            var pos2 := n - 1 - step % n;
            pos1 + pos2 == n - 1 &&
            DualSpinFrame(n, step, c1, c2)[pos2] == c2 &&
            forall j :: 0 <= j < n && DualSpinFrame(n, step, c1, c2)[j] != OFF ==>
              j == pos1 || j == (pos1 + 1) % n || j == (pos1 + n - 1) % n ||
              j == pos2 || j == (pos2 + 1) % n || j == (pos2 + n - 1) % n
  {
    var pos1 := step % n;
    var pos2 := n - 1 - pos1;
    var f, g := DualSpinFrame(n, step, c1, c2), SpinFrame(n, pos1, c1);
    SpinLights(n, pos1, c1);
    NeighboursDiffer(n, pos2);
    forall j | 0 <= j < n && f[j] != OFF
      ensures j == pos1 || j == (pos1 + 1) % n || j == (pos1 + n - 1) % n ||
              j == pos2 || j == (pos2 + 1) % n || j == (pos2 + n - 1) % n
    {
      if j != pos2 && j != (pos2 + 1) % n && j != (pos2 + n - 1) % n {
        assert f[j] == g[j];
      }
    }
  }

  /** On a ring of at least two LEDs, the neighbours of a pixel are other pixels. */
  lemma NeighboursDiffer(n: nat, p: nat)
    requires 2 <= n && p < n
    ensures (p + 1) % n != p && (p + n - 1) % n != p
  {
    ModBelowTwice(p + 1, n);
    ModBelowTwice(p + n - 1, n);
  }

  /** A flash frame: every pixel lit on even steps, all dark on odd steps. */
  function FlashFrame(n: nat, step: nat, c: Color): (f: seq<Color>)
    ensures |f| == n
    ensures step % 2 == 0 ==> forall i :: 0 <= i < n ==> f[i] == c
    ensures step % 2 == 1 ==> forall i :: 0 <= i < n ==> f[i] == OFF
  {
    if step % 2 == 0 then Filled(n, c) else Filled(n, OFF)
  }

  /** The wheel position of pixel `i` of a rainbow spread over the ring. */
  function RainbowIndex(n: nat, i: nat, offset: nat): byte
    requires n > 0
  {
    Wrap8(i * 256 / n + offset)
  }

  /** A rainbow spread over the ring, turned by `offset`. */
  function WaveFrame(n: nat, offset: nat): (f: seq<Color>)
    requires n > 0
    ensures |f| == n
  {
    seq(n, i requires 0 <= i < n => ColorWheel(RainbowIndex(n, i, offset)))
  }

  /** The rainbow sweep: pixels `0..pos` in their rainbow colours, the rest dark. */
  function SweepFrame(n: nat, pos: nat): (f: seq<Color>)
    requires 0 < n && pos < n
    ensures |f| == n
    ensures forall i :: 0 <= i < n ==> (f[i] != OFF <==> i <= pos)
  {
    seq(n, i requires 0 <= i < n => if i <= pos then ColorWheel(RainbowIndex(n, i, 0)) else OFF)
  }

  /** Intensity of ring `i` of the expanding ring: `255 - 30 i` in 8 bits, at least 50. */
  function ExpandIntensity(i: nat): (x: byte)
    ensures x >= 50
    ensures 30 * i <= 205 ==> x == 255 - 30 * i
  {
    var x := Wrap8(255 - i * 30);
    if x < 50 then 50 else x
  }

  /**
   * Intensity of ring `i` of the contracting ring: `50 + 30 i` in 8 bits.  The
   * source's cap at 255 compares an 8-bit value and never applies.
   */
  function ContractIntensity(i: nat): (x: byte)
    ensures 50 + 30 * i < 256 ==> x == 50 + 30 * i
  {
    Wrap8(50 + i * 30)
  }

  /** On the eight-LED ring the last ring of the contracting animation wraps to a near-dark 4. */
  lemma ContractIntensityWraps()
    ensures ContractIntensity(6) == 230
    ensures ContractIntensity(7) == 4
  {
  }

  /** The two pixels of ring `i` of the expanding ring: `i` steps either side of the centre. */
  function ExpandPos(n: nat, i: nat, clockwise: bool): (p: nat)
    requires 0 < n && i <= n
    ensures p < n
  {
    if clockwise then (n / 2 + i) % n else (n / 2 - i + n) % n
  }

  /** The two pixels of ring `i` of the contracting ring: `i` steps in from the far side. */
  function ContractPos(n: nat, i: nat, clockwise: bool): (p: nat)
    requires 0 < n && i <= n
    ensures p < n
  {
    if clockwise then (n / 2 + n / 2 - i) % n else (n / 2 - n / 2 + i + n) % n
  }

  /** The expanding ring after drawing rings `0..k` around the centre. */
  function ExpandFrame(n: nat, k: nat, c: Color): (f: seq<Color>)
    requires 0 < n && k <= n
    ensures |f| == n
  {
    if k == 0 then Filled(n, OFF)
    else
      var i := k - 1;
      var x := Scale(c, ExpandIntensity(i));
      ExpandFrame(n, k - 1, c)[ExpandPos(n, i, true) := x][ExpandPos(n, i, false) := x]
  }

  /** The contracting ring after drawing rings `0..k` from the outside in. */
  function ContractFrame(n: nat, k: nat, c: Color): (f: seq<Color>)
    requires 0 < n && k <= n
    ensures |f| == n
  {
    if k == 0 then Filled(n, OFF)
    else
      var i := k - 1;
      var x := Scale(c, ContractIntensity(i));
      ContractFrame(n, k - 1, c)[ContractPos(n, i, true) := x][ContractPos(n, i, false) := x]
  }

  /** The only pixels the expanding ring lights are the ones its first `k` rings name. */
  lemma {:induction false} ExpandLights(n: nat, k: nat, c: Color, j: nat)
    requires 0 < n && k <= n && j < n
    requires ExpandFrame(n, k, c)[j] != OFF
    ensures exists i, cw :: 0 <= i < k && j == ExpandPos(n, i, cw)
  {
    var i := k - 1;
    if j != ExpandPos(n, i, true) && j != ExpandPos(n, i, false) {
      ExpandLights(n, k - 1, c, j);
    }
  }

  /** The only pixels the contracting ring lights are the ones its first `k` rings name. */
  lemma {:induction false} ContractLights(n: nat, k: nat, c: Color, j: nat)
    requires 0 < n && k <= n && j < n
    ensures ContractFrame(n, k, c)[j] != OFF ==> exists i, cw :: 0 <= i < k && j == ContractPos(n, i, cw)
  {
    if k > 0 {
      var i := k - 1;
      if j != ContractPos(n, i, true) && j != ContractPos(n, i, false) {
        ContractLights(n, k - 1, c, j);
      }
    }
  }

  /**
   * The contracting ring walks the rings of the expanding one from the outside
   * in: its ring `i` is the expanding ring's ring `n / 2 - i`, on both sides.
   */
  lemma ContractRingsReverseExpand(n: nat, i: nat, clockwise: bool)
    requires 0 < n && i <= n / 2
    ensures ContractPos(n, i, clockwise) == ExpandPos(n, n / 2 - i, clockwise)
  {
  }

  /** Intensity of the `t`-th tail pixel of the chase: `255 - 60 t` in 8 bits, at least 30. */
  function ChaseIntensity(t: nat): (x: byte)
    ensures x >= 30
  {
    var x := Wrap8(255 - t * 60);
    if x < 30 then 30 else x
  }

  /** Head of the chase comet: forward for skip, backward for previous. */
  function ChaseHead(n: nat, step: nat, right: bool): (pos: nat)
    requires 0 < n
    ensures pos < n
  {
    if right then step % n else n - 1 - step % n
  }

  lemma ModBelowTwice(step: nat, n: nat)
    requires 0 < n && step < 2 * n
    ensures step % n == if step < n then step else step - n
  {
    if step >= n {
      assert (step - n) % n == step - n;
      assert step % n == (step - n) % n;
    }
  }

  /** The head never trails the tail by more than it has advanced: `pos - t + n` is never negative. */
  lemma ChaseTailInRange(n: nat, step: nat, t: nat)
    requires 2 <= n && step < 2 * n && t <= step && t < 4
    ensures t <= step % n + n
  {
    ModBelowTwice(step, n);
  }

  /** The `t`-th tail pixel of the chase, `t` places behind the head. */
  function ChaseTail(n: nat, step: nat, right: bool, t: nat): (p: nat)
    requires 2 <= n && step < 2 * n && t <= step && t < 4
    ensures p < n
  {
    var pos := ChaseHead(n, step, right);
    if right then
      ChaseTailInRange(n, step, t);
      (pos - t + n) % n
    else (pos + t) % n
  }

  /** The chase after drawing tail pixels `0..k` behind the head. */
  function ChaseFrame(n: nat, step: nat, c: Color, right: bool, k: nat): (f: seq<Color>)
    requires 2 <= n && step < 2 * n && k <= 4 && k <= step + 1
    ensures |f| == n
  {
    if k == 0 then Filled(n, OFF)
    else
      var t := k - 1;
      ChaseFrame(n, step, c, right, k - 1)[ChaseTail(n, step, right, t) := Scale(c, ChaseIntensity(t))]
  }

  /**
   * The chase lights only its head and the pixels behind it: every lit LED is
   * one of the first `k` tail positions, and the head (`t == 0`) is at
   * `ChaseHead`.
   */
  lemma {:induction false} ChaseLights(n: nat, step: nat, c: Color, right: bool, k: nat, j: nat)
    requires 2 <= n && step < 2 * n && k <= 4 && k <= step + 1 && j < n
    ensures ChaseFrame(n, step, c, right, k)[j] != OFF ==> exists t :: 0 <= t < k && j == ChaseTail(n, step, right, t)
    ensures k >= 1 ==> ChaseTail(n, step, right, 0) == ChaseHead(n, step, right)
  {
    var pos := ChaseHead(n, step, right);
    ModBelowTwice(pos + n, n);
    ModBelowTwice(pos, n);
    if k > 0 && j != ChaseTail(n, step, right, k - 1) {
      ChaseLights(n, step, c, right, k - 1, j);
    }
  }

  /**
   * When the strip has room for the whole tail its pixels are distinct LEDs,
   * so the `t`-th one shows intensity `ChaseIntensity(t)`.
   */
  lemma {:induction false} ChaseTailShows(n: nat, step: nat, c: Color, right: bool, k: nat, t: nat)
    requires 2 <= n && step < 2 * n && k <= 4 && k <= step + 1 && k <= n && t < k
    ensures ChaseFrame(n, step, c, right, k)[ChaseTail(n, step, right, t)] == Scale(c, ChaseIntensity(t))
  {
    if t < k - 1 {
      ChaseTailsDistinct(n, step, right, t, k - 1);
      ChaseTailShows(n, step, c, right, k - 1, t);
    }
  }

  /** Two tail pixels less than `n` places apart are different LEDs. */
  lemma ChaseTailsDistinct(n: nat, step: nat, right: bool, t: nat, u: nat)
    requires 2 <= n && step < 2 * n && t < u <= step && u < 4 && u < n
    ensures ChaseTail(n, step, right, t) != ChaseTail(n, step, right, u)
  {
    var pos := ChaseHead(n, step, right);
    if right {
      ChaseTailInRange(n, step, u);
      ModDistinct(pos - u + n, pos - t + n, n);
    } else {
      ModDistinct(pos + t, pos + u, n);
    }
  }

  /** Two numbers below `2 n` less than `n` apart leave different remainders. */
  lemma ModDistinct(a: int, b: int, n: nat)
    requires 0 < n && 0 <= a < b < 2 * n && b - a < n
    ensures a % n != b % n
  {
    if a >= n {
      assert a % n == a - n && b % n == b - n;
    } else if b >= n {
      assert a % n == a && b % n == b - n;
    } else {
      assert a % n == a && b % n == b;
    }
  }

  /** Number of tail pixels the chase draws at `step`: up to four, never more than `step + 1`. */
  function ChaseLength(step: nat): (k: nat)
    ensures k <= 4 && k <= step + 1 && k >= 1
  {
    if step + 1 < 4 then step + 1 else 4
  }

  // ---------------------------------------------------------------------------
  // Sound-reactive levels
  // ---------------------------------------------------------------------------

  /**
   * The audio buffer after one sample: the left half moves one cell away from
   * the centre, the right half one cell away on the other side, and the two
   * centre cells take the new level.  With an odd number of cells, the cell
   * right of the centre pair keeps its value.
   */
  function ShiftLevels(levels: seq<int>, level: int): (r: seq<int>)
    requires |levels| >= 2
    ensures |r| == |levels|
  {
    var n := |levels|;
    var h := n / 2;
    seq(n, i requires 0 <= i < n =>
      if i < h - 1 then levels[i + 1]
      else if i == h - 1 || i == h then level
      else if i >= n - (h - 1) then levels[i - 1]
      else levels[i])
  }

  predicate Mirrored(levels: seq<int>)
  {
    forall i :: 0 <= i < |levels| ==> levels[i] == levels[|levels| - 1 - i]
  }

  /** On a ring with an even number of LEDs, a mirror-symmetric level display stays symmetric. */
  lemma ShiftKeepsMirror(levels: seq<int>, level: int)
    requires |levels| >= 2 && |levels| % 2 == 0 && Mirrored(levels)
    ensures Mirrored(ShiftLevels(levels, level))
  {
    var n := |levels|;
    var r := ShiftLevels(levels, level);
    forall i | 0 <= i < n
      ensures r[i] == r[n - 1 - i]
    {
      var h := n / 2;
      if i < h - 1 {
        assert r[n - 1 - i] == levels[n - 2 - i];
        assert levels[i + 1] == levels[n - 1 - (i + 1)];
      } else if i > h {
        assert r[i] == levels[i - 1];
        assert levels[i - 1] == levels[n - 1 - (i - 1)];
      }
    }
  }

  /** The sound-reactive picture: green at each cell's level, kept within [20, 255]. */
  function LevelFrame(levels: seq<int>): (f: seq<Color>)
    ensures |f| == |levels|
    ensures forall i :: 0 <= i < |levels| ==> f[i].r == 0 && f[i].b == 0 && 20 <= f[i].g
    ensures forall i :: 0 <= i < |levels| && 20 <= levels[i] <= 255 ==> f[i].g == levels[i]
  {
    seq(|levels|, i requires 0 <= i < |levels| => Color(0, Clamp(levels[i], 20, 255), 0))
  }

  // ---------------------------------------------------------------------------
  // The controller state and its transitions
  // ---------------------------------------------------------------------------

  /** The raw draws of `random()` the sparkle effect makes in one frame. */
  datatype SparkleDraws = SparkleDraws(first: nat, coin: nat, second: nat)

  /** The whole controller state as a value. */
  datatype Leds = Leds(state: LedState, step: byte, glow: Glow, rainbowOffset: nat,
                       lastAnimationTime: nat, lastSampleTime: nat,
                       pixels: seq<Color>, levels: seq<int>)

  /** A ring of `n` LEDs that the sweep and chase counters can finish on. */
  predicate Sized(v: Leds, n: nat)
  {
    |v.pixels| == n && |v.levels| == n && 2 <= n && 3 * n < 256
  }

  /** Number of flashes of each flashing mode. */
  function FlashCount(s: LedState): nat
  {
    match s
    case TagSuccess => 3
    case TagFailure => 5
    case DeviceSelected => 2
    case _ => 0
  }

  predicate IsPulsing(s: LedState)
  {
    s == WifiConnecting || s == SpotifyConnecting || s == TokenRefresh
  }

  predicate IsBreathing(s: LedState)
  {
    s == MusicPaused || s == Standby
  }

  /** The modes that end by themselves and return to IDLE. */
  predicate IsTransient(s: LedState)
  {
    FlashCount(s) > 0 || s == Startup || s == VolumeUp || s == VolumeDown || s == SkipTrack || s == PrevTrack
  }

  /** The largest step counter each transient mode reaches before it ends. */
  function LastStep(s: LedState, n: nat): nat
  {
    match s
    case Startup => 3 * n
    case VolumeUp => n + 1
    case VolumeDown => n
    case SkipTrack => 2 * n
    case PrevTrack => 2 * n
    case _ => 2 * FlashCount(s)
  }

  /** The invariant of the controller on a ring of `n` LEDs. */
  predicate Wellformed(v: Leds, n: nat)
  {
    Sized(v, n) && v.rainbowOffset < 256 &&
    (IsPulsing(v.state) ==> PulseRange(v.glow)) &&
    (IsBreathing(v.state) ==> BreathRange(v.glow)) &&
    (IsTransient(v.state) ==> v.step <= LastStep(v.state, n))
  }

  /** Frames the current transient mode still draws before it returns to IDLE. */
  function Remaining(v: Leds): nat
  {
    var n := |v.pixels|;
    if !IsTransient(v.state) then 0
    else if v.state == VolumeDown then v.step + 1
    else if v.step <= LastStep(v.state, n) then LastStep(v.state, n) - v.step + 1
    else 0
  }

  /** The controller as constructed: IDLE, dark, silent. */
  function Initial(n: nat): Leds
  {
    Leds(Idle, 0, Glow(50, 1), 0, 0, 0, Filled(n, OFF), seq(n, _ => 0))
  }

  /** `setState`: a new mode with the step and brightness reset. */
  function SetStateSpec(v: Leds, s: LedState): (w: Leds)
    ensures w.state == s && w.step == 0 && w.glow == Glow(50, 1)
    ensures w.pixels == v.pixels && w.levels == v.levels && w.rainbowOffset == v.rainbowOffset
  {
    v.(state := s, step := 0, glow := Glow(50, 1))
  }

  /** Leaving a finished animation: IDLE with the ring in the idle colour. */
  function ToIdle(v: Leds, now: nat): Leds
  {
    SetStateSpec(v, Idle).(lastAnimationTime := now, pixels := Filled(|v.pixels|, IDLE_COLOR))
  }

  /** The `show*` methods: `setState` and the adjustments each one makes. */
  function ShowSpec(v: Leds, s: LedState): (w: Leds)
  {
    var w := SetStateSpec(v, s);
    match s
    case Idle => w.(pixels := Filled(|v.pixels|, IDLE_COLOR))
    case MusicPlaying => w.(rainbowOffset := 0)
    case Standby => w.(glow := Glow(10, 1))
    case VolumeDown => w.(step := Wrap8(|v.pixels|))
    case _ => w
  }

  /** True when the animation's interval has passed since the last frame. */
  predicate Due(v: Leds, now: nat, interval: nat)
  {
    now >= v.lastAnimationTime + interval
  }

  function PulseSpec(v: Leds, now: nat, c: Color): Leds
  {
    if !Due(v, now, PULSE_INTERVAL) then v
    else
      var g := PulseStep(v.glow);
      v.(lastAnimationTime := now, glow := g, pixels := Filled(|v.pixels|, Scale(c, g.brightness)))
  }

  function BlinkSpec(v: Leds, now: nat, c: Color, interval: nat): Leds
  {
    if !Due(v, now, interval) then v
    else
      var on := v.step == 0;
      v.(lastAnimationTime := now, step := if on then 1 else 0,
         pixels := Filled(|v.pixels|, if on then c else OFF))
  }

  function SpinSpec(v: Leds, now: nat, c: Color): Leds
    requires 2 <= |v.pixels|
  {
    if !Due(v, now, SPIN_INTERVAL) then v
    else
      v.(lastAnimationTime := now, step := Wrap8(v.step + 1),
         pixels := SpinFrame(|v.pixels|, v.step % |v.pixels|, c))
  }

  function DualSpinSpec(v: Leds, now: nat, c1: Color, c2: Color): Leds
    requires 2 <= |v.pixels|
  {
    if !Due(v, now, SPIN_INTERVAL) then v
    else
      v.(lastAnimationTime := now, step := Wrap8(v.step + 1),
         pixels := DualSpinFrame(|v.pixels|, v.step, c1, c2))
  }

  function FlashSpec(v: Leds, now: nat, c: Color, count: nat): Leds
  {
    if !Due(v, now, FLASH_INTERVAL) then v
    else if v.step < Wrap8(count * 2) then
      v.(lastAnimationTime := now, step := Wrap8(v.step + 1),
         pixels := FlashFrame(|v.pixels|, v.step, c))
    else ToIdle(v, now)
  }

  function RainbowWaveSpec(v: Leds, now: nat): Leds
    requires 0 < |v.pixels|
  {
    if !Due(v, now, RAINBOW_INTERVAL) then v
    else
      v.(lastAnimationTime := now, rainbowOffset := (v.rainbowOffset + 3) % 256,
         pixels := WaveFrame(|v.pixels|, v.rainbowOffset))
  }

  function BreathingSpec(v: Leds, now: nat, c: Color): Leds
  {
    if !Due(v, now, BREATHING_INTERVAL) then v
    else
      var g := BreathStep(v.glow);
      v.(lastAnimationTime := now, glow := g, pixels := Filled(|v.pixels|, Scale(c, g.brightness)))
  }

  function RainbowSweepSpec(v: Leds, now: nat): Leds
    requires 0 < |v.pixels|
  {
    var n := |v.pixels|;
    if !Due(v, now, SWEEP_INTERVAL) then v
    else if v.step < n * 3 then
      v.(lastAnimationTime := now, step := Wrap8(v.step + 1), pixels := SweepFrame(n, v.step % n))
    else ToIdle(v, now)
  }

  /** The sparkle frame: every pixel dimmed, one lit, and on a coin above 50 a second one dimly. */
  function SparkleSpec(v: Leds, now: nat, c: Color, draws: SparkleDraws): Leds
    requires 0 < |v.pixels|
  {
    var n := |v.pixels|;
    if !Due(v, now, SPARKLE_INTERVAL) then v
    else
      var dimmed := seq(n, i requires 0 <= i < n => Dim(v.pixels[i]));
      var lit := dimmed[draws.first % n := c];
      v.(lastAnimationTime := now,
         pixels := if draws.coin % 100 > 50 then lit[draws.second % n := Dim(c)] else lit)
  }

  function ExpandRingSpec(v: Leds, now: nat, c: Color): Leds
    requires 0 < |v.pixels|
  {
    var n := |v.pixels|;
    if !Due(v, now, RING_INTERVAL) then v
    else if v.step <= n then
      v.(lastAnimationTime := now, step := Wrap8(v.step + 1), pixels := ExpandFrame(n, v.step, c))
    else ToIdle(v, now)
  }

  function ContractRingSpec(v: Leds, now: nat, c: Color): Leds
    requires 0 < |v.pixels| && v.step <= |v.pixels|
  {
    var n := |v.pixels|;
    if !Due(v, now, RING_INTERVAL) then v
    else if v.step > 0 then
      v.(lastAnimationTime := now, step := v.step - 1, pixels := ContractFrame(n, v.step, c))
    else ToIdle(v, now)
  }

  function ChaseSpec(v: Leds, now: nat, c: Color, right: bool): Leds
    requires 2 <= |v.pixels|
  {
    var n := |v.pixels|;
    if !Due(v, now, CHASE_INTERVAL) then v
    else if v.step < n * 2 then
      v.(lastAnimationTime := now, step := Wrap8(v.step + 1),
         pixels := ChaseFrame(n, v.step, c, right, ChaseLength(v.step)))
    else ToIdle(v, now)
  }

  /** The interval of the animation each mode runs. */
  function Interval(s: LedState): nat
  {
    match s
    case Idle => 0
    case WifiConnecting => PULSE_INTERVAL
    case WifiError => BLINK_FAST_INTERVAL
    case SpotifyConnecting => PULSE_INTERVAL
    case SpotifyError => BLINK_SLOW_INTERVAL
    case NfcReading => SPIN_INTERVAL
    case TagProcessing => SPIN_INTERVAL
    case TagSuccess => FLASH_INTERVAL
    case TagFailure => FLASH_INTERVAL
    case DeviceSelected => FLASH_INTERVAL
    case MusicPlaying => RAINBOW_INTERVAL
    case MusicPaused => BREATHING_INTERVAL
    case Standby => BREATHING_INTERVAL
    case Startup => SWEEP_INTERVAL
    case TokenRefresh => PULSE_INTERVAL
    case Searching => SPARKLE_INTERVAL
    case VolumeUp => RING_INTERVAL
    case VolumeDown => RING_INTERVAL
    case SkipTrack => CHASE_INTERVAL
    case PrevTrack => CHASE_INTERVAL
  }

  /** `updateAnimation`: the animation of the current mode. */
  function AnimateSpec(v: Leds, now: nat, draws: SparkleDraws): Leds
    requires Wellformed(v, |v.pixels|)
  {
    match v.state
    case Idle => v
    case WifiConnecting => PulseSpec(v, now, WIFI_CONNECTING_COLOR)
    case WifiError => BlinkSpec(v, now, WIFI_ERROR_COLOR, BLINK_FAST_INTERVAL)
    case SpotifyConnecting => PulseSpec(v, now, SPOTIFY_CONNECTING_COLOR)
    case SpotifyError => BlinkSpec(v, now, SPOTIFY_ERROR_COLOR, BLINK_SLOW_INTERVAL)
    case NfcReading => SpinSpec(v, now, NFC_READING_COLOR)
    case TagProcessing => DualSpinSpec(v, now, NFC_READING_COLOR, TAG_PROCESSING_COLOR)
    case TagSuccess => FlashSpec(v, now, SUCCESS_COLOR, 3)
    case TagFailure => FlashSpec(v, now, WIFI_ERROR_COLOR, 5)
    case DeviceSelected => FlashSpec(v, now, DEVICE_SELECTED_COLOR, 2)
    case MusicPlaying => RainbowWaveSpec(v, now)
    case MusicPaused => BreathingSpec(v, now, PAUSED_COLOR)
    case Standby => BreathingSpec(v, now, STANDBY_COLOR)
    case Startup => RainbowSweepSpec(v, now)
    case TokenRefresh => PulseSpec(v, now, TOKEN_REFRESH_COLOR)
    case Searching => SparkleSpec(v, now, SEARCHING_COLOR, draws)
    case VolumeUp => ExpandRingSpec(v, now, VOLUME_COLOR)
    case VolumeDown => ContractRingSpec(v, now, VOLUME_COLOR)
    case SkipTrack => ChaseSpec(v, now, SKIP_COLOR, true)
    case PrevTrack => ChaseSpec(v, now, SKIP_COLOR, false)
  }

  /** `update`: animate outside IDLE; IDLE belongs to the sound-reactive display. */
  function UpdateSpec(v: Leds, now: nat, draws: SparkleDraws): Leds
    requires Wellformed(v, |v.pixels|)
  {
    if v.state != Idle then AnimateSpec(v, now, draws) else v
  }

  /** `updateSoundReactive`: in IDLE, once per sample interval, shift in a new level. */
  function SoundSpec(v: Leds, now: nat, audioLevel: int): Leds
    requires |v.levels| >= 2
  {
    if v.state != Idle || now < v.lastSampleTime + MIC_SAMPLE_INTERVAL then v
    else
      var levels := ShiftLevels(v.levels, CDiv(audioLevel, 4));
      v.(lastSampleTime := now, levels := levels, pixels := LevelFrame(levels))
  }

  // ---------------------------------------------------------------------------
  // Properties of the transitions
  // ---------------------------------------------------------------------------

  lemma ShowKeepsWellformed(v: Leds, s: LedState, n: nat)
    requires Wellformed(v, n)
    ensures Wellformed(ShowSpec(v, s), n)
    ensures ShowSpec(v, s).state == s
    ensures ShowSpec(v, s).step == (if s == VolumeDown then n else 0)
    ensures ShowSpec(v, s).glow == (if s == Standby then Glow(10, 1) else Glow(50, 1))
  {
  }

  /** Nothing changes before the mode's interval has passed, nor in IDLE. */
  lemma UpdateWaits(v: Leds, now: nat, draws: SparkleDraws)
    requires Wellformed(v, |v.pixels|)
    requires v.state == Idle || now < v.lastAnimationTime + Interval(v.state)
    ensures UpdateSpec(v, now, draws) == v
  {
  }

  /** A due frame of a mode other than IDLE is stamped with the current time. */
  lemma UpdateStamps(v: Leds, now: nat, draws: SparkleDraws)
    requires Wellformed(v, |v.pixels|)
    requires v.state != Idle && now >= v.lastAnimationTime + Interval(v.state)
    ensures UpdateSpec(v, now, draws).lastAnimationTime == now
    ensures UpdateSpec(v, now, draws).levels == v.levels
  {
  }

  /** A frame that keeps the mode, the glow and the levels and redraws the ring keeps the invariant. */
  lemma RedrawKeeps(v: Leds, w: Leds, n: nat)
    requires Wellformed(v, n)
    requires w.state == v.state && w.glow == v.glow && w.levels == v.levels
    requires |w.pixels| == n && w.rainbowOffset < 256
    requires IsTransient(v.state) ==> w.step <= LastStep(v.state, n)
    ensures Wellformed(w, n)
  {
  }

  lemma ToIdleKeeps(v: Leds, now: nat, n: nat)
    requires Wellformed(v, n)
    ensures Wellformed(ToIdle(v, now), n) && ToIdle(v, now).state == Idle
  {
  }

  lemma PulseKeeps(v: Leds, now: nat, c: Color, n: nat)
    requires Wellformed(v, n) && IsPulsing(v.state)
    ensures Wellformed(PulseSpec(v, now, c), n)
  {
    PulseStepInRange(v.glow);
  }

  lemma BreathingKeeps(v: Leds, now: nat, c: Color, n: nat)
    requires Wellformed(v, n) && IsBreathing(v.state)
    ensures Wellformed(BreathingSpec(v, now, c), n)
  {
    BreathStepInRange(v.glow);
  }

  lemma FlashKeeps(v: Leds, now: nat, c: Color, n: nat)
    requires Wellformed(v, n) && FlashCount(v.state) > 0
    ensures Wellformed(FlashSpec(v, now, c, FlashCount(v.state)), n)
  {
    var count := FlashCount(v.state);
    if Due(v, now, FLASH_INTERVAL) && v.step < Wrap8(count * 2) {
      RedrawKeeps(v, FlashSpec(v, now, c, count), n);
    } else if Due(v, now, FLASH_INTERVAL) {
      ToIdleKeeps(v, now, n);
    }
  }

  lemma SweepKeeps(v: Leds, now: nat, n: nat)
    requires Wellformed(v, n) && v.state == Startup
    ensures Wellformed(RainbowSweepSpec(v, now), n)
  {
    if Due(v, now, SWEEP_INTERVAL) && v.step < n * 3 {
      RedrawKeeps(v, RainbowSweepSpec(v, now), n);
    } else if Due(v, now, SWEEP_INTERVAL) {
      ToIdleKeeps(v, now, n);
    }
  }

  lemma ExpandKeeps(v: Leds, now: nat, c: Color, n: nat)
    requires Wellformed(v, n) && v.state == VolumeUp
    ensures Wellformed(ExpandRingSpec(v, now, c), n)
  {
    if Due(v, now, RING_INTERVAL) && v.step <= n {
      RedrawKeeps(v, ExpandRingSpec(v, now, c), n);
    } else if Due(v, now, RING_INTERVAL) {
      ToIdleKeeps(v, now, n);
    }
  }

  lemma ContractKeeps(v: Leds, now: nat, c: Color, n: nat)
    requires Wellformed(v, n) && v.state == VolumeDown
    ensures Wellformed(ContractRingSpec(v, now, c), n)
  {
    if Due(v, now, RING_INTERVAL) && v.step > 0 {
      RedrawKeeps(v, ContractRingSpec(v, now, c), n);
    } else if Due(v, now, RING_INTERVAL) {
      ToIdleKeeps(v, now, n);
    }
  }

  lemma ChaseKeeps(v: Leds, now: nat, c: Color, right: bool, n: nat)
    requires Wellformed(v, n) && (v.state == SkipTrack || v.state == PrevTrack)
    ensures Wellformed(ChaseSpec(v, now, c, right), n)
  {
    if Due(v, now, CHASE_INTERVAL) && v.step < n * 2 {
      RedrawKeeps(v, ChaseSpec(v, now, c, right), n);
    } else if Due(v, now, CHASE_INTERVAL) {
      ToIdleKeeps(v, now, n);
    }
  }

  /** Every transition keeps the invariant. */
  lemma UpdateKeepsWellformed(v: Leds, now: nat, draws: SparkleDraws)
    requires Wellformed(v, |v.pixels|)
    ensures Wellformed(UpdateSpec(v, now, draws), |v.pixels|)
  {
    var n := |v.pixels|;
    match v.state
    case Idle =>
    case WifiConnecting => PulseKeeps(v, now, WIFI_CONNECTING_COLOR, n);
    case SpotifyConnecting => PulseKeeps(v, now, SPOTIFY_CONNECTING_COLOR, n);
    case TokenRefresh => PulseKeeps(v, now, TOKEN_REFRESH_COLOR, n);
    case MusicPaused => BreathingKeeps(v, now, PAUSED_COLOR, n);
    case Standby => BreathingKeeps(v, now, STANDBY_COLOR, n);
    case WifiError => RedrawKeeps(v, UpdateSpec(v, now, draws), n);
    case SpotifyError => RedrawKeeps(v, UpdateSpec(v, now, draws), n);
    case NfcReading => RedrawKeeps(v, UpdateSpec(v, now, draws), n);
    case TagProcessing => RedrawKeeps(v, UpdateSpec(v, now, draws), n);
    case MusicPlaying => RedrawKeeps(v, UpdateSpec(v, now, draws), n);
    case Searching => RedrawKeeps(v, UpdateSpec(v, now, draws), n);
    case TagSuccess => FlashKeeps(v, now, SUCCESS_COLOR, n);
    case TagFailure => FlashKeeps(v, now, WIFI_ERROR_COLOR, n);
    case DeviceSelected => FlashKeeps(v, now, DEVICE_SELECTED_COLOR, n);
    case Startup => SweepKeeps(v, now, n);
    case VolumeUp => ExpandKeeps(v, now, VOLUME_COLOR, n);
    case VolumeDown => ContractKeeps(v, now, VOLUME_COLOR, n);
    case SkipTrack => ChaseKeeps(v, now, SKIP_COLOR, true, n);
    case PrevTrack => ChaseKeeps(v, now, SKIP_COLOR, false, n);
  }

  /**
   * A transient mode either finishes (IDLE, ring in the idle colour) or draws
   * one of its remaining frames; so it is back in IDLE after at most
   * `Remaining(v)` due frames.
   */
  lemma TransientProgress(v: Leds, now: nat, draws: SparkleDraws)
    requires Wellformed(v, |v.pixels|) && IsTransient(v.state)
    requires now >= v.lastAnimationTime + Interval(v.state)
    ensures var w := UpdateSpec(v, now, draws);
            (w.state == Idle && w.pixels == Filled(|v.pixels|, IDLE_COLOR) && Remaining(v) == 1) ||
            (w.state == v.state && Remaining(w) + 1 == Remaining(v))
  {
  }

  /** No animation but a flash lasts more than `3 n + 1` frames, and no flash more than 11. */
  lemma RemainingBound(v: Leds, n: nat)
    requires Wellformed(v, n)
    ensures FlashCount(v.state) == 0 ==> Remaining(v) <= 3 * n + 1
    ensures FlashCount(v.state) > 0 ==> Remaining(v) <= 2 * FlashCount(v.state) + 1 <= 11
    ensures IsTransient(v.state) ==> Remaining(v) >= 1
  {
  }

  /** A flash of `c` flashes lights the ring on its even frames and goes dark on its odd ones. */
  lemma FlashFrames(v: Leds, now: nat, draws: SparkleDraws)
    requires Wellformed(v, |v.pixels|) && FlashCount(v.state) > 0
    requires now >= v.lastAnimationTime + FLASH_INTERVAL && v.step < 2 * FlashCount(v.state)
    ensures var w := UpdateSpec(v, now, draws);
            w.step == v.step + 1 &&
            (v.step % 2 == 0 ==> w.pixels == Filled(|v.pixels|, w.pixels[0]) && w.pixels[0] != OFF) &&
            (v.step % 2 == 1 ==> w.pixels == Filled(|v.pixels|, OFF))
  {
  }

  /** The rainbow offset stays below 256 and the wave turns by three positions a frame. */
  lemma RainbowTurns(v: Leds, now: nat, draws: SparkleDraws)
    requires Wellformed(v, |v.pixels|) && v.state == MusicPlaying
    requires now >= v.lastAnimationTime + RAINBOW_INTERVAL
    ensures var w := UpdateSpec(v, now, draws);
            w.rainbowOffset < 256 && w.rainbowOffset == (v.rainbowOffset + 3) % 256 &&
            forall i :: 0 <= i < |v.pixels| ==>
              w.pixels[i] == ColorWheel(RainbowIndex(|v.pixels|, i, v.rainbowOffset))
  {
  }

  /** The sound display acts only in IDLE and only once per sample interval, and keeps the invariant. */
  lemma SoundKeepsWellformed(v: Leds, now: nat, audioLevel: int)
    requires Wellformed(v, |v.pixels|)
    ensures Wellformed(SoundSpec(v, now, audioLevel), |v.pixels|)
    ensures v.state != Idle || now < v.lastSampleTime + MIC_SAMPLE_INTERVAL ==> SoundSpec(v, now, audioLevel) == v
    ensures SoundSpec(v, now, audioLevel).state == v.state
    ensures SoundSpec(v, now, audioLevel).lastAnimationTime == v.lastAnimationTime
  {
  }

  // ---------------------------------------------------------------------------
  // The controller object
  // ---------------------------------------------------------------------------

  /** `LedController`: the mode and counters in fields, the strip and audio buffer in arrays. */
  class Strip {
    const numLeds: nat
    const pixels: array<Color>
    const audioLevels: array<int>
    var state: LedState
    var animationStep: byte
    var pulseDirection: byte
    var pulseBrightness: byte
    var rainbowOffset: nat
    var lastAnimationTime: nat
    var lastSampleTime: nat

    function View(): Leds
      reads this, pixels, audioLevels
    {
      Leds(state, animationStep, Glow(pulseBrightness, pulseDirection), rainbowOffset,
           lastAnimationTime, lastSampleTime, pixels[..], audioLevels[..])
    }

    predicate Valid()
      reads this, pixels, audioLevels
    {
      pixels.Length == numLeds && audioLevels.Length == numLeds && Wellformed(View(), numLeds)
    }

    constructor (n: nat)
      requires 2 <= n && 3 * n < 256
      ensures numLeds == n && Valid() && View() == Initial(n)
      ensures fresh(pixels) && fresh(audioLevels)
    {
      numLeds := n;
      pixels := new Color[n](_ => OFF);
      audioLevels := new int[n](_ => 0);
      state := Idle;
      animationStep := 0;
      pulseDirection := 1;
      pulseBrightness := 50;
      rainbowOffset := 0;
      lastAnimationTime := 0;
      lastSampleTime := 0;
      new;
      assert pixels[..] == Filled(n, OFF);
      assert audioLevels[..] == seq(n, _ => 0);
    }

    /** Every pixel in one colour: `setColor` with `animate == false`, or `clear` with black. */
    method SetColor(c: Color)
      requires pixels.Length == numLeds
      modifies pixels
      ensures pixels[..] == Filled(numLeds, c)
    {
      var i := 0;
      while i < pixels.Length
        invariant 0 <= i <= pixels.Length
        invariant forall j :: 0 <= j < i ==> pixels[j] == c
      {
        pixels[i] := c;
        i := i + 1;
      }
      assert pixels[..] == Filled(numLeds, c);
    }

    method SetState(s: LedState)
      requires Valid()
      modifies this
      ensures View() == SetStateSpec(old(View()), s)
    {
      state := s;
      animationStep := 0;
      pulseBrightness := 50;
      pulseDirection := 1;
    }

    /** The `show*` methods and their legacy aliases. */
    method Show(s: LedState)
      requires Valid()
      modifies this, pixels
      ensures Valid() && View() == ShowSpec(old(View()), s)
    {
      ShowKeepsWellformed(View(), s, numLeds);
      SetState(s);
      match s
      case Idle => SetColor(IDLE_COLOR);
      case MusicPlaying => rainbowOffset := 0;
      case Standby => pulseBrightness := 10; pulseDirection := 1;
      case VolumeDown => animationStep := Wrap8(numLeds);
      case _ =>
    }

    /** Back to IDLE in the idle colour, as every finished animation does. */
    method FinishAnimation(now: nat)
      requires pixels.Length == numLeds
      modifies this, pixels
      ensures View() == ToIdle(old(View()), now)
    {
      state := Idle;
      animationStep := 0;
      pulseBrightness := 50;
      pulseDirection := 1;
      lastAnimationTime := now;
      SetColor(IDLE_COLOR);
    }

    method AnimatePulse(now: nat, c: Color)
      requires pixels.Length == numLeds
      modifies this, pixels
      ensures View() == PulseSpec(old(View()), now, c)
    {
      if now < lastAnimationTime + PULSE_INTERVAL {
        return;
      }
      lastAnimationTime := now;
      if pulseDirection == 1 {
        pulseBrightness := Wrap8(pulseBrightness + 5);
        if pulseBrightness >= 255 {
          pulseBrightness := 255;
          pulseDirection := 0;
        }
      } else {
        pulseBrightness := Wrap8(pulseBrightness - 5);
        if pulseBrightness <= 20 {
          pulseBrightness := 20;
          pulseDirection := 1;
        }
      }
      SetColor(Scale(c, pulseBrightness));
    }

    method AnimateBlink(now: nat, c: Color, interval: nat)
      requires pixels.Length == numLeds
      modifies this, pixels
      ensures View() == BlinkSpec(old(View()), now, c, interval)
    {
      if now < lastAnimationTime + interval {
        return;
      }
      lastAnimationTime := now;
      animationStep := if animationStep == 0 then 1 else 0;
      if animationStep != 0 {
        SetColor(c);
      } else {
        SetColor(OFF);
      }
    }

    /** Draw one comet over a cleared ring. */
    method DrawSpin(pos: nat, c: Color)
      requires pixels.Length == numLeds && 2 <= numLeds && pos < numLeds
      modifies pixels
      ensures pixels[..] == SpinFrame(numLeds, pos, c)
    {
      SetColor(OFF);
      ghost var f := pixels[..];
      pixels[pos] := c;
      assert pixels[..] == f[pos := c];
      pixels[(pos + 1) % numLeds] := Half(c);
      assert pixels[..] == f[pos := c][(pos + 1) % numLeds := Half(c)];
      pixels[(pos + numLeds - 1) % numLeds] := Quarter(c);
    }

    method AnimateSpin(now: nat, c: Color)
      requires pixels.Length == numLeds && 2 <= numLeds
      modifies this, pixels
      ensures View() == SpinSpec(old(View()), now, c)
    {
      if now < lastAnimationTime + SPIN_INTERVAL {
        return;
      }
      lastAnimationTime := now;
      DrawSpin(animationStep % numLeds, c);
      animationStep := Wrap8(animationStep + 1);
    }

    /** Draw the two comets over a cleared ring, the second over the first. */
    method DrawDualSpin(step: nat, c1: Color, c2: Color)
      requires pixels.Length == numLeds && 2 <= numLeds
      modifies pixels
      ensures pixels[..] == DualSpinFrame(numLeds, step, c1, c2)
    {
      var pos1 := step % numLeds;
      var pos2 := numLeds - 1 - step % numLeds;
      DrawSpin(pos1, c1);
      ghost var f := pixels[..];
      pixels[pos2] := c2;
      assert pixels[..] == f[pos2 := c2];
      pixels[(pos2 + numLeds - 1) % numLeds] := Half(c2);
      assert pixels[..] == f[pos2 := c2][(pos2 + numLeds - 1) % numLeds := Half(c2)];
      pixels[(pos2 + 1) % numLeds] := Quarter(c2);
    }

    method AnimateDualSpin(now: nat, c1: Color, c2: Color)
      requires pixels.Length == numLeds && 2 <= numLeds
      modifies this, pixels
      ensures View() == DualSpinSpec(old(View()), now, c1, c2)
    {
      if now < lastAnimationTime + SPIN_INTERVAL {
        return;
      }
      lastAnimationTime := now;
      DrawDualSpin(animationStep, c1, c2);
      animationStep := Wrap8(animationStep + 1);
    }

    method AnimateFlash(now: nat, c: Color, count: nat)
      requires pixels.Length == numLeds
      modifies this, pixels
      ensures View() == FlashSpec(old(View()), now, c, count)
    {
      if now < lastAnimationTime + FLASH_INTERVAL {
        return;
      }
      lastAnimationTime := now;
      var totalSteps := Wrap8(count * 2);
      if animationStep < totalSteps {
        if animationStep % 2 == 0 {
          SetColor(c);
        } else {
          SetColor(OFF);
        }
        animationStep := Wrap8(animationStep + 1);
      } else {
        FinishAnimation(now);
      }
    }

    /** The rainbow wave's pixel loop. */
    method DrawWave(offset: nat)
      requires pixels.Length == numLeds && 0 < numLeds
      modifies pixels
      ensures pixels[..] == WaveFrame(numLeds, offset)
    {
      var i := 0;
      while i < numLeds
        invariant 0 <= i <= numLeds
        invariant forall j :: 0 <= j < i ==> pixels[j] == ColorWheel(RainbowIndex(numLeds, j, offset))
      {
        pixels[i] := ColorWheel(RainbowIndex(numLeds, i, offset));
        i := i + 1;
      }
      assert pixels[..] == WaveFrame(numLeds, offset);
    }

    method AnimateRainbowWave(now: nat)
      requires pixels.Length == numLeds && 0 < numLeds
      modifies this, pixels
      ensures View() == RainbowWaveSpec(old(View()), now)
    {
      if now < lastAnimationTime + RAINBOW_INTERVAL {
        return;
      }
      lastAnimationTime := now;
      DrawWave(rainbowOffset);
      rainbowOffset := (rainbowOffset + 3) % 256;
    }

    method AnimateBreathing(now: nat, c: Color)
      requires pixels.Length == numLeds
      modifies this, pixels
      ensures View() == BreathingSpec(old(View()), now, c)
    {
      if now < lastAnimationTime + BREATHING_INTERVAL {
        return;
      }
      lastAnimationTime := now;
      if pulseDirection == 1 {
        pulseBrightness := Wrap8(pulseBrightness + 2);
        if pulseBrightness >= 150 {
          pulseBrightness := 150;
          pulseDirection := 0;
        }
      } else {
        pulseBrightness := Wrap8(pulseBrightness - 2);
        if pulseBrightness <= 10 {
          pulseBrightness := 10;
          pulseDirection := 1;
        }
      }
      SetColor(Scale(c, pulseBrightness));
    }

    /** The rainbow sweep's pixel loop over a cleared ring. */
    method DrawSweep(pos: nat)
      requires pixels.Length == numLeds && pos < numLeds
      modifies pixels
      ensures pixels[..] == SweepFrame(numLeds, pos)
    {
      SetColor(OFF);
      var i := 0;
      while i <= pos
        invariant 0 <= i <= pos + 1
        invariant forall j :: 0 <= j < i ==> pixels[j] == ColorWheel(RainbowIndex(numLeds, j, 0))
        invariant forall j :: i <= j < numLeds ==> pixels[j] == OFF
      {
        pixels[i] := ColorWheel(RainbowIndex(numLeds, i, 0));
        i := i + 1;
      }
      assert pixels[..] == SweepFrame(numLeds, pos);
    }

    method AnimateRainbowSweep(now: nat)
      requires pixels.Length == numLeds && 0 < numLeds
      modifies this, pixels
      ensures View() == RainbowSweepSpec(old(View()), now)
    {
      if now < lastAnimationTime + SWEEP_INTERVAL {
        return;
      }
      lastAnimationTime := now;
      if animationStep < numLeds * 3 {
        DrawSweep(animationStep % numLeds);
        animationStep := Wrap8(animationStep + 1);
      } else {
        FinishAnimation(now);
      }
    }

    /** The sparkle's dimming loop. */
    method DimAll()
      requires pixels.Length == numLeds
      modifies pixels
      ensures pixels[..] == seq(numLeds, i requires 0 <= i < numLeds => Dim(old(pixels[..])[i]))
    {
      var i := 0;
      while i < numLeds
        invariant 0 <= i <= numLeds
        invariant forall j :: 0 <= j < i ==> pixels[j] == Dim(old(pixels[j]))
        invariant forall j :: i <= j < numLeds ==> pixels[j] == old(pixels[j])
      {
        pixels[i] := Dim(pixels[i]);
        i := i + 1;
      }
    }

    method AnimateSparkle(now: nat, c: Color, draws: SparkleDraws)
      requires pixels.Length == numLeds && 0 < numLeds
      modifies this, pixels
      ensures View() == SparkleSpec(old(View()), now, c, draws)
    {
      if now < lastAnimationTime + SPARKLE_INTERVAL {
        return;
      }
      lastAnimationTime := now;
      DimAll();
      pixels[draws.first % numLeds] := c;
      if draws.coin % 100 > 50 {
        pixels[draws.second % numLeds] := Dim(c);
      }
    }

    /** The expanding ring's loop over a cleared ring: rings `0..k`. */
    method DrawExpand(k: nat, c: Color)
      requires pixels.Length == numLeds && 0 < numLeds && k <= numLeds
      modifies pixels
      ensures pixels[..] == ExpandFrame(numLeds, k, c)
    {
      SetColor(OFF);
      var i := 0;
      while i < k
        invariant 0 <= i <= k
        invariant pixels[..] == ExpandFrame(numLeds, i, c)
      {
        var x := Scale(c, ExpandIntensity(i));
        pixels[ExpandPos(numLeds, i, true)] := x;
        pixels[ExpandPos(numLeds, i, false)] := x;
        i := i + 1;
      }
    }

    method AnimateExpandRing(now: nat, c: Color)
      requires pixels.Length == numLeds && 0 < numLeds
      modifies this, pixels
      ensures View() == ExpandRingSpec(old(View()), now, c)
    {
      if now < lastAnimationTime + RING_INTERVAL {
        return;
      }
      lastAnimationTime := now;
      if animationStep <= numLeds {
        DrawExpand(animationStep, c);
        animationStep := Wrap8(animationStep + 1);
      } else {
        FinishAnimation(now);
      }
    }

    /** The contracting ring's loop over a cleared ring: rings `0..k`. */
    method DrawContract(k: nat, c: Color)
      requires pixels.Length == numLeds && 0 < numLeds && k <= numLeds
      modifies pixels
      ensures pixels[..] == ContractFrame(numLeds, k, c)
    {
      SetColor(OFF);
      var i := 0;
      while i < k
        invariant 0 <= i <= k
        invariant pixels[..] == ContractFrame(numLeds, i, c)
      {
        var x := Scale(c, ContractIntensity(i));
        pixels[ContractPos(numLeds, i, true)] := x;
        pixels[ContractPos(numLeds, i, false)] := x;
        i := i + 1;
      }
    }

    method AnimateContractRing(now: nat, c: Color)
      requires pixels.Length == numLeds && 0 < numLeds && animationStep <= numLeds
      modifies this, pixels
      ensures View() == ContractRingSpec(old(View()), now, c)
    {
      if now < lastAnimationTime + RING_INTERVAL {
        return;
      }
      lastAnimationTime := now;
      if animationStep > 0 {
        DrawContract(animationStep, c);
        animationStep := animationStep - 1;
      } else {
        FinishAnimation(now);
      }
    }

    /** The chase's tail loop over a cleared ring. */
    method DrawChase(step: nat, c: Color, right: bool)
      requires pixels.Length == numLeds && 2 <= numLeds && step < 2 * numLeds
      modifies pixels
      ensures pixels[..] == ChaseFrame(numLeds, step, c, right, ChaseLength(step))
    {
      SetColor(OFF);
      var t := 0;
      while t < 4 && t <= step
        invariant 0 <= t <= ChaseLength(step)
        invariant pixels[..] == ChaseFrame(numLeds, step, c, right, t)
      {
        pixels[ChaseTail(numLeds, step, right, t)] := Scale(c, ChaseIntensity(t));
        t := t + 1;
      }
    }

    method AnimateChase(now: nat, c: Color, right: bool)
      requires pixels.Length == numLeds && 2 <= numLeds
      modifies this, pixels
      ensures View() == ChaseSpec(old(View()), now, c, right)
    {
      if now < lastAnimationTime + CHASE_INTERVAL {
        return;
      }
      lastAnimationTime := now;
      if animationStep < numLeds * 2 {
        DrawChase(animationStep, c, right);
        animationStep := Wrap8(animationStep + 1);
      } else {
        FinishAnimation(now);
      }
    }

    /** `updateAnimation`: run the animation of the current mode. */
    method UpdateAnimation(now: nat, draws: SparkleDraws)
      requires Valid()
      modifies this, pixels
      ensures Valid() && View() == AnimateSpec(old(View()), now, draws)
    {
      UpdateKeepsWellformed(View(), now, draws);
      match state
      case Idle =>
      case WifiConnecting => AnimatePulse(now, WIFI_CONNECTING_COLOR);
      case WifiError => AnimateBlink(now, WIFI_ERROR_COLOR, BLINK_FAST_INTERVAL);
      case SpotifyConnecting => AnimatePulse(now, SPOTIFY_CONNECTING_COLOR);
      case SpotifyError => AnimateBlink(now, SPOTIFY_ERROR_COLOR, BLINK_SLOW_INTERVAL);
      case NfcReading => AnimateSpin(now, NFC_READING_COLOR);
      case TagProcessing => AnimateDualSpin(now, NFC_READING_COLOR, TAG_PROCESSING_COLOR);
      case TagSuccess => AnimateFlash(now, SUCCESS_COLOR, 3);
      case TagFailure => AnimateFlash(now, WIFI_ERROR_COLOR, 5);
      case DeviceSelected => AnimateFlash(now, DEVICE_SELECTED_COLOR, 2);
      case MusicPlaying => AnimateRainbowWave(now);
      case MusicPaused => AnimateBreathing(now, PAUSED_COLOR);
      case Standby => AnimateBreathing(now, STANDBY_COLOR);
      case Startup => AnimateRainbowSweep(now);
      case TokenRefresh => AnimatePulse(now, TOKEN_REFRESH_COLOR);
      case Searching => AnimateSparkle(now, SEARCHING_COLOR, draws);
      case VolumeUp => AnimateExpandRing(now, VOLUME_COLOR);
      case VolumeDown => AnimateContractRing(now, VOLUME_COLOR);
      case SkipTrack => AnimateChase(now, SKIP_COLOR, true);
      case PrevTrack => AnimateChase(now, SKIP_COLOR, false);
    }

    /** `update`: animate unless IDLE (pushing the buffer to the strip is not modelled). */
    method Update(now: nat, draws: SparkleDraws)
      requires Valid()
      modifies this, pixels
      ensures Valid() && View() == UpdateSpec(old(View()), now, draws)
    {
      if state != Idle {
        UpdateAnimation(now, draws);
      }
    }

    /** The shift loop of `updateSoundReactive` and the two centre cells. */
    method ShiftIn(level: int)
      requires audioLevels.Length == numLeds && 2 <= numLeds
      modifies audioLevels
      ensures audioLevels[..] == ShiftLevels(old(audioLevels[..]), level)
    {
      var halfLeds := numLeds / 2;
      ghost var levels0 := audioLevels[..];
      var i := 0;
      while i < halfLeds - 1
        invariant 0 <= i <= halfLeds - 1
        invariant forall j :: 0 <= j < i ==> audioLevels[j] == levels0[j + 1]
        invariant forall j :: numLeds - i <= j < numLeds ==> audioLevels[j] == levels0[j - 1]
        invariant forall j :: i <= j < numLeds - i ==> audioLevels[j] == levels0[j]
      {
        audioLevels[i] := audioLevels[i + 1];
        audioLevels[numLeds - 1 - i] := audioLevels[numLeds - i - 2];
        i := i + 1;
      }
      audioLevels[halfLeds - 1] := level;
      audioLevels[halfLeds] := level;
      assert audioLevels[..] == ShiftLevels(levels0, level);
    }

    /** The colour loop of `updateSoundReactive`. */
    method ShowLevels()
      requires audioLevels.Length == numLeds && pixels.Length == numLeds
      modifies pixels
      ensures pixels[..] == LevelFrame(audioLevels[..])
    {
      var i := 0;
      while i < numLeds
        invariant 0 <= i <= numLeds
        invariant forall j :: 0 <= j < i ==> pixels[j] == Color(0, Clamp(audioLevels[j], 20, 255), 0)
      {
        pixels[i] := Color(0, Clamp(audioLevels[i], 20, 255), 0);
        i := i + 1;
      }
      assert pixels[..] == LevelFrame(audioLevels[..]);
    }

    /** `updateSoundReactive`: shift in one audio sample and show the levels in green. */
    method UpdateSoundReactive(now: nat, audioLevel: int)
      requires Valid()
      modifies this, pixels, audioLevels
      ensures Valid() && View() == SoundSpec(old(View()), now, audioLevel)
    {
      SoundKeepsWellformed(View(), now, audioLevel);
      if state != Idle {
        return;
      }
      if now < lastSampleTime + MIC_SAMPLE_INTERVAL {
        return;
      }
      lastSampleTime := now;
      ShiftIn(CDiv(audioLevel, 4));
      ShowLevels();
    }
  }
}
