/** The arithmetic of the player's widgets (src/gui.py): the HH:MM:SS time
    label, the mapping between the 0..1000 seek slider and a position in
    seconds, the 0..100 volume slider, the play/pause button, and the rectangle a
    frame is drawn into so that it keeps its aspect ratio. Widgets, painting and
    signals are not modelled; an emitted signal is a returned value. */
module Gui {
  import Text
  import Media

  // ---------------------------------------------------------------------------
  // Python's float `//` and `%` with a positive divisor
  // ---------------------------------------------------------------------------

  function FloorDiv(x: real, y: real): int
    requires y > 0.0
  {
    (x / y).Floor
  }

  function FMod(x: real, y: real): real
    requires y > 0.0
  {
    x - y * FloorDiv(x, y) as real
  }

  /** Comparing a quotient with `a` is comparing the dividend with `a * y`. */
  lemma QuotientBounds(x: real, y: real, a: real)
    requires y > 0.0
    ensures a * y <= x ==> a <= x / y
    ensures x <= a * y ==> x / y <= a
    ensures x < a * y ==> x / y < a
  {
    var z := x / y;
    assert z * y == x;
    if a > z {
      assert (a - z) * y > 0.0;
    }
    if a < z {
      assert (z - a) * y > 0.0;
    }
  }

  /** Dividing a real by a positive integer and flooring gives the integer
      quotient of its floor. */
  lemma FloorDivOfFloor(s: real, d: int)
    requires d > 0
    ensures FloorDiv(s, d as real) == s.Floor / d
  {
    var n := s.Floor;
    var q := n / d;
    var r := n % d;
    assert n == d * q + r && 0 <= r < d;
    assert (d * q) as real <= s < (d * q + d) as real;
    assert (d * q) as real == (q as real) * (d as real);
    assert (d * q + d) as real == (q as real + 1.0) * (d as real);
    QuotientBounds(s, d as real, q as real);
    QuotientBounds(s, d as real, q as real + 1.0);
  }

  /** The remainder keeps the fractional part: its floor is the integer
      remainder of the floor. */
  lemma FModOfFloor(s: real, d: int)
    requires d > 0
    ensures FMod(s, d as real).Floor == s.Floor % d
    ensures FMod(s, d as real) - (s.Floor % d) as real == s - s.Floor as real
  {
    FloorDivOfFloor(s, d);
    var n := s.Floor;
    assert n == d * (n / d) + n % d;
    assert FMod(s, d as real) == s - (d * (n / d)) as real;
  }

  /** Hours, minutes and seconds of a time label. */
  datatype TimeFields = TimeFields(hours: int, minutes: int, seconds: int)

  /** The fields `_format_time` computes: `seconds // 3600`,
      `(seconds % 3600) // 60` and `int(seconds % 60)`. They are the
      hours/minutes/seconds split of the whole seconds in `s`. */
  function TimeFieldsOf(s: real): (f: TimeFields)
    ensures f.hours == s.Floor / 3600
    ensures f.minutes == (s.Floor % 3600) / 60 && f.seconds == s.Floor % 60
    ensures 0 <= f.minutes < 60 && 0 <= f.seconds < 60
    ensures f.hours * 3600 + f.minutes * 60 + f.seconds == s.Floor
    ensures s >= 0.0 ==> f.hours >= 0
  {
    var n := s.Floor;
    FloorDivOfFloor(s, 3600);
    FModOfFloor(s, 3600);
    var rest := FMod(s, 3600.0);
    FloorDivOfFloor(rest, 60);
    FModOfFloor(s, 60);
    var f := TimeFields(FloorDiv(s, 3600.0), FloorDiv(rest, 60.0), Media.Trunc(FMod(s, 60.0)));
    SplitWholeSeconds(n);
    f
  }

  /** The remainder by 60 of a whole number of minutes plus `b` seconds is `b`. */
  lemma ModOfMinutes(a: int, b: int)
    requires 0 <= b < 60
    ensures (60 * a + b) % 60 == b
  {
    var n := 60 * a + b;
    var q, r := n / 60, n % 60;
    assert 60 * q + r == 60 * a + b;
    assert 0 <= r < 60;
    assert q == a;
  }

  /** Splitting whole seconds by hours, then minutes of the remainder, then
      seconds, loses nothing. */
  lemma SplitWholeSeconds(n: int)
    ensures (n / 3600) * 3600 + ((n % 3600) / 60) * 60 + n % 60 == n
  {
    var q, r := n / 3600, n % 3600;
    var m, sec := r / 60, r % 60;
    calc {
      n;
      3600 * q + r;
      3600 * q + 60 * m + sec;
      60 * (60 * q + m) + sec;
    }
    ModOfMinutes(60 * q + m, sec);
    assert n % 60 == sec;
  }

  /** `_format_time(s)`: "HH:MM:SS", each field zero-padded to two digits (the
      hours field grows past two digits beyond 99 hours). Read back, the fields are
      the hours/minutes/seconds split of the whole seconds in `s`. */
  function FormatTime(s: real): (r: string)
    ensures 8 <= |r| && r[|r| - 6] == ':' && r[|r| - 3] == ':'
    ensures var mm := r[|r| - 5..|r| - 3]; Text.AllDigits(mm) && Text.DigitsValue(mm) == (s.Floor % 3600) / 60
    ensures var ss := r[|r| - 2..]; Text.AllDigits(ss) && Text.DigitsValue(ss) == s.Floor % 60
    ensures s >= 0.0 ==>
      var hh := r[..|r| - 6]; Text.AllDigits(hh) && Text.DigitsValue(hh) == s.Floor / 3600
    ensures r[..|r| - 6] == Text.Pad2(s.Floor / 3600)
    ensures r[|r| - 5..|r| - 3] == Text.Pad2((s.Floor % 3600) / 60)
    ensures r[|r| - 2..] == Text.Pad2(s.Floor % 60)
  {
    var f := TimeFieldsOf(s);
    var h := Text.Pad2(f.hours);
    var m := Text.Pad2(f.minutes);
    var sec := Text.Pad2(f.seconds);
    ClockFields(h, m, sec);
    var r := h + ":" + m + ":" + sec;
    assert Text.AllDigits(m) && Text.DigitsValue(m) == (s.Floor % 3600) / 60;
    assert Text.AllDigits(sec) && Text.DigitsValue(sec) == s.Floor % 60;
    r
  }

  /** Where the fields sit in "h:mm:ss" when minutes and seconds have two
      characters each. */
  lemma ClockFields(h: string, m: string, sec: string)
    requires |m| == 2 && |sec| == 2
    ensures var r := h + ":" + m + ":" + sec;
      && |r| == |h| + 6 && r[|r| - 6] == ':' && r[|r| - 3] == ':'
      && r[..|r| - 6] == h && r[|r| - 5..|r| - 3] == m && r[|r| - 2..] == sec
  {
    var r := h + ":" + m + ":" + sec;
    assert r[..|r| - 6] == h;
    assert r[|r| - 5..|r| - 3] == m;
    assert r[|r| - 2..] == sec;
  }

  // ---------------------------------------------------------------------------
  // Player controls
  // ---------------------------------------------------------------------------

  const SliderMax: int := 1000

  datatype Controls = Controls(
    isPlaying: bool,
    duration: real,
    seeking: bool,
    slider: int,
    timeLabel: string,
    durationLabel: string)

  datatype Command = Play | Pause

  predicate SliderInRange(c: Controls) {
    0 <= c.slider <= SliderMax
  }

  /** `_on_play_clicked`: asks to pause while playing and to play otherwise. */
  function PlayClicked(c: Controls): (cmd: Command)
    ensures cmd == Pause <==> c.isPlaying
  {
    if c.isPlaying then Pause else Play
  }

  /** `_on_seek_start`: the user is dragging the slider. */
  function SeekStart(c: Controls): (r: Controls)
    ensures r.seeking && r == c.(seeking := true)
  {
    c.(seeking := true)
  }

  /** The position in seconds a slider value stands for. */
  function SliderToPosition(value: int, duration: real): (p: real)
    ensures 0 <= value <= SliderMax && 0.0 <= duration ==> 0.0 <= p <= duration
    ensures p * SliderMax as real == value as real * duration
  {
    var fraction := value as real / SliderMax as real;
    FractionOf(fraction, duration);
    fraction * duration
  }

  /** A fraction in [0, 1] of a non-negative amount lies between 0 and it. */
  lemma FractionOf(x: real, d: real)
    ensures 0.0 <= x <= 1.0 && 0.0 <= d ==> 0.0 <= x * d <= d
  {
    if 0.0 <= x <= 1.0 && 0.0 <= d {
      assert d - x * d == (1.0 - x) * d;
    }
  }

  /** `_on_seek_end`: the drag ends and a seek to the slider's position is
      requested; a slider in range asks for a position in [0, duration]. */
  function SeekEnd(c: Controls): (r: (Controls, real))
    ensures !r.0.seeking && r.0 == c.(seeking := false)
    ensures r.1 * SliderMax as real == c.slider as real * c.duration
    ensures SliderInRange(c) && c.duration >= 0.0 ==> 0.0 <= r.1 <= c.duration
  {
    (c.(seeking := false), SliderToPosition(c.slider, c.duration))
  }

  /** `_on_seek_move`: the time label previews the dragged position. */
  function SeekMove(c: Controls, value: int): (r: Controls)
    ensures r == c.(timeLabel := FormatTime(SliderToPosition(value, c.duration)))
  {
    c.(timeLabel := FormatTime(SliderToPosition(value, c.duration)))
  }

  /** `set_duration`. */
  function SetDuration(c: Controls, d: real): (r: Controls)
    ensures r.duration == d && r.durationLabel == FormatTime(d)
    ensures r == c.(duration := d, durationLabel := FormatTime(d))
  {
    c.(duration := d, durationLabel := FormatTime(d))
  }

  /** `set_playing`. */
  function SetPlaying(c: Controls, playing: bool): (r: Controls)
    ensures r.isPlaying == playing && PlayClicked(r) == (if playing then Pause else Play)
    ensures r == c.(isPlaying := playing)
  {
    c.(isPlaying := playing)
  }

  /** The slider value asked for at `position`: `int(position / duration * 1000)`. */
  function PositionToSlider(position: real, duration: real): (v: int)
    requires duration > 0.0
    ensures 0.0 <= position ==> v as real <= position / duration * SliderMax as real < v as real + 1.0
  {
    Media.Trunc((position / duration) * SliderMax as real)
  }

  /** The slider keeps a value inside its range 0..1000, as a Qt slider does with
      any value it is given. */
  function ClampToSlider(v: int): (r: int)
    ensures 0 <= r <= SliderMax
    ensures 0 <= v <= SliderMax ==> r == v
    ensures v < 0 ==> r == 0
    ensures v > SliderMax ==> r == SliderMax
  {
    if v < 0 then 0 else if v > SliderMax then SliderMax else v
  }

  /** `set_position(p)`: ignored while the slider is dragged; otherwise the time
      label shows `p` and, when the duration is known, the slider moves to `p`'s
      value. */
  function SetPosition(c: Controls, position: real): (r: Controls)
    ensures c.seeking ==> r == c
    ensures !c.seeking ==> r.timeLabel == FormatTime(position)
    ensures !c.seeking && c.duration <= 0.0 ==> r == c.(timeLabel := FormatTime(position))
    ensures !c.seeking && c.duration > 0.0 ==>
      r == c.(timeLabel := FormatTime(position), slider := ClampToSlider(PositionToSlider(position, c.duration)))
    ensures SliderInRange(c) ==> SliderInRange(r)
  {
    if c.seeking then c
    else
      var c1 := c.(timeLabel := FormatTime(position));
      if c.duration > 0.0 then c1.(slider := ClampToSlider(PositionToSlider(position, c.duration))) else c1
  }

  /** The position a slider value stands for maps back to that value. */
  lemma SliderValueRoundTrip(v: int, duration: real)
    requires duration > 0.0 && 0 <= v <= SliderMax
    ensures PositionToSlider(SliderToPosition(v, duration), duration) == v
  {
    var p := SliderToPosition(v, duration);
    var x := v as real / SliderMax as real;
    assert p == x * duration;
    QuotientBounds(p, duration, x);
    assert p / duration == x;
    assert (p / duration) * SliderMax as real == v as real;
  }

  /** Releasing the slider at value `v` and feeding the requested position back
      through `set_position` puts the slider back at `v`. */
  lemma SliderRoundTrip(c: Controls, v: int)
    requires c.duration > 0.0 && 0 <= v <= SliderMax && !c.seeking
    ensures SetPosition(c, SliderToPosition(v, c.duration)).slider == v
  {
    SliderValueRoundTrip(v, c.duration);
  }

  /** `TrackVolumeControl._on_volume_changed(v)`: the label shows "v%" and the
      track's volume becomes v / 100, in [0, 1] for a slider value in 0..100. */
  function VolumeChanged(trackId: int, value: int): (r: (string, int, real))
    ensures r.1 == trackId
    ensures r.2 * 100.0 == value as real
    ensures 0 <= value <= 100 ==> 0.0 <= r.2 <= 1.0
    ensures 0 <= value ==> r.0 == Text.Digits(value) + "%"
  {
    var caption := if value < 0 then "-" + Text.Digits(-value) + "%" else Text.Digits(value) + "%";
    (caption, trackId, value as real / 100.0)
  }

  // ---------------------------------------------------------------------------
  // Frame placement
  // ---------------------------------------------------------------------------

  datatype Rect = Rect(x: int, y: int, width: int, height: int)

  /** Filling the height of a widget wider than the frame needs no more than
      the widget's width. */
  lemma HeightFillFits(w: int, h: int, aspect: real)
    requires 0 <= w && 0 < h && 0.0 < aspect
    ensures w as real / h as real > aspect ==> 0 <= Media.Trunc(h as real * aspect) <= w
  {
    QuotientBounds(w as real, h as real, aspect);
  }

  /** Filling the width of a widget taller than the frame needs no more than
      the widget's height. */
  lemma WidthFillFits(w: int, h: int, aspect: real)
    requires 0 <= w && 0 < h && 0.0 < aspect
    ensures w as real / h as real <= aspect ==> 0 <= Media.Trunc(w as real / aspect) <= h
  {
    QuotientBounds(w as real, h as real, aspect);
    QuotientBounds(w as real, aspect, h as real);
  }

  /** The target rectangle of `paintEvent` for a widget of `w` x `h` pixels and a
      frame of aspect ratio `aspect`: a widget wider than the frame is filled in
      height, otherwise in width; the other side is the truncated scaled size;
      the rectangle is centered and lies inside the widget. */
  function FitRect(w: int, h: int, aspect: real): (r: Rect)
    requires 0 <= w && 0 < h && 0.0 < aspect
    ensures w as real / h as real > aspect ==>
      r.height == h && r.width as real <= h as real * aspect < r.width as real + 1.0
    ensures w as real / h as real <= aspect ==>
      r.width == w && r.height as real <= w as real / aspect < r.height as real + 1.0
    ensures 0 <= r.width <= w && 0 <= r.height <= h
    ensures 0 <= r.x && r.x + r.width <= w && 0 <= r.y && r.y + r.height <= h
    ensures r.x == (w - r.width) / 2 && r.y == (h - r.height) / 2
  {
    var widgetRatio := w as real / h as real;
    HeightFillFits(w, h, aspect);
    WidthFillFits(w, h, aspect);
    var tw := if widgetRatio > aspect then Media.Trunc(h as real * aspect) else w;
    var th := if widgetRatio > aspect then h else Media.Trunc(w as real / aspect);
    Rect((w - tw) / 2, (h - th) / 2, tw, th)
  }
}
