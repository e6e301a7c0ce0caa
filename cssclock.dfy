/**
 * The CSSClock widget: four stacked image layers (background, hours, minutes,
 * seconds) inside a relatively positioned wrapper, with the three hand layers
 * rotated by CSS transforms to show a sampled time.
 *
 * The host's clock is not read here: each tick is given the hour, minute and
 * second it would have read.
 */
module CssClock {
  import opened Wrappers
  import opened Dom
  import Dial

  /** The settings a caller may pass; each one may be missing. */
  datatype Options = Options(
    backgroundImage: Option<string>,
    hoursImage: Option<string>,
    minutesImage: Option<string>,
    secondsImage: Option<string>,
    size: Option<nat>,
    imagePath: Option<string>)

  /** The empty options object `{}`. */
  const NoOptions := Options(None, None, None, None, None, None)

  /** The settings a clock works with once every default has been applied. */
  datatype Config = Config(
    backgroundImage: string,
    hoursImage: string,
    minutesImage: string,
    secondsImage: string,
    size: nat,
    imagePath: string)

  /** JavaScript `s || fallback` for a string setting: missing and "" are falsy. */
  function OrString(s: Option<string>, fallback: string): (r: string)
    ensures s.Some? && s.value != "" ==> r == s.value
    ensures s == None || s == Some("") ==> r == fallback
  {
    if s.Some? && s.value != "" then s.value else fallback
  }

  /** JavaScript `n || fallback` for a numeric setting: missing and 0 are falsy. */
  function OrNumber(n: Option<nat>, fallback: nat): (r: nat)
    ensures n.Some? && n.value != 0 ==> r == n.value
    ensures n == None || n == Some(0) ==> r == fallback
  {
    if n.Some? && n.value != 0 then n.value else fallback
  }

  /**
   * The clock's settings after construction: a missing options object counts
   * as `{}`, every falsy setting takes its default, and the image directory
   * always gets a "/" appended.
   */
  function Configure(options: Option<Options>): (c: Config)
    ensures c.backgroundImage != "" && c.hoursImage != "" && c.minutesImage != "" && c.secondsImage != ""
    ensures c.size > 0
    ensures |c.imagePath| >= 2 && c.imagePath[|c.imagePath| - 1] == '/'
    ensures options == None ==> c == Defaults
  {
    var o := if options.Some? then options.value else NoOptions;
    Config(
      OrString(o.backgroundImage, "clock-background.png"),
      OrString(o.hoursImage, "clock-hours.png"),
      OrString(o.minutesImage, "clock-minutes.png"),
      OrString(o.secondsImage, "clock-seconds.png"),
      OrNumber(o.size, 256),
      OrString(o.imagePath, "images") + "/")
  }

  /** The configuration of a clock created without options. */
  const Defaults := Config("clock-background.png", "clock-hours.png", "clock-minutes.png",
                           "clock-seconds.png", 256, "images/")

  /** Without options, and with every option falsy, the defaults are used. */
  lemma DefaultConfiguration()
    ensures Configure(None) == Defaults
    ensures Configure(Some(NoOptions)) == Defaults
    ensures Configure(Some(Options(Some(""), Some(""), Some(""), Some(""), Some(0), Some("")))) == Defaults
  {
  }

  /** A truthy setting is kept unchanged; the image directory gains exactly one "/". */
  lemma ConfigureKeepsGivenOptions(o: Options)
    ensures o.backgroundImage.Some? && o.backgroundImage.value != "" ==>
              Configure(Some(o)).backgroundImage == o.backgroundImage.value
    ensures o.hoursImage.Some? && o.hoursImage.value != "" ==>
              Configure(Some(o)).hoursImage == o.hoursImage.value
    ensures o.minutesImage.Some? && o.minutesImage.value != "" ==>
              Configure(Some(o)).minutesImage == o.minutesImage.value
    ensures o.secondsImage.Some? && o.secondsImage.value != "" ==>
              Configure(Some(o)).secondsImage == o.secondsImage.value
    ensures o.size.Some? && o.size.value != 0 ==> Configure(Some(o)).size == o.size.value
    ensures o.imagePath.Some? && o.imagePath.value != "" ==>
              Configure(Some(o)).imagePath == o.imagePath.value + "/"
  {
  }

  /** A falsy setting (missing, "" or 0) takes its own default, whatever the other settings are. */
  lemma ConfigureDefaultsFalsyOptions(o: Options)
    ensures o.backgroundImage == None || o.backgroundImage == Some("") ==>
              Configure(Some(o)).backgroundImage == Defaults.backgroundImage
    ensures o.hoursImage == None || o.hoursImage == Some("") ==>
              Configure(Some(o)).hoursImage == Defaults.hoursImage
    ensures o.minutesImage == None || o.minutesImage == Some("") ==>
              Configure(Some(o)).minutesImage == Defaults.minutesImage
    ensures o.secondsImage == None || o.secondsImage == Some("") ==>
              Configure(Some(o)).secondsImage == Defaults.secondsImage
    ensures o.size == None || o.size == Some(0) ==> Configure(Some(o)).size == Defaults.size
    ensures o.imagePath == None || o.imagePath == Some("") ==>
              Configure(Some(o)).imagePath == Defaults.imagePath
  {
  }

  /** The image address of each layer, in stacking order: background, hours, minutes, seconds. */
  function Sources(c: Config): (r: seq<string>)
    ensures |r| == 4
    ensures c.imagePath <= r[0] && c.imagePath <= r[1] && c.imagePath <= r[2] && c.imagePath <= r[3]
  {
    [c.imagePath + c.backgroundImage, c.imagePath + c.hoursImage,
     c.imagePath + c.minutesImage, c.imagePath + c.secondsImage]
  }

  /**
   * Every layer's image lies in the configured directory: its address is the
   * directory, then "/", then a non-empty file name.
   */
  lemma SourcesInImageDirectory(options: Option<Options>, i: nat)
    requires i < 4
    ensures var c := Configure(options);
            var dir := c.imagePath[..|c.imagePath| - 1];
            var src := Sources(c)[i];
            |src| > |dir| + 1 && src[..|dir| + 1] == dir + "/"
  {
  }

  /**
   * The style `_createDivWithBackground` gives a new layer: a box `width` wide
   * and `height` high (the width again when the height is falsy) showing the
   * image at `url`.
   */
  function LayerStyle(url: string, width: nat, height: Option<nat>): (r: CssStyle)
    ensures r.(width := "", height := "", background := "") == Unstyled
    ensures height == None || height == Some(0) ==> r.height == r.width
    ensures height.Some? && height.value != 0 ==> r.height == Px(height.value)
  {
    Unstyled.(width := Px(width), height := Px(OrNumber(height, width)),
              background := BackgroundFill(url))
  }

  /** A layer's box and image can be read back from its style; without a (truthy) height it is square. */
  lemma LayerStyleReadsBack(url: string, width: nat, height: Option<nat>)
    ensures ParsePx(LayerStyle(url, width, height).width) == Some(width)
    ensures height == None || height == Some(0) ==> ParsePx(LayerStyle(url, width, height).height) == Some(width)
    ensures height.Some? && height.value != 0 ==>
              ParsePx(LayerStyle(url, width, height).height) == Some(height.value)
    ensures ParseBackgroundFill(LayerStyle(url, width, height).background) == Some(url)
  {
    PxRoundTrip(width);
    PxRoundTrip(OrNumber(height, width));
    BackgroundFillRoundTrip(url);
  }

  /** Stacked at the wrapper's origin. */
  function Positioned(s: CssStyle): (r: CssStyle)
    ensures r.position == "absolute" && r.top == "0" && r.left == "0"
    ensures r.(position := s.position, top := s.top, left := s.left) == s
  {
    s.(position := "absolute", top := "0", left := "0")
  }

  /** The style the wrapper of the four layers gets. */
  const WrapperStyle := Unstyled.(position := "relative")

  /** The style after `_setRotation`: all three transform properties hold the same rotation. */
  function Rotated(s: CssStyle, angle: nat): (r: CssStyle)
    ensures r.transform == Rotate(angle) && r.mozTransform == r.transform && r.webkitTransform == r.transform
  {
    var r := Rotate(angle);
    s.(transform := r, mozTransform := r, webkitTransform := r)
  }

  /** A rotated style shows its angle, in all three transform properties alike. */
  lemma RotatedShowsAngle(s: CssStyle, angle: nat)
    ensures ParseRotate(Rotated(s, angle).transform) == Some(angle)
    ensures Rotated(s, angle).mozTransform == Rotated(s, angle).transform
    ensures Rotated(s, angle).webkitTransform == Rotated(s, angle).transform
  {
    RotateRoundTrip(angle);
  }

  /** The last rotation replaces earlier ones instead of composing with them. */
  lemma RotatedReplaces(s: CssStyle, earlier: nat, angle: nat)
    ensures Rotated(Rotated(s, earlier), angle) == Rotated(s, angle)
  {
  }

  /** Rotating leaves every property other than the three transforms as it was. */
  lemma RotatedKeepsOtherProperties(s: CssStyle, angle: nat)
    ensures Rotated(s, angle).(transform := s.transform, mozTransform := s.mozTransform,
                               webkitTransform := s.webkitTransform) == s
  {
  }

  /** The styles of the four layers, in stacking order. */
  datatype Face = Face(background: CssStyle, hours: CssStyle, minutes: CssStyle, seconds: CssStyle)

  predicate IsTime(hour: nat, minute: nat, second: nat) {
    hour < 24 && minute < 60 && second < 60
  }

  /** The layer styles after `_updateTime` has shown the time hour:minute:second. */
  function Tick(f: Face, hour: nat, minute: nat, second: nat): (r: Face)
    requires IsTime(hour, minute, second)
    ensures r.background == f.background
    ensures r.hours.transform == Rotate(Dial.HourAngle(hour))
    ensures r.minutes.transform == Rotate(Dial.SixtiethAngle(minute))
    ensures r.seconds.transform == Rotate(Dial.SixtiethAngle(second))
  {
    f.(hours := Rotated(f.hours, Dial.HourAngle(hour)),
       minutes := Rotated(f.minutes, Dial.SixtiethAngle(minute)),
       seconds := Rotated(f.seconds, Dial.SixtiethAngle(second)))
  }

  /**
   * The time shown by a face, read off its three hands' transforms: the hour
   * on the 12-hour scale, the minute and the second. None when a hand does
   * not show a whole number of steps.
   */
  function ReadTime(f: Face): Option<(nat, nat, nat)> {
    match (ParseRotate(f.hours.transform), ParseRotate(f.minutes.transform), ParseRotate(f.seconds.transform))
    case (Some(h), Some(m), Some(s)) =>
      if h % 30 == 0 && m % 6 == 0 && s % 6 == 0 then Some((h / 30, m / 6, s / 6)) else None
    case _ => None
  }

  /** A tick shows exactly the sampled time, with the hour folded to 0-12. */
  lemma TickShowsTime(f: Face, hour: nat, minute: nat, second: nat)
    requires IsTime(hour, minute, second)
    ensures ReadTime(Tick(f, hour, minute, second)) == Some((Dial.TwelveHour(hour), minute, second))
  {
    var t := Tick(f, hour, minute, second);
    RotateRoundTrip(Dial.HourAngle(hour));
    RotateRoundTrip(Dial.SixtiethAngle(minute));
    RotateRoundTrip(Dial.SixtiethAngle(second));
    assert ParseRotate(t.hours.transform) == Some(Dial.HourAngle(hour));
    assert ParseRotate(t.minutes.transform) == Some(Dial.SixtiethAngle(minute));
    assert ParseRotate(t.seconds.transform) == Some(Dial.SixtiethAngle(second));
  }

  /** Two faces showing different times after a tick were given different times (up to AM/PM). */
  lemma TickDistinguishesTimes(f: Face, g: Face, h1: nat, m1: nat, s1: nat, h2: nat, m2: nat, s2: nat)
    requires IsTime(h1, m1, s1) && IsTime(h2, m2, s2)
    ensures Tick(f, h1, m1, s1).hours.transform == Tick(g, h2, m2, s2).hours.transform
            <==> Dial.TwelveHour(h1) == Dial.TwelveHour(h2)
    ensures Tick(f, h1, m1, s1).minutes.transform == Tick(g, h2, m2, s2).minutes.transform <==> m1 == m2
    ensures Tick(f, h1, m1, s1).seconds.transform == Tick(g, h2, m2, s2).seconds.transform <==> s1 == s2
  {
    RotateInjective(Dial.HourAngle(h1), Dial.HourAngle(h2));
    RotateInjective(Dial.SixtiethAngle(m1), Dial.SixtiethAngle(m2));
    RotateInjective(Dial.SixtiethAngle(s1), Dial.SixtiethAngle(s2));
  }

  /** Ticking twice with the same time leaves the face as one tick does. */
  lemma TickIdempotent(f: Face, hour: nat, minute: nat, second: nat)
    requires IsTime(hour, minute, second)
    ensures Tick(Tick(f, hour, minute, second), hour, minute, second) == Tick(f, hour, minute, second)
  {
  }

  /** A tick depends on the time it is given, not on the angles shown before. */
  lemma TickForgetsEarlierTime(f: Face, h0: nat, m0: nat, s0: nat, hour: nat, minute: nat, second: nat)
    requires IsTime(h0, m0, s0) && IsTime(hour, minute, second)
    ensures Tick(Tick(f, h0, m0, s0), hour, minute, second) == Tick(f, hour, minute, second)
  {
  }

  /** The style `s` with its three transform properties taken from `t`. */
  function WithTransformsOf(s: CssStyle, t: CssStyle): CssStyle {
    s.(transform := t.transform, mozTransform := t.mozTransform, webkitTransform := t.webkitTransform)
  }

  /** A tick never changes the background layer, and changes only the transforms of the three hands. */
  lemma TickKeepsBackground(f: Face, hour: nat, minute: nat, second: nat)
    requires IsTime(hour, minute, second)
    ensures Tick(f, hour, minute, second).background == f.background
    ensures WithTransformsOf(Tick(f, hour, minute, second).hours, f.hours) == f.hours
    ensures WithTransformsOf(Tick(f, hour, minute, second).minutes, f.minutes) == f.minutes
    ensures WithTransformsOf(Tick(f, hour, minute, second).seconds, f.seconds) == f.seconds
  {
  }

  /** The layer styles as `_createDivWithBackground` leaves them: `c.size` square, one image each. */
  function CreatedFace(c: Config): Face {
    Face(LayerStyle(c.imagePath + c.backgroundImage, c.size, None),
         LayerStyle(c.imagePath + c.hoursImage, c.size, None),
         LayerStyle(c.imagePath + c.minutesImage, c.size, None),
         LayerStyle(c.imagePath + c.secondsImage, c.size, None))
  }

  /** Every layer stacked at the wrapper's origin. */
  function StackedFace(f: Face): Face {
    Face(Positioned(f.background), Positioned(f.hours), Positioned(f.minutes), Positioned(f.seconds))
  }

  /** The layer styles after InitializeContainers, before the first tick: four equal squares at one origin. */
  function InitialFace(c: Config): (r: Face)
    ensures r.background.height == r.background.width
    ensures r.hours.width == r.background.width && r.hours.height == r.background.width
    ensures r.minutes.width == r.background.width && r.minutes.height == r.background.width
    ensures r.seconds.width == r.background.width && r.seconds.height == r.background.width
  {
    StackedFace(CreatedFace(c))
  }

  /** The styles of a face in stacking order. */
  function InOrder(f: Face): seq<CssStyle> {
    [f.background, f.hours, f.minutes, f.seconds]
  }

  /**
   * After `_initializeContainers` and before the first tick, every layer sits
   * at the wrapper's origin, is `c.size` pixels square, shows its own image
   * and carries no rotation yet.
   */
  lemma InitialLayout(c: Config, i: nat)
    requires i < 4
    ensures var s := InOrder(InitialFace(c))[i];
            && s.position == "absolute" && s.top == "0" && s.left == "0"
            && ParsePx(s.width) == Some(c.size) && ParsePx(s.height) == Some(c.size)
            && ParseBackgroundFill(s.background) == Some(Sources(c)[i])
            && s.transform == "" && s.mozTransform == "" && s.webkitTransform == ""
  {
    LayerStyleReadsBack(Sources(c)[i], c.size, None);
  }

  /** One clock widget. */
  class Clock {
    var backgroundImage: string
    var hoursImage: string
    var minutesImage: string
    var secondsImage: string
    var size: nat
    var imagePath: string

    // The layers; unset until InitializeContainers creates them.
    var backgroundContainer: Element?
    var hoursContainer: Element?
    var minutesContainer: Element?
    var secondsContainer: Element?

    /** The settings the clock holds. */
    function Settings(): Config
      reads this
    {
      Config(backgroundImage, hoursImage, minutesImage, secondsImage, size, imagePath)
    }

    /** All four layers exist and are four different elements. */
    ghost predicate Valid()
      reads this
    {
      && backgroundContainer != null && hoursContainer != null
      && minutesContainer != null && secondsContainer != null
      && backgroundContainer != hoursContainer && backgroundContainer != minutesContainer
      && backgroundContainer != secondsContainer && hoursContainer != minutesContainer
      && hoursContainer != secondsContainer && minutesContainer != secondsContainer
    }

    /** The layers in stacking order. */
    ghost function Layers(): seq<Element>
      requires Valid()
      reads this
    {
      [backgroundContainer, hoursContainer, minutesContainer, secondsContainer]
    }

    /** The current styles of the four layers. */
    function Display(): Face
      requires Valid()
      reads this, backgroundContainer, hoursContainer, minutesContainer, secondsContainer
    {
      Face(backgroundContainer.Style(), hoursContainer.Style(), minutesContainer.Style(), secondsContainer.Style())
    }

    /**
     * Creates a clock inside `container`: applies the option defaults, builds
     * the four layers and shows the time hour:minute:second. (The widget then
     * repeats the last step every second; that timer is not modelled.)
     */
    constructor (container: Element, options: Option<Options>, hour: nat, minute: nat, second: nat)
      requires IsTime(hour, minute, second)
      modifies container
      ensures Valid() && Settings() == Configure(options)
      ensures fresh(backgroundContainer) && fresh(hoursContainer)
      ensures fresh(minutesContainer) && fresh(secondsContainer)
      ensures |container.children| == |old(container.children)| + 1
      ensures container.children[..|old(container.children)|] == old(container.children)
      ensures var w := container.children[|old(container.children)|];
              fresh(w) && w.Style() == WrapperStyle && w.children == Layers()
      ensures forall l :: l in Layers() ==> l.children == []
      ensures container.Style() == old(container.Style())
      ensures Display() == Tick(InitialFace(Settings()), hour, minute, second)
    {
      var o := if options.Some? then options.value else NoOptions;
      backgroundImage := OrString(o.backgroundImage, "clock-background.png");
      hoursImage := OrString(o.hoursImage, "clock-hours.png");
      minutesImage := OrString(o.minutesImage, "clock-minutes.png");
      secondsImage := OrString(o.secondsImage, "clock-seconds.png");
      size := OrNumber(o.size, 256);
      imagePath := OrString(o.imagePath, "images");
      imagePath := imagePath + "/";
      backgroundContainer, hoursContainer, minutesContainer, secondsContainer := null, null, null, null;
      new;
      InitializeContainers(container);
      var _ := OnTimeout(hour, minute, second);
    }

    /**
     * Creates the four layers, stacks them at the origin of a new relatively
     * positioned wrapper in the order background, hours, minutes, seconds, and
     * appends the wrapper to `container`.
     */
    method InitializeContainers(container: Element)
      modifies this, container
      ensures Valid() && Settings() == old(Settings())
      ensures fresh(backgroundContainer) && fresh(hoursContainer)
      ensures fresh(minutesContainer) && fresh(secondsContainer)
      ensures |container.children| == |old(container.children)| + 1
      ensures container.children[..|old(container.children)|] == old(container.children)
      ensures var w := container.children[|old(container.children)|];
              fresh(w) && w.Style() == WrapperStyle && w.children == Layers()
      ensures forall l :: l in Layers() ==> l.children == []
      ensures container.Style() == old(container.Style())
      ensures Display() == InitialFace(Settings())
    {
      CreateLayers();
      ghost var created := Display();
      var c := [backgroundContainer, hoursContainer, minutesContainer, secondsContainer];
      assert created == Face(c[0].Style(), c[1].Style(), c[2].Style(), c[3].Style());
      label beforeStacking:
      StackInWrapper(c, container);
      assert Display() == StackedFace(created) by {
        assert forall i :: 0 <= i < 4 ==> c[i].Style() == Positioned(old@beforeStacking(c[i].Style()));
      }
    }

    /** The first half of `_initializeContainers`: one new layer per image, `size` square. */
    method CreateLayers()
      modifies this
      ensures Valid() && Settings() == old(Settings())
      ensures fresh(backgroundContainer) && fresh(hoursContainer)
      ensures fresh(minutesContainer) && fresh(secondsContainer)
      ensures forall l :: l in Layers() ==> l.children == []
      ensures Display() == CreatedFace(Settings())
    {
      var background := CreateDivWithBackground(imagePath + backgroundImage, size, None);
      var hours := CreateDivWithBackground(imagePath + hoursImage, size, None);
      var minutes := CreateDivWithBackground(imagePath + minutesImage, size, None);
      var seconds := CreateDivWithBackground(imagePath + secondsImage, size, None);
      backgroundContainer, hoursContainer, minutesContainer, secondsContainer := background, hours, minutes, seconds;
    }

    /**
     * The second half of `_initializeContainers`: creates a relatively
     * positioned wrapper, stacks each layer at its origin (absolute position,
     * top and left 0) and appends it to the wrapper, in order, then appends
     * the wrapper to `container`.
     */
    static method StackInWrapper(layers: seq<Element>, container: Element)
      requires forall i, j :: 0 <= i < j < |layers| ==> layers[i] != layers[j]
      requires container !in layers
      modifies layers, container
      ensures |container.children| == |old(container.children)| + 1
      ensures container.children[..|old(container.children)|] == old(container.children)
      ensures var w := container.children[|old(container.children)|];
              fresh(w) && w.Style() == WrapperStyle && w.children == layers
      ensures container.Style() == old(container.Style())
      ensures forall i :: 0 <= i < |layers| ==>
                layers[i].Style() == Positioned(old(layers[i].Style())) && layers[i].children == old(layers[i].children)
    {
      var relativizer := new Element();
      relativizer.position := "relative";

      var k := 0;
      while k < |layers|
        modifies layers, relativizer
        invariant 0 <= k <= |layers|
        invariant relativizer.Style() == WrapperStyle && relativizer.children == layers[..k]
        invariant forall j :: 0 <= j < |layers| ==>
                    && layers[j].Style() == (if j < k then Positioned(old(layers[j].Style())) else old(layers[j].Style()))
                    && layers[j].children == old(layers[j].children)
      {
        var layer := layers[k];
        ghost var before := layer.Style();
        layer.position := "absolute";
        layer.top := "0";
        layer.left := "0";
        assert layer.Style() == Positioned(before);
        relativizer.AppendChild(layer);
        k := k + 1;
      }

      container.AppendChild(relativizer);
    }

    /** One timer tick: shows the given time; the `true` returned has no effect on the timer. */
    method OnTimeout(hour: nat, minute: nat, second: nat) returns (again: bool)
      requires Valid() && IsTime(hour, minute, second)
      modifies hoursContainer, minutesContainer, secondsContainer
      ensures again
      ensures Display() == Tick(old(Display()), hour, minute, second)
      ensures forall l :: l in Layers() ==> l.children == old(l.children)
    {
      UpdateTime(hour, minute, second);
      again := true;
    }

    /**
     * Rotates the hour, minute and second layers to show hour:minute:second.
     * The background layer is left as it was.
     */
    method UpdateTime(hour: nat, minute: nat, second: nat)
      requires Valid() && IsTime(hour, minute, second)
      modifies hoursContainer, minutesContainer, secondsContainer
      ensures unchanged(backgroundContainer)
      ensures Display() == Tick(old(Display()), hour, minute, second)
      ensures forall l :: l in Layers() ==> l.children == old(l.children)
    {
      var h := if hour > 12 then hour - 12 else hour;
      SetRotation(hoursContainer, h * 30);
      SetRotation(minutesContainer, minute * 6);
      SetRotation(secondsContainer, second * 6);
    }

    /**
     * `_createDivWithBackground`: a new element `width` wide and `height` high
     * (the width again when the height is falsy) showing the image at `background`.
     */
    static method CreateDivWithBackground(background: string, width: nat, height: Option<nat>)
      returns (el: Element)
      ensures fresh(el) && el.children == []
      ensures el.Style() == LayerStyle(background, width, height)
    {
      var h := OrNumber(height, width);
      el := new Element();
      el.width := Px(width);
      el.height := Px(h);
      el.background := BackgroundFill(background);
    }

    /**
     * Replaces every transform of `el` by a rotation of `rotation` degrees,
     * in the standard property and both vendor-prefixed ones.
     */
    static method SetRotation(el: Element, rotation: nat)
      modifies el
      ensures el.Style() == Rotated(old(el.Style()), rotation)
      ensures el.children == old(el.children)
    {
      el.transform := Rotate(rotation);
      el.mozTransform := Rotate(rotation);
      el.webkitTransform := Rotate(rotation);
    }
  }
}
