# CSSClock in Dafny

CSSClock is a browser widget that draws an analog clock from four stacked
images. The images are a dial background, an hour hand, a minute hand and a
second hand. The widget rotates the three hands with CSS transforms. This
project models the widget's logic with the document abstracted to records and
sequences, and proves what that logic promises. It covers:

- **Option defaulting.** Every option falls back to its default through
  JavaScript's `||`, so a missing value, `""` and `0` all give the default.
  The image directory always gets a `"/"` appended.
- **Layer construction.** Each layer is a `div` that is `size` pixels square
  and shows one image. The four layers are stacked at the origin of a
  relatively positioned wrapper, in the order background, hours, minutes,
  seconds, and the wrapper is appended to the host container.
- **Time to angles.** The hour is folded to a 12-hour scale. The hour hand
  gets 30 degrees per hour; the minute and second hands get 6 degrees per
  step.
- **Applying a rotation.** The same `rotate(<n>deg)` value is written to the
  `transform`, `MozTransform` and `WebkitTransform` style properties. This
  replaces whatever they held before.

Modules:

- `Decimal` (decimal.dfy): `Number.prototype.toString()` for whole numbers
  from 0 to 2^53, with a parser. The two are proved to be inverse in both
  directions.
- `Dom` (dom.dfy): a `div` element as a class with its inline style
  properties and its children. Also the CSS value strings the clock builds
  (`<n>px`, `rotate(<n>deg)`, the background shorthand), each with a parser
  that reads it back.
- `Dial` (dial.dfy): hour folding and the three angles.
- `CssClock` (cssclock.dfy): the options and the resolved settings, the pure
  specification of a tick (`Tick`) and of the initial layout (`InitialFace`),
  and the `Clock` class. The class has the constructor, `_initializeContainers`,
  `_onTimeout`, `_updateTime`, `_createDivWithBackground` and `_setRotation`.

Time, timers and the document are inputs, not effects:

- The constructor and every tick take the sampled `(hour, minute, second)`
  as parameters. The widget itself reads them from `new Date()`.
- The host container is an `Element` that the caller passes in.
- `document.createElement` is the `Element` constructor.
- `appendChild` is `Element.AppendChild`.

The hour hand moves in whole-hour steps: src/js/cssclock.js:88 sets it to
`hour * 30` with no minute term, and so does the model (`Dial.HourAngle`).

## Model

| member | source | states |
|---|---|---|
| Decimal.ToString | src/js/cssclock.js:110-111 | `n.toString()` for a whole number up to 2^53: a non-empty digit string with no leading zero; it starts with '0' exactly when n is 0 and has one digit exactly when n < 10 |
| Decimal.ParseToString | src/js/cssclock.js:124-126 | parsing the rendering of n gives back n |
| Decimal.ToStringParse | src/js/cssclock.js:124-126 | every digit string without a leading zero is the rendering of its own value, so rendering is onto the canonical strings |
| Decimal.ToStringInjective | src/js/cssclock.js:124-126 | two numbers render to the same string exactly when they are equal |
| Dom.Element.constructor | src/js/cssclock.js:109 | a new `div` has every style property unset (empty) and no children |
| Dom.Element.AppendChild | src/js/cssclock.js:58 | appending adds the child at the end of the children and leaves the style unchanged |
| Dom.Px | src/js/cssclock.js:110-111 | a pixel length ends in the unit "px" after at least one character; that the rest is the number is `Dom.PxRoundTrip` |
| Dom.PxRoundTrip | src/js/cssclock.js:110-111 | a `<n>px` length reads back as n |
| Dom.PxParsed | src/js/cssclock.js:110-111 | every string that reads as a pixel length n is exactly the `<n>px` built from n |
| Dom.Rotate | src/js/cssclock.js:124-126 | a rotation value starts with "rotate(", ends with "deg)" and has at least one character in between; that this is the angle is `Dom.RotateRoundTrip` |
| Dom.RotateRoundTrip | src/js/cssclock.js:124-126 | a `rotate(<n>deg)` value reads back as the angle n |
| Dom.RotateParsed | src/js/cssclock.js:124-126 | every string that reads as a rotation by n is exactly the value built from n |
| Dom.RotateInjective | src/js/cssclock.js:124-126 | two rotation values are equal exactly when their angles are equal |
| Dom.BackgroundFill | src/js/cssclock.js:112 | the background shorthand is the image address with "transparent url( " before it and " ) top left no-repeat" after it |
| Dom.BackgroundFillRoundTrip | src/js/cssclock.js:112 | the image address can be read back from the background shorthand built around it |
| Dial.TwelveHour | src/js/cssclock.js:82-85 | for hour 0-23 the folded hour lies in 0..12 and is the same hour of the dial (equal modulo 12); it is 0 only for midnight and 12 only for noon, so 0 and 12 stay distinct |
| Dial.HourAngle | src/js/cssclock.js:85-88 | the hour angle lies in [0, 360], is a multiple of 30 and equals (hour mod 12) × 30 modulo 360; it is 0 exactly at hour 0 and 360 exactly at hour 12 |
| Dial.SixtiethAngle | src/js/cssclock.js:90-94 | for a minute or second in 0..59 the angle lies in [0, 354], is a multiple of 6 and divided by 6 gives back the value |
| Dial.HourAngleInverse | src/js/cssclock.js:85-88 | the hour angle divided by 30 gives back the folded hour |
| Dial.HalfDaysAgree | src/js/cssclock.js:82-88 | hour h+12 points where hour h points for h in 1..11; noon is a full turn (360 against 0) from midnight |
| Dial.HourAngleInjective | src/js/cssclock.js:87-88 | within 0..12 different hours give different hour angles |
| Dial.SixtiethAngleStrictlyIncreasing | src/js/cssclock.js:90-94 | the minute and second angles increase strictly with the value |
| CssClock.OrString | src/js/cssclock.js:26-29 | JavaScript `||` for a string option: a missing or empty option gives the fallback, any other value is kept |
| CssClock.OrNumber | src/js/cssclock.js:108 | JavaScript `||` for a number: a missing value or 0 gives the fallback, any other value is kept |
| CssClock.Configure | src/js/cssclock.js:22-32 | after defaulting, every image name is non-empty, the size is positive, the image directory ends in "/", and a missing options object gives the defaults |
| CssClock.DefaultConfiguration | src/js/cssclock.js:23-32 | with no options, with `{}`, and with every option falsy, the settings are "clock-background.png", "clock-hours.png", "clock-minutes.png", "clock-seconds.png", 256 and "images/" |
| CssClock.ConfigureKeepsGivenOptions | src/js/cssclock.js:26-32 | each truthy option is kept unchanged; a given image directory gets exactly one "/" appended |
| CssClock.ConfigureDefaultsFalsyOptions | src/js/cssclock.js:26-32 | each falsy option (missing, "" or 0) takes its own default whatever the other options are; with `ConfigureKeepsGivenOptions` this gives both halves of every option's defaulting |
| CssClock.Sources | src/js/cssclock.js:45-48 | the four image addresses, in stacking order, each beginning with the image directory |
| CssClock.SourcesInImageDirectory | src/js/cssclock.js:45-48 | each layer's image address is the image directory, then "/", then a non-empty file name |
| CssClock.LayerStyle | src/js/cssclock.js:107-112 | the style of a new layer: only width, height and background are set; the height is the width when the given height is missing or 0, and the given height otherwise |
| CssClock.LayerStyleReadsBack | src/js/cssclock.js:107-112 | a new layer's width reads back as the given width; its height as the width when the height is missing or 0, and as the height otherwise; its background as the image address |
| CssClock.Positioned | src/js/cssclock.js:55-57 | a stacked layer is absolute at top 0, left 0, and nothing else of its style changes |
| CssClock.Rotated | src/js/cssclock.js:120-127 | after a rotation by n the transform is `rotate(<n>deg)` and the Moz and Webkit transforms are the same |
| CssClock.RotatedShowsAngle | src/js/cssclock.js:120-127 | after a rotation by n the transform reads back as n, and the Moz and Webkit transforms hold the same value |
| CssClock.RotatedReplaces | src/js/cssclock.js:121-127 | a second rotation replaces the first instead of composing with it: the result depends only on the last angle |
| CssClock.RotatedKeepsOtherProperties | src/js/cssclock.js:120-127 | a rotation changes nothing but the three transform properties |
| CssClock.InitialFace | src/js/cssclock.js:44-62 | after `_initializeContainers` the four layers are squares of one and the same size |
| CssClock.InitialLayout | src/js/cssclock.js:44-62 | after `_initializeContainers` and before the first tick, each of the four layers is absolute at top 0, left 0, `size` pixels square, shows its own image and has no rotation |
| CssClock.Tick | src/js/cssclock.js:76-95 | a tick leaves the background layer alone and sets the hour, minute and second transforms to the rotations by the hour, minute and second angles |
| CssClock.TickShowsTime | src/js/cssclock.js:76-95 | after a tick, reading the three hands' transforms gives back exactly the folded hour, the minute and the second |
| CssClock.TickDistinguishesTimes | src/js/cssclock.js:76-95 | two ticks set the same hour, minute or second transform exactly when they were given the same folded hour, minute or second |
| CssClock.TickIdempotent | src/js/cssclock.js:76-95 | two ticks with the same time leave every layer as one tick does |
| CssClock.TickForgetsEarlierTime | src/js/cssclock.js:76-95 | a tick's result does not depend on the time shown before it |
| CssClock.TickKeepsBackground | src/js/cssclock.js:88-94 | a tick leaves the background layer unchanged, and changes nothing in the hour, minute and second layers but their transforms |
| CssClock.Clock.constructor | src/js/cssclock.js:22-37 | the clock holds the defaulted settings and four fresh, distinct layers; exactly one fresh wrapper, holding the four layers in order, is appended to the container, and the container's own style is unchanged; the layers show the initial layout after one tick at the given time |
| CssClock.Clock.InitializeContainers | src/js/cssclock.js:44-62 | creates four fresh, distinct layers, stacks them in a fresh relatively positioned wrapper in the order background, hours, minutes, seconds, and appends that wrapper as the container's one new child; the container's own style and the settings are unchanged |
| CssClock.Clock.CreateLayers | src/js/cssclock.js:45-48 | the four layers are fresh, distinct and childless, each `size` square and showing the image directory plus its own file name |
| CssClock.Clock.StackInWrapper | src/js/cssclock.js:50-61 | every layer, in order, is set to absolute, top 0, left 0 with nothing else of its style changed and appended to one fresh wrapper; the wrapper, whose style is just "relative", is appended to the container |
| CssClock.Clock.OnTimeout | src/js/cssclock.js:68-71 | one timer tick shows the given time and returns true |
| CssClock.Clock.UpdateTime | src/js/cssclock.js:76-95 | the hour, minute and second layers become `Tick` of their previous styles; the background layer is unchanged; no layer's children change |
| CssClock.Clock.CreateDivWithBackground | src/js/cssclock.js:107-115 | a fresh childless element whose width, height (the width when the height is falsy) and background are set and whose other properties are unset |
| CssClock.Clock.SetRotation | src/js/cssclock.js:120-127 | the element's three transform properties all become `rotate(<n>deg)` and nothing else of it changes |

## Left out

- The one-second repeating timer (`setInterval`, src/js/cssclock.js:36) is not modelled. It is host scheduling; a tick is an explicit call to `OnTimeout`.
- Reading the wall clock (`new Date()`, `getHours`, `getMinutes`, `getSeconds`, src/js/cssclock.js:77-80) is not modelled. The sampled time is a parameter, with the ranges `Date` guarantees (0-23, 0-59, 0-59).
- The `_p` scope-binding helper (src/js/cssclock.js:7-13) and the export to `window.CSSClock` are not modelled. They are JavaScript `this` and global-object mechanics with nothing to state.
- Rendering is not modelled: how the browser draws the CSS strings, loads the images, or reports a broken image. Only the style strings themselves are modelled.
- Element.AppendChild: does not model that the DOM first detaches a child that already has a parent. Every element the clock appends is new and has no parent.
- CssClock.Clock.constructor: does not start the repeating timer, for the reason given in the first item.
- Decimal.ToString: sizes of 10^21 pixels or more, which JavaScript writes in exponent form (`1e+21px`), and sizes above 2^53, which a JavaScript number cannot hold exactly, are not modelled; the model writes every size in plain digits.
- Sizes are whole numbers `>= 0`. Negative, fractional, NaN and non-numeric sizes, and options of the wrong type, go through JavaScript coercion, which is not modelled.
- Unset style properties read as the empty string. The vendor-prefixed transform properties are plain fields, whether or not a given browser supports them.
- The `for ... in` loop over the four container names (src/js/cssclock.js:54) is modelled as an in-order loop over the four layers. JavaScript's `for ... in` also visits enumerable properties added to `Array.prototype`; that is not modelled.
- `_initializeContainers` is modelled as two methods: `CreateLayers` (lines 45-48) and `StackInWrapper` (lines 50-61). Splitting it keeps each proof small; the combined effect is stated by `InitializeContainers`.
