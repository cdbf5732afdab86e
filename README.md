# canvas-verification-code, modelled in Dafny

`generateCode(width, height, type, codeLen)` draws a short random code
(a captcha) onto an HTML canvas and returns `{ code, data }`: the code in
lower case and the canvas as an image. This project models that function
and its helpers from `canvas-verification-code.js`:

- the argument checks, run in a fixed order where the first failure throws
  its own message. The third argument is dispatched on its runtime type: a
  type name, a number standing for the length, or a falsy value that skips
  the checks;
- `isPositiveInt`, the pattern `^[1-9]\d*$` applied to the text of a
  number;
- `randomInt` and `randomColor`, with `Math.random()` supplied as a draw
  in [0, 1);
- the choice of one of three fixed palettes;
- the drawing loop, which picks one glyph per iteration, draws it on the
  canvas and appends it to the code, and the final lower-casing.

Files, one module each:

- `js_values.dfy` (`JsValues`): JavaScript argument values, truthiness, `typeof`.
- `positive_int.dfy` (`PositiveInt`): `isPositiveInt`, decimal notation.
- `random.dfy` (`Random`): `randomInt`, `randomColor`.
- `palettes.dfy` (`Palettes`): the three palettes, the palette choice, lower-casing.
- `validation.dfy` (`Validation`): the checks, their errors and messages.
- `captcha.dfy` (`Captcha`): the canvas, `generateCode` and its drawing loop.

How the model is set up:

- **Numbers.** A JavaScript number is represented by the text
  Number::toString gives it (section 6.1.6.1.20 of ECMA-262). That text is
  what `isPositiveInt` tests, and only "0" (for +0 and -0) and "NaN" are
  falsy.
- **Randomness.** `Math.random()` is a stream `rand: nat -> real` of draws
  in [0, 1), read in the order the source calls it. The background colour
  takes three draws. Each glyph then takes seven: its index, three colour
  channels, two scale factors and a rotation.
- **Canvas.** The canvas is a class that records every call made on it.
  `toDataURL()` returns that record. The two assignments `canvas.width`
  and `canvas.height` (lines 110-111) are recorded as one `SetSize` entry.
- **Errors.** A thrown `Error` becomes `Failure(e)`, and `Message(e)` is
  its exact text.

`GenerateCode` is an imperative method. It makes the checks in source order
and reassigns `type` and `codeLen` as the source does. It then delegates
lines 84-167 to `Draw`, which chooses the palette by branching and runs the
`for` loop. The loop invariant ties `codeText` to `Glyphs`, the glyphs of
the first `i` draws, and ties the canvas record to `DrawLog`. Both are pure
functions, and the lemmas are proved about them.

Where the code and its comments disagree, the model follows the code:

- `randomInt(min, max)` returns values in [min, max - 1], not the [min, max]
  its comment at line 10 announces (line 21 says the same of
  `randomColor`). So the glyph index drawn at line 127 is at most
  `length - 2`, and the last glyph of a palette is never drawn: no 'Z' in
  any palette, no '9' with 'number'. The channels are [180, 254] for the
  background (line 116), not the 180 ~ 255 of the comment at line 114, and
  [1, 99] for the glyphs (line 137), not the 1 ~ 100 of line 135.
- `isPositiveInt` (line 33: "whether a number is positive integer") tests
  the number's text against `^[1-9]\d*$` (line 37). A positive integer of
  10^21 or more prints in exponent form ("1e+21"), so it is refused as a
  length at line 73.
- The third argument is documented as a type name (line 45), but only a
  truthy value is checked (line 66). A third argument of `0`, `NaN`, `''`,
  `false` or `null` skips the checks and, being neither 'default' nor
  'number', selects the 52-letter palette at line 106.
- The fourth argument is documented as a number of characters (line 46)
  but is never checked. A `codeLen` of 0 gives an empty code.

## Model

| member | source | states |
|---|---|---|
| `JsValues.Truthy` | canvas-verification-code.js:54-66 | a value is falsy exactly when it is undefined, null, false, 0, NaN, 0n or the empty string |
| `JsValues.TypeOf` | canvas-verification-code.js:58-72 | `typeof` is "number" exactly for numbers and "string" exactly for strings, the two tags the checks compare against |
| `PositiveInt.IsPositiveInt` | canvas-verification-code.js:36-39 | the pattern holds exactly for a non-empty string of digits that does not start with '0' |
| `PositiveInt.DecimalIsPositiveInt` | canvas-verification-code.js:36-39 | for a natural number written in plain decimal, the pattern holds iff the number is at least 1 |
| `PositiveInt.DecimalOfValue` | canvas-verification-code.js:36-39 | a text the pattern accepts denotes an integer of at least 1, and that integer written in decimal is the text itself |
| `PositiveInt.ValueOfDecimal` | canvas-verification-code.js:36-39 | reading back the decimal writing of n gives n |
| `PositiveInt.PositiveIntIffDecimal` | canvas-verification-code.js:36-39 | the pattern accepts exactly the plain decimal writings of the positive integers |
| `Random.RandomInt` | canvas-verification-code.js:14-18 | for integers min < max the result lies in [min, max - 1]; for min = max it is min |
| `Random.RandomIntAttains` | canvas-verification-code.js:14-18 | every value of [min, max - 1] is produced by some draw in [0, 1), so the range is exact and max is never produced |
| `Random.RandomColor` | canvas-verification-code.js:25-30 | each of the three channels lies in [min, max - 1] |
| `Palettes.KindOf` | canvas-verification-code.js:101-107 | the mixed palette exactly for 'default', the digits exactly for 'number', the letters for every other value |
| `Palettes.Palette` | canvas-verification-code.js:94-107 | the palette has 10 digits unless it is the letters and 52 letters unless it is the digits; it starts with '0' (or 'a' for the letters) and ends with '9' for the digits, 'Z' otherwise |
| `Palettes.PaletteShape` | canvas-verification-code.js:94-107 | 62 glyphs (digits then letters) for 'default', 10 for 'number', 52 otherwise; each ends in '9' or 'Z' |
| `Palettes.GlyphClasses` | canvas-verification-code.js:94-95 | the digit palette holds digits; the letter palette holds 26 lower-case letters, then 26 upper-case letters |
| `Palettes.LoweredGlyphClass` | canvas-verification-code.js:94-107 | after lower-casing, a glyph is a digit ('number'), a lower-case letter (letters) or either ('default') |
| `Palettes.LowerChar` | canvas-verification-code.js:165 | `toLowerCase` on one ASCII character: the result is never upper case, it is a lower-case letter exactly when the input is a letter, a digit exactly when the input is, and anything not upper case is kept |
| `Palettes.Lower` | canvas-verification-code.js:165 | `toLowerCase` keeps the length and lower-cases each character in place |
| `Palettes.LowerIdempotent` | canvas-verification-code.js:165 | a lower-cased code holds no upper-case letter, and lower-casing it again changes nothing |
| `Palettes.LastGlyphUnique` | canvas-verification-code.js:94-95 | the last glyph of each palette occurs nowhere else in it |
| `Validation.Message` | canvas-verification-code.js:55-80 | the exact text thrown for each failed check; the six texts have six different lengths |
| `Validation.MessagesDistinct` | canvas-verification-code.js:54-81 | different failures throw different messages |
| `Validation.Validate` | canvas-verification-code.js:48-82 | the checks succeed exactly when both dimensions are truthy numbers and the third argument is falsy or omitted, a type name, or a number whose text is a positive integer |
| `Validation.MissingDimensionsFirst` | canvas-verification-code.js:54-56 | a falsy width or height is reported as missing before any type check, whatever the other arguments |
| `Validation.DimensionTypesChecked` | canvas-verification-code.js:58-64 | with both dimensions truthy, a non-number width is reported first, then a non-number height |
| `Validation.StringThirdArg` | canvas-verification-code.js:66-71 | a non-empty string passes iff it is 'default', 'number' or 'letter'; it selects its palette and keeps the fourth argument (default 4); any other string gets the type-list error |
| `Validation.NumericThirdArgAccepted` | canvas-verification-code.js:72-78 | an integer n with 1 ≤ n < 10^21 (written in plain decimal by Number::toString) as third argument gives the mixed palette and length n, whatever the fourth argument |
| `Validation.NumericThirdArgLength` | canvas-verification-code.js:72-78 | a truthy number that passes has the text of an integer of at least 1, and that integer becomes the length |
| `Validation.NumericThirdArgRejected` | canvas-verification-code.js:72-75 | a truthy number whose text is not a positive integer gets the codeLen error |
| `Validation.OtherThirdArgRejected` | canvas-verification-code.js:79-81 | any other truthy third argument that is neither a string nor a number gets the third-parameter error |
| `Validation.FalsyThirdArg` | canvas-verification-code.js:48-107 | an omitted third argument means 'default'; a falsy one that is present skips the checks and selects the letters; both keep the fourth argument (default 4) |
| `Validation.AcceptedExamples` | canvas-verification-code.js:48-107 | concrete accepted calls and their palette and length: (200, 80), 'number' with 6, 6 with 9 (length 6), 0 and false (letters, length 4) |
| `Validation.RefusedExamples` | canvas-verification-code.js:54-81 | concrete refused calls and their errors: ('abc', 0), -1, 1.5, 1e+21, 'bogus', true |
| `Captcha.Canvas.Create` | canvas-verification-code.js:85-86 | a new canvas has had no calls made on it |
| `Captcha.Canvas.Issue` | canvas-verification-code.js:110-158 | a property assignment or method call on the canvas is appended to its record and changes nothing else |
| `Captcha.GlyphIndex` | canvas-verification-code.js:127 | the index drawn for a glyph is at most the palette length minus 2 |
| `Captcha.ChooseGlyphs` | canvas-verification-code.js:94-107 | the glyphs drawn from are the palette `KindOf` picks for the final `type`, and there are at least ten of them |
| `Captcha.PaintBackground` | canvas-verification-code.js:110-122 | sizes the canvas, fills it in a light colour at 70% opacity, then restores full opacity |
| `Captcha.DrawGlyph` | canvas-verification-code.js:126-158 | returns the palette glyph at the index of its draw and appends font, baseline, dark colour, translate, scale, rotate, the glyph and a transform reset to the record |
| `Captcha.Draw` | canvas-verification-code.js:84-167 | the code is the lower-cased glyphs of the first codeLen index draws, and the image is the background calls followed by each glyph's calls |
| `Captcha.GenerateCode` | canvas-verification-code.js:48-168 | a refused call returns the error of the first failed check; an accepted one returns the code and the record `Draw` gives, and the code is the lower-cased text drawn on the image |
| `Captcha.GlyphsShape` | canvas-verification-code.js:125-161 | after n iterations `codeText` has n glyphs, and glyph i is the palette glyph at the index of draw i |
| `Captcha.LastGlyphNeverDrawn` | canvas-verification-code.js:125-128 | the last palette glyph ('Z', or '9' for 'number') never appears among the drawn glyphs |
| `Captcha.CodeShape` | canvas-verification-code.js:125-165 | the code has exactly codeLen characters; each is the lower-cased glyph of its iteration, so it is a digit, a lower-case letter, or either, as the palette dictates; a 'number' code never contains '9' |
| `Captcha.DrawnTextIsCode` | canvas-verification-code.js:151-161 | the glyphs drawn on the canvas, in order, are exactly the glyphs appended to the code |
| `Captcha.TransformOrder` | canvas-verification-code.js:149-158 | every glyph is drawn right after translate (to its own column), scale and rotate, in that order, and the transform is reset right after it |
| `Captcha.ColourRanges` | canvas-verification-code.js:116-137 | the background colour's channels lie in [180, 254] and every glyph colour's in [1, 99] |
| `Captcha.DefaultScenario` | canvas-verification-code.js:48-168 | (200, 80) is accepted with the mixed palette and length 4, and its code is 4 characters from [0-9a-z] |
| `Captcha.NumberScenario` | canvas-verification-code.js:48-168 | (200, 80, 'number', 6) is accepted with the digit palette and length 6, and its code is 6 digits |

## Left out

- Canvas rendering. The pixels, fonts and `toDataURL` encoding are browser code. The model records which calls are made, in order, and `toDataURL` returns that record.
- Floating point:
  - `randomArbitrary` (lines 6-7);
  - the values of `scaleX`, `scaleY` and the rotation angle (lines 143-147);
  - the translation anchors `transX` and `transY` (lines 140-141).
  
  Their draws are consumed in source order, but Scale and Rotate carry no values, and Translate records only the glyph's column.
- `Math.random` itself. It is a stream of given draws in [0, 1), and its distribution is not modelled.
- `randomColor`'s `rgb(r, g, b)` text (line 29). A colour is kept as its three channels.
- Random.RandomInt: does not model the `Math.ceil`/`Math.floor` of its bounds, because every caller passes integers. It also takes the product in exact real arithmetic, not in doubles.
- The fourth argument is a natural number or omitted. The source never checks it, so JavaScript comparison decides the loop count for other values.
- A numeric third argument above 2^53 is taken as the integer its text spells, which can differ from the double's exact value.
- Every `Num` text is assumed to be one Number::toString can produce.
- `typeof` of a function is folded into "object". Neither "function" nor "object" is tested by the source.
- `toLowerCase` is modelled only on ASCII. The code only ever holds palette glyphs, which are ASCII.
- Errors raised by the browser (no `document`, no 2D context) are not modelled.
