# Morse-code icon layout

`assets/icon.py` of cw_trainer draws the application icon as an SVG
document: one pie slice per Morse code, where each symbol of the code is one
annular wedge (a `path`), each code is closed by a radial divider (a
`line`), five concentric rings (`circle`s) follow, and an optional white
background `rect` comes first. Underneath the trigonometry and the DOM calls
sits a small layout planner. It works in whole DIT units (one DIT is
512/2/16.2 pixels), and that planner is what this project models and proves
things about.

- `svg.dfy` (module `Svg`) holds the document's vocabulary:
  - shapes, elements (a shape plus the attribute map set on it) and their tags;
  - the keyword-to-attribute name mapping of `makeElement`, which turns every `_` into `-`;
  - `MakeElement`, the loop that sets the attributes;
  - `Node`, a parent element whose `children` sequence grows as `appendChild` is called.
- `icon.dfy` (module `Icon`) holds the planner:
  - `TotalDits`, a code's weighted length;
  - `Letter`, the loop that lays a code's wedges outwards from 3 DIT, last symbol first;
  - `Letters`, which lays out every code at its rotation, each followed by its divider, and then the rings;
  - `Render`, the body of `main`: root attributes, the optional background first, then the five codes.
- Each loop is proved against a specification function: `Attributes` for `MakeElement`, `Bands` for `Letter`, `Drawing` for `Letters`; `Render` is proved against `Document`. The lemmas state what the layout promises about those functions.

Radii are integers in DIT; rotations and slice widths are exact `real`
degrees. A wedge stores its rotation, slice width, inner radius and width.
A divider stores its rotation and its inner and outer radii. A ring stores
its radius.

The icon draws five codes, `-.-`, `--...`, `--..`, `..-.` and `-.-.`
(lines 101-102). The root `viewBox` is formatted with `{:f}`, giving
`0.000000 0.000000 512.000000 512.000000` (line 98).

## Model

| member | source | states |
|---|---|---|
| Svg.HyphenateChars | assets/icon.py:12 | the attribute name has the keyword's length; each `_` becomes `-`; every other character is unchanged; no `_` remains |
| Svg.HyphenateInjective | assets/icon.py:12 | on hyphen-free keyword names, distinct names give distinct attribute names |
| Svg.AttributesDomain | assets/icon.py:11-12 | every keyword argument is set under its hyphenated name, and every attribute set comes from some keyword, so no attribute name holds `_` |
| Svg.AttributesLookup | assets/icon.py:11-12 | with distinct hyphen-free keyword names, each keyword's value is found under its hyphenated name |
| Svg.MakeElement | assets/icon.py:9-14 | the loop over the keyword arguments yields an element of the given shape whose attributes are exactly the successive settings (`Attributes`) |
| Svg.Node.SetAttribute | assets/icon.py:94-98 | setting an attribute updates that name only and leaves the children alone |
| Svg.Node.AppendChild | assets/icon.py:59 | appending adds the element at the end of the children and changes nothing else |
| Icon.PulseAttributes | assets/icon.py:58 | a wedge's style sets exactly `fill=#34deeb` |
| Icon.DividerAttributes | assets/icon.py:69 | a divider's style sets exactly `stroke`, `stroke-width` and `stroke-linecap`, with hyphens in the names |
| Icon.RingAttributes | assets/icon.py:76 | a ring's style sets exactly `stroke`, `stroke-width` and `fill=none` |
| Icon.BackgroundAttributes | assets/icon.py:104 | the background sets exactly x, y, width, height and fill with the values `0`, `0`, `512`, `512` and `white` |
| Icon.WeightsByCount | assets/icon.py:52 | the summed symbol weights are 3 per symbol less 2 per dot |
| Icon.TotalDits | assets/icon.py:51-52 | the weighted length is `4n - 1 - 2·dots`, between `2n - 1` and `4n - 1` |
| Icon.TotalDitsExtremes | assets/icon.py:51-52 | the weighted length is `2n - 1` if and only if every symbol is a dot, and `4n - 1` if and only if no symbol is a dot |
| Icon.BandsShape | assets/icon.py:55-58 | a code gives one wedge per symbol; band k is a wedge at the code's rotation and slice width, built from symbol `reversed(l)[k]`, 1 DIT wide for a dot and 3 otherwise |
| Icon.BandsUpToCount | assets/icon.py:56-59 | the wedges of a code are counted as exactly one `path` per symbol and nothing else |
| Icon.BandsStep | assets/icon.py:55-60 | the first band starts at 3 DIT; each band starts one DIT after the previous one ends |
| Icon.BandsGap | assets/icon.py:19 | a band's outer radius `out_r = ir + w` is exactly one DIT short of the next band's inner radius |
| Icon.BandsDisjoint | assets/icon.py:58-60 | a later band starts strictly beyond the end of any earlier band: bands do not overlap and grow outwards |
| Icon.BandsEnd | assets/icon.py:55-60 | after the walk the running radius is `3 + total_dits + 1`, the value of the overwritten formula on line 67; the outermost band ends at `3 + total_dits` |
| Icon.BandsExtent | assets/icon.py:55-60 | every band lies between 3 DIT and `3 + total_dits` DIT |
| Icon.MakePulse | assets/icon.py:16-39 | the wedge factory keeps rotation, inner radius, slice width and width, with the style as attributes |
| Icon.MakeRadial | assets/icon.py:41-49 | the divider factory keeps rotation and the inner and outer radii (inner 0 by default), with the style as attributes |
| Icon.Letter | assets/icon.py:54-60 | the loop over `reversed(l)` with running radius `cur` appends exactly the code's wedges, innermost first, and nothing else |
| Icon.RotationSchedule | assets/icon.py:63-65 | code i of n sits at `360·i/n` degrees, within `[0, 360)`; neighbouring codes' wedges are one slice width apart |
| Icon.Letters | assets/icon.py:62-77 | an empty code list fails with a division by zero before anything is appended; otherwise exactly the drawing is appended (blocks in order, then the rings) and the unused circle of line 73 is not |
| Icon.DrawingCount | assets/icon.py:64-77 | the drawing has `5 + n + Σ len(l)` children: one `path` per symbol, one `line` per code, five `circle`s and nothing else |
| Icon.DrawingLayout | assets/icon.py:64-69 | code i's block starts after the blocks of the codes before it and ends before the rings, at rotation `Rotation(n, i)` and slice width `180/n` |
| Icon.BlockAt | assets/icon.py:64-69 | a block is the code's bands in order, directly followed by one divider from 2 to 16 DIT at the code's rotation |
| Icon.DrawingRings | assets/icon.py:75-77 | the last five children are the rings of radius 3, 6, 9, 12 and 15 DIT, innermost first, with the ring style |
| Icon.DrawingShapes | assets/icon.py:63-77 | every divider runs from 2 to 16 DIT whatever its code; every wedge has slice width `180/n` and lies between 3 and `3 + d` DIT when no code weighs more than d; every circle is a ring; there is no rectangle |
| Icon.Render | assets/icon.py:82-105 | the root `svg` element gets exactly the five root attributes, and its children are the optional background followed by the drawing of the five codes |
| Icon.CodesWeights | assets/icon.py:101-102 | no code of the icon weighs more than 13 DIT, and `--...` weighs exactly 13 |
| Icon.CodesSymbols | assets/icon.py:101-102 | the icon draws five codes with 20 symbols together |
| Icon.IconCount | assets/icon.py:103-105 | the icon has 30 children plus the background: 20 `path`, 5 `line`, 5 `circle` and one `rect` only when asked for, which is then the first child |
| Icon.IconExtent | assets/icon.py:101-105 | no wedge of the icon reaches beyond the dividers' 16 DIT, and 16 DIT lies inside the canvas's half-width |

## Left out

- The sine, cosine and radian conversions, and every floating-point corner and end point that `pulse` and `radial` compute (lines 17-18, 21-30, 42-45). This includes the in-place offset loop over `pts` (lines 28-30). Shapes keep only their integer-unit parameters and their rotation.
- The path text and every float-to-text conversion (`{:f}`, `str` of a float; lines 32-38). Attributes whose values are floats (`d`, `x1`, `y1`, `x2`, `y2`, `cx`, `cy`, `r`) are therefore not in an element's attribute map; their content is carried by the shape.
- Multiplying radii by DIT (lines 58, 67-69, 73, 76): radii stay in DIT units. Rounding of real arithmetic is not modelled; rotations are exact rationals.
- The XML DOM (`getDOMImplementation`, `createDocument`, `createElement`, `doc.appendChild`) and `toprettyxml` (lines 2, 90-91, 99, 108). The document is the root element's attribute map and its list of leaf children. Attribute order within an element is not kept, because attributes are a map.
- Command-line parsing and writing `assets/cw_icon.svg` (lines 83-88, 107-108). The `-background` flag is the parameter of `Render`.
- Icon.MakePulse and Icon.MakeRadial: their contracts do not describe the float point lists, only the unit-level parameters.
