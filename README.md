# jotner viewport and option parser, modelled in Dafny

jotner is a full-screen screenshot viewer for X11: it captures the desktop
into a texture and lets the user pan it by dragging with button 1 and zoom
it with the scroll wheel. This project models the two pieces of logic in
`jotner.c` that are not window-system or OpenGL plumbing:

- the **viewport transform engine** (`update_movement`, the NDC arithmetic
  of `query_mouse`, `vec2f_eql`, the `Vec2f`/`Transform` types). The pointer
  is converted to normalised device coordinates with Y flipped. A persistent
  drag anchor is re-armed while button 1 is up. While button 1 is held, the
  anchor yields incremental pan deltas. A wheel press (button 4 or 5) scales
  the zoom by `1 ± sens/2`, clamps it at `MIN_ZOOM = 0.001`, and re-derives the
  pan so the world point under the cursor stays put;
- the **command-line option parser** (`init_config`, `stoi`, `stof`,
  `arg_fps`, `arg_zoom`, `arg_padd` and the argument loop of `main`). It is a
  left-to-right pass over `argv` that fills a `Config`, ends with 0 on
  `-v`/`-h`, and ends with `ARG_ERR` (8) on a missing value, a zero value or an
  unknown argument.

Files:

- `geometry.dfy`, module `Geometry`: `Vec2`, exact equality, and the
  pixel-to-NDC mapping with its inverse.
- `options.dfy`, module `Options`: `Config`, the defaults and the
  truncating refresh-interval conversion. `ParseArgs` is the imperative
  argument loop. It is proved equal to the recursive specification
  `ParseFrom`, and the parser's properties are lemmas about `ParseFrom`.
- `viewport.dfy`, module `Viewport`: `ViewState` (pan, zoom, anchor) and
  the specification functions `PanStep`, `ZoomStep`, `Step` (pan, then zoom
  with the same sample) and `Run` (a sequence of events). The class `Engine`
  holds the same three fields and updates them in place, one method per half
  of `update_movement`. Each method is proved to produce exactly the
  specification function's new state.

Floats are modelled as `real`, so float32 round-off is not modelled.
`atoi` and `atof` are taken as given functions, passed in as the `Parsers`
value. `XQueryPointer`'s outputs (pointer pixels and whether button 1 is
held) and the screen size are inputs to `Engine.UpdateMovement`.

Two details of the code shape the model:

- The zoom factor is `button - 4.5`, which is ±0.5. So button 4 gives
  `zoom * (1 + sens/2)` and button 5 gives `zoom * (1 - sens/2)`. From zoom 1
  at sensitivity 0.2 that is 1.1 and 0.9 (`Viewport.OriginScenario`).
- The help text advertises 200 fps and zoom sensitivity 0.1. `init_config`
  sets 240 fps (an interval of 4166 µs) and 0.2. The model follows
  `init_config`.

## Model

| member | source | states |
|---|---|---|
| Geometry.Eql | jotner.c:78-80 | exact component-wise comparison holds iff the two points are equal |
| Geometry.Ndc | jotner.c:354-355 | a pixel inside the window (0..w, 0..h) maps into [-1, 1] and one outside maps outside (no clamping), in both directions; the mapping is inverted by PixelX/PixelY |
| Geometry.NdcCorners | jotner.c:354-355 | pixel (0,0) maps to (-1, 1) and (w,h) to (1, -1): Y is flipped |
| Geometry.NdcMonotone | jotner.c:354-355 | moving right strictly increases X, moving down strictly decreases Y, and conversely |
| Geometry.NdcInjective | jotner.c:78-80 | two samples compare equal iff they come from the same pixel |
| Options.Stop.Code | jotner.c:31-38 | main returns 0 exactly for version and help; every other early stop returns ARG_ERR (8) |
| Options.RefreshInterval | jotner.c:108 | 1e6/fps truncated toward zero: `abs(r)*abs(fps) <= 1e6 < (abs(r)+1)*abs(fps)`, r has the sign of fps (or is 0), and it fits in 32 bits |
| Options.InitConfig | jotner.c:221-226 | defaults: refresh interval 4166 µs (= 1e6/240 truncated), zoom sensitivity 0.2, pan sensitivity 1, no name yet |
| Options.Stoi | jotner.c:82-89 | fails iff atoi gives 0, otherwise yields atoi's nonzero value |
| Options.Stof | jotner.c:91-98 | fails iff atof gives 0, otherwise yields atof's nonzero value |
| Options.ArgFps | jotner.c:105-111 | fails iff the frame rate parses to 0; otherwise only the refresh interval changes, to the truncated 1e6/fps |
| Options.ArgZoom | jotner.c:113-116 | fails iff the value parses to 0; otherwise only the zoom sensitivity changes |
| Options.ArgPan | jotner.c:118-121 | fails iff the value parses to 0; otherwise only the panning sensitivity changes |
| Options.Classify | jotner.c:417-448 | each option is recognised by exactly its short and long spelling, and anything else is unknown |
| Options.ParseArgs | jotner.c:412-454 | the argument loop returns exactly the outcome the recursive specification ParseFrom gives for argv from index 1 with the defaults and argv[0] as name |
| Options.NoOptionsGivesDefaults | jotner.c:413-415 | with no options the program proceeds with the defaults and argv[0] as name |
| Options.MissingValueIsError | jotner.c:424-426 | -f/-z/-p as the last argument is a missing-value stop with ARG_ERR |
| Options.ZeroValueIsError | jotner.c:427 | a value parsing to zero stops with ARG_ERR, whatever follows |
| Options.ValuedOptionConsumesTwo | jotner.c:427-441 | a valued option with a nonzero value changes only its own field and parsing resumes two slots later |
| Options.ExitIgnoresLaterArguments | jotner.c:417-452 | an early stop other than a missing value is the same however many arguments are appended |
| Options.PrefixThenRest | jotner.c:416-453 | a prefix that parses successfully ends exactly at its end, and the longer command line continues from there with the prefix's configuration |
| Options.StopFlagEndsParsing | jotner.c:417-421 | -v/--version or -h/--help after well-formed options ends with 0 (version or help), whatever follows |
| Options.UnknownArgumentIsError | jotner.c:448-452 | an unknown argument after well-formed options is an invalid-argument stop, whatever follows |
| Options.ProceedConfigSound | jotner.c:416-453 | a successful parse keeps the name and nonzero sensitivities, and keeps the refresh interval within ±1e6 |
| Options.ParseConfigSound | jotner.c:412-454 | a command line that lets the program start gives nonzero zoom and pan sensitivities, a 32-bit refresh interval and argv[0] as name |
| Viewport.Initial | jotner.c:459 | the starting state satisfies the zoom floor: zoom 1 as main sets it before the event loop, and pan 0 and anchor 0 from the zeroed statics of jotner.c lines 73 and 361 |
| Viewport.PanStep | jotner.c:363-375 | the anchor always becomes the pointer and zoom is untouched; held: pan grows by exactly (pointer - anchor) * sens, independent of zoom (the unmoved case included); not held: pan unchanged |
| Viewport.ZoomStep | jotner.c:377-386 | only a ButtonPress of button 4 or 5 changes anything; then zoom = max(zoom * (1 ± sens/2), 0.001) >= 0.001, the anchor is kept, and the world point under the cursor is the same before and after |
| Viewport.Step | jotner.c:358-387 | pan then zoom on the same sample: afterwards the anchor is the sampled pointer, the zoom is unchanged unless a wheel was pressed and at least 0.001 if one was |
| Viewport.Run | jotner.c:462-466 | events in order; the zoom stays nonzero throughout |
| Viewport.Engine.constructor | jotner.c:459 | the engine starts in the initial state (zoom 1 set at line 459; pan and anchor zeroed at lines 73 and 361), with the invariant zoom >= 0.001 |
| Viewport.Engine.ApplyPan | jotner.c:363-375 | the in-place update yields exactly PanStep's new state and keeps zoom >= 0.001 |
| Viewport.Engine.ApplyZoom | jotner.c:377-386 | the in-place update yields exactly ZoomStep's new state and keeps zoom >= 0.001 |
| Viewport.Engine.UpdateMovement | jotner.c:346-387 | converts the pointer to NDC, then yields exactly Step's new state for that sample; keeps zoom >= 0.001 |
| Viewport.RearmIdempotent | jotner.c:374-375 | re-arming with button 1 up leaves the pan alone, and doing it twice at one position equals doing it once |
| Viewport.NoJumpOnPress | jotner.c:363-375 | a release sample followed by a held sample at the same position changes nothing more than the release did |
| Viewport.HeldUnmovedIsNoOp | jotner.c:363-364 | a held sample exactly at the anchor leaves the whole state unchanged |
| Viewport.PanIsLinear | jotner.c:365-370 | dragging by d moves the pan by d * sens and leaves the zoom as it was |
| Viewport.WheelInStep | jotner.c:382 | button 4 gives max(zoom * (1 + sens/2), 0.001) |
| Viewport.WheelOutStep | jotner.c:382 | button 5 gives max(zoom * (1 - sens/2), 0.001) |
| Viewport.FloorSaturates | jotner.c:377-382 | with sens >= 0, button 5 at zoom 0.001 keeps zoom 0.001 |
| Viewport.OriginScenario | jotner.c:380-384 | at the origin of an untransformed view, button 4 and button 5 at sensitivity 0.2 give zoom 1.1 and 0.9 with the pan still 0 |
| Viewport.ZoomFloorInvariant | jotner.c:377-386 | over any sequence of events the zoom never drops below 0.001 |
| Viewport.ZoomOnlyOnWheel | jotner.c:377-378 | a sequence without wheel presses leaves the zoom unchanged |
| Viewport.DragTelescopes | jotner.c:363-371 | a drag with button 1 held throughout and no wheel presses moves the pan by (last pointer - starting anchor) * sens, with the last pointer as anchor |

## Left out

- Window, GLX context and mesh setup, `terminate`, event retrieval (`XNextEvent`), close/Escape detection and the `usleep` pacing (jotner.c:136-219, 229-241, 389-400, 461-466): these are foreign platform calls and I/O. `Viewport.Run` only stands for the sequence of events the loop hands to `update_movement`.
- `screenshot` and the texture upload (jotner.c:243-281): they depend on the X image format and on OpenGL. The buffer is sized `screen_w * screen_w * 4` rather than using `screen_h`, which is not modelled.
- Shader compilation and `draw` (jotner.c:283-344, 402-410): these are OpenGL calls only.
- `XQueryPointer` (jotner.c:350-352): its outputs are parameters. Its button mask is reduced to one boolean, "the Button1 bit is set".
- The printed version, help and error texts (jotner.c:101-103, 123-133, 425, 432, 439, 449): the parser's `Stop` value says which would be printed.
- float32 and double rounding: reals are used throughout. The `Parsers.atof` value stands for the number after it has been stored in a float. So a tiny value that rounds to 0.0f counts as zero, as it does in the program.
- The internals of `atoi` and `atof`: they are left as given functions, because only "the result is zero" matters to the parser.
- Geometry.Ndc: requires a positive screen size. The program takes it from the X display and would divide by zero otherwise.
- Viewport.ZoomStep: requires a nonzero prior zoom. The program divides by it, and the engine's invariant (zoom >= 0.001) guarantees it.
- Options.ParseConfigSound: its nonzero-sensitivity claim covers finite values only. The C library's `atof` returns NaN for "nan" and an infinity for "inf". Neither compares equal to zero, so the program accepts `-z nan` or `-p inf` (jotner.c:93). The model's `Parsers.atof` yields reals, so it cannot produce either value.
- Viewport.ZoomStep: the zoom formula, the floor and the fixed world point are proved for finite pan, zoom and sensitivity only. With a NaN zoom sensitivity, the `max` of jotner.c:28 picks MIN_ZOOM on every wheel press (jotner.c:382), because a comparison with NaN is false. An infinite sensitivity makes a zoom-in notch (button 4 for +inf, button 5 for -inf) set the zoom to infinity and the pan to an infinity or NaN, so the world point is not kept. A zoom-out notch clamps the zoom to MIN_ZOOM and keeps the world point. The same assumption holds for `Viewport.PanStep`, `Viewport.Step`, `Viewport.Run` and the lemmas about them.
