# Label layout editor: model

The editor puts 37 text labels of a game overlay on a 640×360 grid inside a
container that the browser scales to any size. A label can be dragged to a
grid cell. Each label has a built-in position (the `defaultPositions` table).
The layout can be exported as `_global_variables.json`, which holds one
`$<id>_offset` entry `[x, y]` per label (`$facing_offset` for the label
`yaw`) plus `$showShadow`. The same file can be imported again.

The model has five modules:

- `Wrappers`: an `Option` type.
- `Grid`: the grid size, `Math.round`, clamping, and the grid↔pixel scale.
- `Labels`:
  - the label table as an enumeration, with each label's element id and default position;
  - `KeyOf`, which renames an element id to its configuration key, and its inverse.
- `Config`:
  - the parsed configuration file as a map from keys to JSON values;
  - where placing from such a map puts each label (`Placement`, `ShadowAfter`);
  - what an export assembles (`ExportConfig`).
- `Editor`: one `Session` object.
  - Its fields hold the page state: each label's drawn pixel position (`style.left`/`style.top`), the raised labels (`zIndex`), the shadow checkbox, the drag state and the message area.
  - Its methods are the handlers: `PlaceLabels`, `Resize`, `Import`, `MouseDown`, `MouseMove`, `MouseUp` and `Export`.

Each label's grid position is the ghost function `Session.Layout()`, which reads the drawn pixel positions back the way export does. The methods are specified against that function and against `Placement`, `Defaults` and `ExportConfig`. The lemmas relate those functions to each other.

An import does not keep a label's previous position when the file lacks its key: `placeLabels` draws that label at its built-in position (script.js:69-70). `Config.FacingOnlyImport` states this, and `Session.Import` carries it.

## Model

| member | source | states |
|---|---|---|
| Grid.Round | script.js:132-133 | `Math.round`: the result is the integer within half a unit of the value, and exact halves round up |
| Grid.RoundIsUnique | script.js:132-133 | any integer within half a unit below/above the value is the rounded value |
| Grid.Clamp | script.js:135-136 | `max(lo, min(g, hi))` lies in [lo, hi] and is the closest point of [lo, hi] to g |
| Grid.ClampCases | script.js:135-136 | in-range values are kept; values below give lo; values above give hi |
| Grid.Scale | script.js:61-62 | the pixel size of a cell: cells × scale is the container's extent, and the scale is positive |
| Grid.ToPixel | script.js:72-73 | defines a grid coordinate's pixel offset: the coordinate times the scale |
| Grid.FromPixel | script.js:157-158 | defines the grid coordinate read back from a pixel offset: the offset divided by the scale, rounded |
| Grid.GridRoundTrip | script.js:157-158 | rounding a drawn position (grid × scale) divided by the scale gives back the grid position |
| Grid.ToGrid | script.js:132-136 | the dragged coordinate is round-then-clamp of pixel/scale and always lies in [0, cells-1] |
| Grid.ToGridCases | script.js:132-136 | a coordinate already on the grid stays; one left/above of it goes to 0; one past the far edge goes to cells-1 |
| Grid.DragPastRightEdge | script.js:135 | dragging to grid column 700 puts the label in column 639 at any scale |
| Labels.Name | script.js:19-57 | defines each label's element id, the keys of the table |
| Labels.Default | script.js:19-57 | each label's built-in position, which is always a cell of the 640×360 grid |
| Labels.KeyOf | script.js:66-67 | every key starts with `$` and ends with `_offset` |
| Labels.KeyOfInvertible | script.js:66-67 | the key of any id other than `facing` maps back to that id |
| Labels.KeyOfInjective | script.js:66-67 | two ids share a key only if they are equal or are `yaw` and `facing` |
| Labels.KeyOfDistinct | script.js:66-67 | ids other than `facing` with equal keys are equal |
| Labels.Key | script.js:66-67 | defines a label's configuration key, as placement and export compute it; `KeyRenamesName` ties it to `KeyOf` |
| Labels.KeyRenamesName | script.js:160-161 | the key export writes for a label is the key placement reads for it |
| Labels.ParseName | script.js:19-57 | each label's element id identifies that label |
| Labels.NameInjective | script.js:19-57 | no two labels share an element id |
| Labels.NameShape | script.js:19-57 | no element id is `facing` or starts with `$` |
| Labels.KeysDistinct | script.js:160-163 | no two labels share a configuration key, so export writes one entry per label |
| Labels.ShadowKeyIsNoLabelKey | script.js:166 | `$showShadow` is no label's key, so the flag never overwrites a label entry |
| Config.Truthy | script.js:70 | defines JavaScript truthiness of a parsed value, which picks the pair or the default and converts `$showShadow` to the checkbox state |
| Config.PlacedAt | script.js:69-70 | defines where a label goes: the pair under its key when that value is present and truthy, otherwise its default |
| Config.Placement | script.js:64-71 | placing from a map gives every label a position |
| Config.Defaults | script.js:19-57 | the layout with every label at its built-in position lies on the 640×360 grid |
| Config.ShadowAfter | script.js:76-78 | defines the checkbox after placement: the truthiness of `$showShadow` when the key is defined, otherwise unchanged |
| Config.Bare | script.js:19-57 | defines the first entries of the `defaultPositions` object: each label's default pair under its bare id |
| Config.DefaultInput | script.js:19-57 | defines the `defaultPositions` object as a parsed map |
| Config.BareKeys | script.js:19-57 | no key of the `defaultPositions` object starts with `$` |
| Config.DefaultInputHasNoKey | script.js:81 | `defaultPositions` holds neither a label key nor `$showShadow` |
| Config.DefaultInputResets | script.js:81-82 | placing from `defaultPositions` puts every label at its default and keeps the flag |
| Config.FacingOnlyImport | script.js:69-70 | a file with only `$facing_offset` moves `yaw` and sends every other label to its default |
| Config.Entries | script.js:156-164 | defines the `config` object after the export loop has visited a list of labels |
| Config.ExportConfig | script.js:150-166 | defines the exported object: the loop's entries, then `$showShadow` |
| Config.EntriesKeys | script.js:156-164 | the export loop writes exactly the keys of the labels it visited |
| Config.EntriesAt | script.js:156-164 | after the export loop, each visited label's key holds that label's `[x, y]` |
| Config.ExportShape | script.js:150-166 | the export holds each label key and `$showShadow`, and nothing else; each label key holds `[x, y]`; `$showShadow` holds the flag |
| Config.ExportEntry | script.js:156-166 | an export listing every label has each label's `[x, y]` under its key |
| Config.ImportOfExport | script.js:150-166 | placing from an export restores every label's grid position and the flag |
| Editor.Draw | script.js:72-73 | draws every label of a grid layout at its pixel offset, keeping the same labels |
| Editor.Read | script.js:157-158 | reads every label's grid position back from its pixel offset, keeping the same labels |
| Editor.PlacedPixel | script.js:69-73 | defines the pixel offset at which `placeLabels` draws one label |
| Editor.ReadDraw | script.js:157-158 | reading back what placement drew gives the grid positions that were drawn |
| Editor.DrewAll | script.js:64-74 | once the loop has drawn each label where the map places it, the whole placement is drawn |
| Editor.Session.constructor | script.js:81 | page load: every label drawn at its default's pixel offset, no drag, nothing raised, an empty message |
| Editor.Session.PlaceLabels | script.js:59-79 | every label is drawn at its entry when that entry is present and truthy, otherwise at its default; the flag is set from a defined `$showShadow` and is otherwise kept |
| Editor.Session.PlaceDefaults | script.js:81-82 | `placeLabels(defaultPositions)` draws every label at its default's exact pixel offset and keeps the flag |
| Editor.Session.Resize | script.js:82 | after a resize, every label is redrawn at its default's exact pixel offset at the new scale, and the flag is unchanged |
| Editor.Session.Import | script.js:88-111 | wrong name: error message, nothing moves; text that does not parse: error message, nothing moves; parsed map: every label drawn at the exact pixel offset of its placement, the flag set as `PlaceLabels` says, and the success message |
| Editor.Session.MouseDown | script.js:114-120 | drag starts on that label, the grab offset is recorded, and the label is raised |
| Editor.Session.MouseMove | script.js:123-140 | when idle, nothing changes; when dragging, only the dragged label moves, to the rounded and clamped cell under the pointer, which lies inside 640×360 |
| Editor.Session.MouseUp | script.js:142-148 | a drag ends and its label is lowered; when idle, nothing changes |
| Editor.Session.Export | script.js:150-174 | the export is `ExportConfig` of the current layout: each label's `[x, y]` under its key, `$showShadow` set to the flag, and the file name `_global_variables.json` |
| Editor.Session.ReimportExport | script.js:150-166 | importing the file just exported leaves every label and the flag where they were, and reports success |

## Left out

- Rendering, the DOM and CSS are not modelled. A label's `style.left`/`style.top` is a field of the session, and the container's size and corner are passed in as numbers.
- Exported files are not written. The Blob, object URL and temporary link (script.js:168-178) are left out; `Export` returns the configuration and the file name.
- `JSON.parse` and `JSON.stringify` are not modelled. `Import` receives the parse result as an `Option`, with `None` meaning the text did not parse.
- `FileReader` is not modelled. Its read completes inside the `Import` call, so reading is not asynchronous here.
- The import button's click only opens the file picker (script.js:84-86). It is not modelled.
- Editor.Session.Import: a change event with no file is not modelled. In the code, `files[0]` is undefined there and the handler throws; in the model a file name is always given.
- Editor.Session.PlaceLabels: requires `Placeable(m)`, meaning every truthy value under a label key is an `[x, y]` pair. The code has no such guard. A truthy number, boolean or plain object makes destructuring throw after some labels have already moved, and the import then shows the invalid-JSON message. A truthy string does not throw: its characters become the coordinates, so `"12"` draws the label at grid (1, 2), and a one-character string leaves the label's `top` unchanged. A JSON `null` document throws before any label moves.
- Editor.Session.Import: requires `Placeable` for a parsed map of the right name, as `PlaceLabels` does.
- Pairs with non-integer numbers, or arrays of other lengths, are not modelled. A pair is two integers.
- Config.PlacedAt: an imported pair is used as given and is not clamped, so a file can put a label off the 640×360 grid; only a drag clamps (script.js:135-136).
- The user can also toggle the shadow checkbox directly. The browser does this without any handler in the code, so no method models it.
- A container of zero width or height is not modelled. The code can run with one, before layout or while the container is hidden. Its scale is then 0: placement draws every label at `0px`, and a move divides by zero (script.js:61-62, 129-133). The model requires a positive size.
- Pixel positions and scales are exact reals, not IEEE doubles.
- Editor.Session.Export: reads each label back from its exact `style.left`/`style.top`. The browser's integer rounding of `offsetLeft`/`offsetTop` is left out.
- The message texts and colours are left out. The message area is an enumeration of the four states.
- Mouse events are left out except as method calls. `mouseup` is only heard on the container, so a release outside it leaves the drag running until a later `MouseUp`.
- Editor.Session.MouseDown: the label's on-screen corner is taken as the container's corner plus the label's drawn position.
