# Mouse-burrow tracking: parameters, burrow outlines and debug arithmetic

A Dafny model of the pure logic at the centre of the mouse-burrow video
analysis. It covers three parts.

* **Parameters** (`projects/mouse_burrows/algorithm/parameters.py`).
  - The `UNIT` enumeration and its parser table.
  - The full `PARAMETER_LIST` table of keys, default values and units.
  - The two dictionaries derived from the table: `PARAMETERS` maps each key to its record. `PARAMETERS_DEFAULT` holds the default of every non-deprecated parameter.
  - `set_base_folder`, which injects missing sub-folder defaults and then sets `base_folder`.
  - `scale_parameters`, which rescales each entry by a length factor and a time factor. The rule depends on the entry's unit.
* **Burrow outlines** (`mousetracking/burrow_finder.py`).
  - The `Burrow` record, its `len` and its array encoding (`to_array` / `from_array`).
  - `refine_burrow_outline`, which keeps the outline points flagged as free.
  - The pure steps of `find_burrows`:
    - closing the ground profile into a polygon;
    - the rule that fixes points on the 1-pixel-inset border of a region;
    - the shift between region and frame coordinates;
    - building one burrow per detected contour.
* **Debug arithmetic** (`mousetracking/algorithm/debug.py`).
  - The subplot grid of `show_image`.
  - Its shared colour range (`equalize_colors`).
  - The walk down a video's `_source` chain in `print_filter_chain`.

Modules:

| module | file | contents |
|---|---|---|
| `Wrappers` | wrappers.dfy | `Option`, `Result`, and the Python exceptions the code can raise |
| `Units` | units.dfy | the unit constants and the parser table |
| `ParameterList` | parameter_list.dfy | parameter values and the 143-entry parameter table |
| `Parameters` | parameters.dfy | `PARAMETERS`, `PARAMETERS_DEFAULT`, `set_base_folder` |
| `Scaling` | scaling.dfy | `scale_parameters` |
| `Burrows` | burrows.dfy | `Burrow`, `len`, `to_array`, `from_array` |
| `BurrowFinder` | burrow_finder.dfy | `refine_burrow_outline` and the list logic of `find_burrows` |
| `Debug` | debug.dfy | grid layout, colour range, filter chain |

Python data is mapped into Dafny as follows:

* Integers and floats are exact `real`s. Booleans take part in arithmetic as 0 and 1, as Python's `bool` does.
* Dictionaries are `map`s.
* A raised exception is the `Failure` of a `Result`.
* `scale_parameters` updates its dictionary in place. It is modelled as a method that walks the keys in an explicit iteration order. It returns the dictionary as it stands when the call ends, together with the exception raised, if any.

## Model

| member | source | states |
|---|---|---|
| Units.Code | projects/mouse_burrows/algorithm/parameters.py:20-36 | the constants group the units by kind: below 10 the non-physical units, 10-19 lengths and areas, 20-29 times and rates, 30-99 speeds, and 100 `DEPRECATED` |
| Units.FromCode | projects/mouse_burrows/algorithm/parameters.py:20-36 | every integer that names a unit decodes to the unit carrying that constant |
| Units.CodeRoundTrip | projects/mouse_burrows/algorithm/parameters.py:20-36 | each unit's constant decodes back to that unit |
| Units.CodeInjective | projects/mouse_burrows/algorithm/parameters.py:20-36 | two units share a constant only if they are the same unit, so comparing constants compares units |
| Units.ParserOf | projects/mouse_burrows/algorithm/parameters.py:39-52 | `bool` serves exactly `BOOLEAN`, `int` exactly `INTEGER`, and `float` exactly the five rescaled units plus `FACTOR`, `FRACTION`, `LENGTH_CM` and `SPEED_CM_SEC` |
| Units.ScaledUnitsParseAsFloat | projects/mouse_burrows/algorithm/parameters.py:42-52 | every unit that scaling rewrites is read through `float` |
| Units.IdentityParserUnits | projects/mouse_burrows/algorithm/parameters.py:39-52 | the `defaultdict` identity parser serves exactly folders, sub-folders, colours, strings, deprecated entries and entries without a unit |
| Parameters.RegistryOf | projects/mouse_burrows/algorithm/parameters.py:469 | `PARAMETERS` holds a key iff some table entry has it, and maps it to a table entry with that key |
| Parameters.RegistryLast | projects/mouse_burrows/algorithm/parameters.py:469 | when a key repeats, the later entry wins |
| Parameters.RegistryOfDistinct | projects/mouse_burrows/algorithm/parameters.py:469 | with distinct keys, each entry is found under its own key, and the dictionary has one entry per table row |
| Parameters.DefaultsOf | projects/mouse_burrows/algorithm/parameters.py:471-472 | `PARAMETERS_DEFAULT` holds a key iff some non-deprecated entry has it (entries without a unit count as non-deprecated) |
| Parameters.DefaultsLast | projects/mouse_burrows/algorithm/parameters.py:471-472 | a key maps to the default of the last non-deprecated entry carrying it |
| Parameters.DefaultsOfDistinct | projects/mouse_burrows/algorithm/parameters.py:469-472 | with distinct keys, an entry's key is present iff the entry is not deprecated. It maps to that entry's default, which is the default in the `PARAMETERS` record under the same key |
| Parameters.AddDefaultFolders | projects/mouse_burrows/algorithm/parameters.py:490-493 | the loop over the table never drops a key, and every key it adds is the key of some table entry |
| Parameters.AddDefaultFoldersKeep | projects/mouse_burrows/algorithm/parameters.py:490-493 | injecting defaults adds exactly the sub-folder keys and never overwrites a present value |
| Parameters.AddDefaultFoldersValues | projects/mouse_burrows/algorithm/parameters.py:490-493 | an injected key holds the default of the first sub-folder entry with that key |
| Parameters.SetBaseFolderIn | projects/mouse_burrows/algorithm/parameters.py:476-499 | for a parameter table (the program passes its own, `SetBaseFolder`), `base_folder` equals `folder`. The keys are the old keys plus `base_folder`, plus every `SUBFOLDER` key with `include_default`. Every other old value is kept, never overwritten, and every new value is the default of the first sub-folder entry with its key |
| Parameters.SetBaseFolderTwice | projects/mouse_burrows/algorithm/parameters.py:490-496 | for any table, setting the base folder twice equals setting it once with the later folder |
| Scaling.Multiply | projects/mouse_burrows/algorithm/parameters.py:510-518 | `value * factor` succeeds exactly for numbers and booleans and gives a number. Anything else is `TypeError`. `False` gives 0, and a factor of 1 turns a boolean into 0 or 1 |
| Scaling.ScaleValue | projects/mouse_burrows/algorithm/parameters.py:509-518 | one branch of the `if`/`elif` chain raises only `TypeError` or `ZeroDivisionError`. `ZeroDivisionError` arises only for a rate or a speed with a zero time factor |
| Scaling.ScaleEntry | projects/mouse_burrows/algorithm/parameters.py:508-518 | one loop iteration raises `KeyError` iff the key is missing from `PARAMETERS`, and the error names that key |
| Scaling.ScaleValueByUnit | projects/mouse_burrows/algorithm/parameters.py:509-518 | a successful rescale multiplies a number by the unit's multiplier (`fl`, `fl²`, `ft`, `1/ft`, `fl/ft`). Every other unit keeps its value |
| Scaling.ScalableIff | projects/mouse_burrows/algorithm/parameters.py:507-518 | a pass raises nothing iff every key is in `PARAMETERS`, every rescaled value is numeric, and no rate or speed divides by a zero time factor |
| Scaling.ScaledMap | projects/mouse_burrows/algorithm/parameters.py:503-518 | a complete pass keeps the key set and rescales every value by its unit's rule |
| Scaling.ScaledMapPerUnit | projects/mouse_burrows/algorithm/parameters.py:509-518 | per key: lengths are multiplied by `factor_length` and areas by its square. Times are multiplied by `factor_time` and rates divided by it. Speeds are multiplied by `factor_length/factor_time`. Every other unit, `LENGTH_CM`, `SPEED_CM_SEC`, `FACTOR`, `DEPRECATED` and `None` included, is unchanged |
| Scaling.ScaleParametersWith | projects/mouse_burrows/algorithm/parameters.py:503-518 | the loop keeps the key set. It raises iff the dictionary is not scalable, and without an exception its result is the fully rescaled map. On an exception, keys before the failing one are rescaled and keys after it are untouched |
| Scaling.ScaleParameters | projects/mouse_burrows/algorithm/parameters.py:503-518 | against the program's `PARAMETERS`: the key set is kept. The call raises iff the dictionary is not scalable, and without an exception the result is the fully rescaled map. On an exception, the first failing key raised it, keys before it are rescaled and keys from it on are untouched |
| Scaling.ScaleByOneIsIdentity | projects/mouse_burrows/algorithm/parameters.py:503 | the default factors `(1, 1)` leave a well-typed dictionary unchanged |
| Scaling.ScaleValueCompose | projects/mouse_burrows/algorithm/parameters.py:509-518 | rescaling one value by `(a, b)` and then `(c, d)` equals one rescale by `(a·c, b·d)` |
| Scaling.ScaleCompose | projects/mouse_burrows/algorithm/parameters.py:503-518 | two passes compose into one pass with the product factors |
| Scaling.ScaleInverse | projects/mouse_burrows/algorithm/parameters.py:503-518 | a pass with non-zero factors is undone by a pass with their reciprocals |
| Scaling.UnknownKeyFails | projects/mouse_burrows/algorithm/parameters.py:508 | a key missing from `PARAMETERS` raises `KeyError` for that key, so the pass fails |
| Burrows.Length | mousetracking/burrow_finder.py:144-145 | `len(burrow)` is zero exactly for an empty outline |
| Burrows.ToArray | mousetracking/burrow_finder.py:181-184 | one three-column row per outline point (`len(burrow)` rows). Column 0 is the time and columns 1-2 the point. An empty outline is `ValueError`, whatever the time. A non-empty outline with no time is `TypeError` |
| Burrows.FromArrayAsWritten | mousetracking/burrow_finder.py:187-190 | `from_array` as written: the time is `data[0][0]`, and the outline is every row after the first, every column kept |
| Burrows.AsWrittenDropsFirstPoint | mousetracking/burrow_finder.py:181-190 | decoding an encoded burrow with the code as written keeps the time. It loses the first point and leaves the time column in the remaining rows |
| Burrows.AsWrittenCounterexample | mousetracking/burrow_finder.py:187-190 | the two-point burrow `[(1,2),(3,4)]` at frame 7 comes back as the single row `[7,3,4]` |
| Burrows.FromArray | mousetracking/burrow_finder.py:187-190 | corrected decoder: one point per row from columns 1-2, time from the first cell. No rows is `IndexError`, and a width other than 3 is `ValueError` |
| Burrows.FromArrayToArray | mousetracking/burrow_finder.py:181-190 | the corrected decoder inverts `to_array` on every encodable burrow |
| Burrows.ToArrayFromArray | mousetracking/burrow_finder.py:181-190 | `to_array` inverts the corrected decoder on every three-column table with a constant time column |
| BurrowFinder.SetIndices | mousetracking/burrow_finder.py:36-38 | the indices of set flags, strictly increasing, each one set, and none missing |
| BurrowFinder.RefineBurrowOutline | mousetracking/burrow_finder.py:32-40 | with enough flags, the result is the outline filtered by its flags; a short flag list is `IndexError` |
| BurrowFinder.KeptAtSetIndices | mousetracking/burrow_finder.py:36-38 | the kept points are exactly the outline points at the set indices, in original order |
| BurrowFinder.KeptLength | mousetracking/burrow_finder.py:36-38 | as many points survive as there are true flags |
| BurrowFinder.KeptAllFree | mousetracking/burrow_finder.py:36-38 | with every flag true, the outline comes back unchanged |
| BurrowFinder.KeptNoneFree | mousetracking/burrow_finder.py:36-38 | with every flag false, the result is empty |
| BurrowFinder.FreePoints | mousetracking/burrow_finder.py:109-113 | one flag per point. A point is fixed iff `x == 1`, `y == 1`, `x == roi_w-2` or `y == roi_h-2` |
| BurrowFinder.KeptFreeIsOffBorder | mousetracking/burrow_finder.py:109-117 | filtering by those flags keeps exactly the points off the inset border, in order |
| BurrowFinder.OffBorderMembers | mousetracking/burrow_finder.py:109-117 | a point survives iff it is an input point off the inset border |
| BurrowFinder.ToRegion | mousetracking/burrow_finder.py:90 | subtracting the rectangle origin keeps the number of points |
| BurrowFinder.ToFrame | mousetracking/burrow_finder.py:119-120 | adding the rectangle origin keeps the number of points |
| BurrowFinder.RegionFrameRoundTrip | mousetracking/burrow_finder.py:119-120 | the shift back to frame coordinates undoes the shift into region coordinates at line 90, and vice versa. The two shifts are inverse maps; in the program they act on different contours (the region's own contour, found at lines 94-106, is the one shifted back) |
| BurrowFinder.OutlineBurrow | mousetracking/burrow_finder.py:108-122 | a detected contour becomes a burrow stamped with the frame index. Its outline is the off-border points shifted to frame coordinates, and every point comes from an off-border contour point |
| BurrowFinder.FindBurrows | mousetracking/burrow_finder.py:79-124 | one burrow per contour, in contour order, each with the frame index and its refined, shifted outline |
| BurrowFinder.TruncateToInt | mousetracking/burrow_finder.py:52-53 | storing a float in the integer point array truncates toward zero |
| BurrowFinder.GroundPolygon | mousetracking/burrow_finder.py:52-57 | the polygon has `len(profile)+4` points, and its prefix is the truncated profile. An empty profile is `IndexError`, from the `ground_points[-5]` read |
| BurrowFinder.GroundPolygonClosesAlongFrame | mousetracking/burrow_finder.py:54-57 | the tail is `(width, last.y)`, `(width, height)`, `(0, height)`, `(0, first.y)`. It closes the profile with axis-parallel edges along the frame's right, bottom and left sides |
| BurrowFinder.GroundPolygonKeepsIntegralProfile | mousetracking/burrow_finder.py:52-53 | an integer profile is copied into the polygon unchanged |
| Debug.NumRows | mousetracking/algorithm/debug.py:24-30 | 1 row for at most 2 images, 3 rows for more than 6, and 2 rows in between |
| Debug.Ceil | mousetracking/algorithm/debug.py:31 | `np.ceil` gives the least integer not below its argument |
| Debug.NumCols | mousetracking/algorithm/debug.py:31 | the number of columns lies between 0 and the number of images, and at least one image gives at least one column |
| Debug.NumColsIsCeilDiv | mousetracking/algorithm/debug.py:31 | the ceiling of the true quotient `n/num_rows` is the integer ceiling division |
| Debug.GridHoldsAllImages | mousetracking/algorithm/debug.py:43-44 | `num_rows*num_cols >= n`, so every subplot index `k+1` is in `1..num_rows*num_cols` |
| Debug.GridIsTight | mousetracking/algorithm/debug.py:24-31 | for at least one image, `num_rows*(num_cols-1) < n`: no wholly unused column. Likewise no wholly unused row |
| Debug.ImageMin | mousetracking/algorithm/debug.py:37 | `image.min()` is a pixel of the image and no pixel is below it |
| Debug.ImageMax | mousetracking/algorithm/debug.py:38 | `image.max()` is a pixel of the image and no pixel is above it |
| Debug.EqualizeColors | mousetracking/algorithm/debug.py:34-40 | without `equalize_colors` both bounds are `None`. With it, an empty image is `ValueError`; otherwise the bounds enclose every pixel and each is attained, so `vmin <= vmax` when a pixel exists. With no images the bounds stay at `inf` and `-inf` |
| Debug.Depth | mousetracking/algorithm/debug.py:171-180 | every chain has at least one object |
| Debug.FilterChain | mousetracking/algorithm/debug.py:171-180 | `print_filter_chain` prints one line per object on the chain, the first being `str(video)` |
| Debug.FilterChainVisitsInOrder | mousetracking/algorithm/debug.py:171-180 | one line per object, the video first, and each object's name at its distance down the `_source` chain. The walk ends at the first object without a source |

## Left out

- `mousetracking/parallel.py`: process forking, pipes and polling; the video classes it drives are not part of this model.
- OpenCV image work in `find_burrows`: `fillPoly`, `erode`, `morphologyEx`, `bitwise_and`, `findContours`, Otsu thresholding, `approxPolyDP`, `arcLength`, `boundingRect`, `expand_rectangle`, `rect_to_slices`. Contours, rectangles and region sizes are inputs (`BurrowFinder.Detection`).
- The single-contour `assert` at burrow_finder.py:100: the model takes the one contour as given.
- Plotting and waiting for a key: `show_image`'s drawing, `show_shape`, `show_tracking_graph`, `Burrow.show_image`, `raw_input`; `save_frame_from_video` (video seek and file I/O). `print_filter_chain` prints; the model returns the printed lines instead.
- The `Burrow` stubs `get_centerline`, `get_difference`, `adjust_outline`, and the `image` field, which the modelled code never reads.
- Floating point: all arithmetic is exact over the rationals. The `np.arange` defaults are written out as exact lists.
- The `float`/`int`/`bool` casts that `UNIT.parser` registers are named (`Units.Parser`) but not executed.
- Parameter descriptions.
- The `DictXpath` flattening in `set_base_folder` and `scale_parameters` (`to_dict(flatten=True)`, `iterkeys(flatten=True)`) and the rebuilding of the original type. Dictionaries are flat maps, and the key iteration order is a parameter.
- The `DeprecationWarning` raised by `set_base_folder`.
- Parameters.SetBaseFolderIn: when `parameters` is a plain `dict`, `set_base_folder` also changes the caller's dictionary in place: the injected defaults and `base_folder` are written into it, so it ends equal to the result. It then returns a copy. The model returns a fresh map and says nothing about the argument.
- Scaling.ScaleValue: a factor is a real number, so Python's repetition of a string or list by an integer factor (`'ab' * 1`) is modelled as a `TypeError`. numpy arrays scaled element by element are not modelled.
- Scaling.ScaleByOneIsIdentity: stated for dictionaries whose rescaled values are numbers (`WellTyped`). A boolean under a rescaled unit would come back as the number 0 or 1.
- Parameters.RegistryOfDistinct: the table's keys are never proved distinct; lemmas that need it take it as a precondition.
- Burrows.ToArray: an empty outline is taken to be a one-dimensional array. Adding the time to the empty time column then succeeds, even for `None`, and `np.hstack` raises `ValueError` joining a two-dimensional and a one-dimensional array. With a non-empty outline, a missing time (`None`) is the `TypeError` of the addition. The exception messages are not modelled.
- BurrowFinder.GroundPolygon: the ground profile is taken to be an `(n, 2)` array, so an empty profile is the `IndexError` of the `ground_points[-5, 1]` read at line 54. An empty list or one-dimensional array would instead raise `ValueError` at line 53, where `(0,)` cannot be broadcast into `(0, 2)`; that case is not modelled.
- Burrows.FromArray, Burrows.FromArrayAsWritten: ragged tables (rows of different widths) are excluded by the `IsMatrix` precondition, since `np.asarray` would not build a two-dimensional array from them.
- Debug.FilterChainVisitsInOrder: an `AttributeError` raised by `str()` deeper in the chain, which the `except` clause would also swallow, is not modelled.
- Debug.EqualizeColors: images are flat lists of pixel values, since `min`/`max` look at every pixel regardless of shape. NaN pixels are not modelled.

## Findings

| source | as written | input that shows it | evidently intended | confidence | as-written member | corrected member |
|---|---|---|---|---|---|---|
| mousetracking/burrow_finder.py:187-190 | `from_array` takes `outline = data[1:, :]`: every row after the first, with all three columns | `Burrow([(1,2),(3,4)], time=7)`: `to_array` gives `[[7,1,2],[7,3,4]]`, and `from_array` gives outline `[[7,3,4]]`, time 7 | `outline = data[:, 1:]`: every row, without the time column, so that `from_array(to_array(b))` gives back `b` | medium, not executed | Burrows.FromArrayAsWritten | Burrows.FromArray |
