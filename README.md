# RIPE React components: reconciliation logic, pickers, hover zoom, configurator

A Dafny model of the parts of the RIPE React component library that hold
their own logic, as opposed to forwarding to the `ripe-sdk` engine or
rendering markup:

- **The logic mixin** (`react/mixins/logic.js`). Each stateful component
  keeps a cached copy of the engine's configuration: brand, model, version,
  parts, currency, initials, engraving, initials extra and structure. The
  model covers:
  - the decision whether a component configures the engine;
  - `configRipe`, which resolves omitted arguments against that cache and
    issues the `config`, `setInitials` and `setInitialsExtra` calls;
  - the `shouldReset` rule;
  - how a property update (`_componentDidUpdate`) turns into setter calls
    and reconfigurations. The structure property is edited in place on this
    path;
  - the engine event handlers that drop events equal to what is cached;
  - the comparisons of parts maps, initials-extra maps, structures and
    configuration options. The two subset comparisons are loops.
- **The pickers** (`ripe-pickers.js`):
  - the filtering of the engine's part → material → color availability
    tree;
  - the `_`-separated label normalisation;
  - the part/material/color selection, committed with `setPart`.
- **The hover zoom** (`ripe-image-zoom-hover.js`): the `hover`, `pivot` and
  `zoomData` state machine, the pivot arithmetic and the wheel zoom.
- **The configurator view** (`ripe-configurator.js`):
  - `view-position` frame strings;
  - the guarded frame change and resize;
  - the visibility-gated `onUpdateFrame`.

The engine is not modelled. Every call a component makes to it, and every
outward callback (`onUpdateParts`, `onConfigured`, …), is appended to a
`trace` field. Which engine calls reject is a parameter: `rejects`, or
`accepted`. So is what the engine reports back when a handler reads it (an
`EngineState`, a `Handle`, the `choices` tree). `setState` callbacks and
`await`s run in program order.

JavaScript values are modelled as follows:

- `null` is `Option.None`.
- An omitted argument is `JsValue.Undefined`, so `configRipe` tells "not
  passed" from an explicit `null`.
- Parts and initials extra are maps from names to values.
- Hover coordinates and zoom levels are `real`s.

Modules, one per file:

| file | module | models |
|---|---|---|
| `js.dfy` | `Js` | `null`/`undefined`, truthiness, ASCII `toUpperCase` |
| `text.dfy` | `Text` | `split`/`join` on one character, with their round trips |
| `customization.dfy` | `Customization` | parts and initials-extra maps, the subset loops, `equalParts`, `equalInitialsExtra` |
| `structures.dfy` | `Structures` | the structure value, the structure object edited in place, `equalStructure`, `shouldReset` |
| `logic.dfy` | `Logic` | the mixin: specification functions, their lemmas, and `class Logic` with its methods |
| `pickers.dfy` | `Pickers` | `_filteredOptions`, `_normalize`, `class Pickers` |
| `zoomhover.dfy` | `HoverZoom` | `class HoverZoom` |
| `configurator.dfy` | `Configurator` | frame parsing, `class Configurator` |

Several places where the code and the library's documentation disagree
follow the code:

- **`shouldReset`** is true when the identity changed AND at least ONE piece
  of the customization is unchanged. It is not true only when all of it is
  unchanged.
- **`configRipe`** has `try`/`finally` and no `catch`. A rejected engine
  call still clears `configuring` and calls `onConfigured`, but the
  rejection reaches the caller. The model reports it as `ok == false`.
- **`_componentDidUpdate`** does not await its steps. A structure update
  that throws therefore does not stop the discrete reconfiguration that
  follows it.
- **The `changed_frame` handler** of the configurator reports every frame.
  Only `_changeFrame` is gated by visibility.
- **No zoom clamping, sole-option auto-select, continuous revolution or
  price-error handling** appears in these files, so none is modelled.

## Model

| member | source | states |
|---|---|---|
| Js.UpperChar | react/components/organisms/ripe-pickers/ripe-pickers.js:168 | ASCII `toUpperCase` of one character: a lower-case letter becomes the upper-case letter at the same place in the alphabet, any other character is kept |
| Text.Split | react/components/organisms/ripe-configurator/ripe-configurator.js:111-112 | `split` yields at least one piece and no piece holds the separator |
| Text.JoinSplit | react/components/organisms/ripe-pickers/ripe-pickers.js:165-170 | joining the pieces of a split with the same separator gives the string back |
| Text.SplitJoin | react/components/organisms/ripe-pickers/ripe-pickers.js:165-170 | splitting a join of separator-free pieces gives the pieces back |
| Text.SplitFirstIsPrefix | react/components/organisms/ripe-configurator/ripe-configurator.js:111 | the first piece of a split is a prefix of the string |
| Text.SplitManyIff | react/components/organisms/ripe-configurator/ripe-configurator.js:112 | a split has a second piece exactly when the string holds the separator |
| Text.SplitFirstPiece | react/components/organisms/ripe-configurator/ripe-configurator.js:111 | the first piece of a split is the whole string or is followed by the separator |
| Text.SplitSecondPiece | react/components/organisms/ripe-configurator/ripe-configurator.js:112 | the first two pieces with the separator between them start the string, and are the whole string or are followed by the separator |
| Customization.SubsetCompareParts | react/mixins/logic.js:600-623 | the loop returns false exactly when some part of `base` is missing from `reference` or has another material or color; true otherwise |
| Customization.SubsetCompareInitials | react/mixins/logic.js:625-648 | the same loop over initials groups, comparing initials and engraving |
| Customization.EqualParts | react/mixins/logic.js:365-381 | `equalParts`: two `null` maps equal, one `null` unequal, else subset both ways; EqualPartsIsEquality proves it is equality of the optional maps |
| Customization.EqualInitialsExtra | react/mixins/logic.js:392-408 | `equalInitialsExtra`, with the same rules over groups; EqualInitialsExtraIsEquality proves it is equality of the optional maps |
| Customization.EqualPartsIsEquality | react/mixins/logic.js:365-381 | `equalParts` (two `null` equal, one `null` unequal, else subset both ways) is exactly equality of the optional maps |
| Customization.EqualPartsSymmetricReflexive | react/mixins/logic.js:365-381 | `equalParts` is reflexive and symmetric |
| Customization.EqualPartsSameNames | react/mixins/logic.js:365-381 | equal parts maps have the same part names and the same part under each |
| Customization.EqualInitialsExtraIsEquality | react/mixins/logic.js:392-408 | `equalInitialsExtra` is exactly equality of the optional maps |
| Customization.EqualInitialsExtraSymmetricReflexive | react/mixins/logic.js:392-408 | `equalInitialsExtra` is reflexive and symmetric |
| Customization.EqualInitialsExtraSameNames | react/mixins/logic.js:392-408 | equal initials extras have the same group names and the same group under each |
| Structures.EqualStructureIsEquality | react/mixins/logic.js:410-422 | `equalStructure` (identity, `equalParts`, initials, engraving, `equalInitialsExtra`) is exactly equality of the structures |
| Structures.ShouldResetCarriesOver | react/mixins/logic.js:344-363 | a reset holds exactly when brand, model or version changed and at least one of parts, initials, engraving or a present initials extra is unchanged |
| Structures.NoResetWithoutIdentityChange | react/mixins/logic.js:349-352 | without a change of brand, model and version there is no reset |
| Structures.EqualStructure | react/mixins/logic.js:410-422 | `equalStructure`; EqualStructureIsEquality proves it is equality of the optional structures |
| Structures.ShouldReset | react/mixins/logic.js:344-363 | `shouldReset`, with the OR as written; ShouldResetCarriesOver states it with plain equality and NoResetWithoutIdentityChange rules out a reset without an identity change |
| Logic.LaterInstancesDoNotConfigure | react/mixins/logic.js:153-154 | once a process-wide engine exists, or an engine was supplied, a component configures only when its `config` property is `true` |
| Logic.ShouldConfigure | react/mixins/logic.js:153-154 | the configure decision: an explicit `config` wins, otherwise only a new instance configures; LaterInstancesDoNotConfigure and SetupRipe state it |
| Logic.NormalizeCurrency | react/mixins/logic.js:311 | the currency sent is present exactly when the given one is truthy; it has the same length, and each character is the upper case of the given one's character at that place, so no letter is lower case |
| Logic.NormalizeCurrencyIgnoresCase | react/mixins/logic.js:311 | currencies that differ only in letter case are sent identically |
| Logic.NoArgsReplaysCache | react/mixins/logic.js:277-302 | `configRipe` with no argument configures exactly what is cached |
| Logic.ConfigCallsShape | react/mixins/logic.js:304-336 | one `config` call, first; `setInitials` exactly when `config` resolved and the initials are truthy; `setInitialsExtra` exactly when everything before it resolved and an initials extra exists; at most three calls |
| Logic.StructureOverridesDiscreteFields | react/mixins/logic.js:305-318 | with a structure, the discrete brand, model, version, parts and personalization arguments do not affect any engine call |
| Logic.SetupIgnoresCache | react/mixins/logic.js:253-266 | the initial configuration passes every property explicitly, so it never depends on the cache |
| Logic.EqualConfigOptions | react/mixins/logic.js:424-431 | `equalConfigOptions` over brand, model, version and currency; EqualConfigOptionsIsEquality proves it is equality of those fields |
| Logic.EqualConfigOptionsStructure | react/mixins/logic.js:433-438 | `equalConfigOptionsStructure`; EqualConfigOptionsIsEquality proves it is equality of structure and currency |
| Logic.EqualConfigOptionsIsEquality | react/mixins/logic.js:424-438 | both configuration-option comparisons are exactly equality of the fields they read |
| Logic.ResetClearsCustomization | react/mixins/logic.js:526-549 | after a reset the request has no parts, empty initials, no engraving and an empty initials extra, except where that cleared value equals the previous property and the cache is used |
| Logic.OptionsArgsPassOnlyChanges | react/mixins/logic.js:536-550 | without a reset, each changed field is passed as it is, `null` included, each unchanged one comes from the cache, and the parts are always the property |
| Logic.StructureUpdatePassesChanges | react/mixins/logic.js:553-567 | no call exactly when the currency is unchanged and the structure equals the cached or the previous one; otherwise the structure is passed exactly when it differs from both, and the currency exactly when it changed, and nothing else |
| Logic.StructureEditKeepsIdentity | react/mixins/logic.js:569-590 | the in-place edit keeps brand, model and version, and a kept initials extra never comes with changed initials or engraving |
| Logic.DidUpdateIdle | react/mixins/logic.js:440-466 | an update with unchanged properties makes no engine call, no callback and no cache change |
| Logic.DidUpdatePartsOnly | react/mixins/logic.js:443-445 | a change of the parts alone caches them, calls `setParts` and then `onUpdateParts`, and reconfigures nothing |
| Logic.DidUpdateModelSwitch | react/mixins/logic.js:463-464 | a change of the model alone makes exactly the effects of one `configRipe` with the reset arguments (no setter, no structure step, no cache change); its first call configures the new model with no parts, and the initials sent are empty |
| Logic.PartsEchoDropped | react/mixins/logic.js:179-181 | the echo of the component's own parts is dropped by the corrected check and never by the check as written |
| Logic.Logic.ConfigRipe | react/mixins/logic.js:277-342 | the trace grows by the resolved request's engine calls up to the first rejection, then `onConfigured`; `configuring` ends false; the cache is unchanged; `ok` is whether nothing was rejected |
| Logic.Logic.UpdateParts | react/mixins/logic.js:650-660 | caches the parts, calls `setParts`, and calls `onUpdateParts` once that resolved |
| Logic.Logic.UpdateInitials | react/mixins/logic.js:662-672 | caches the initials and sends them with the cached engraving; `onUpdateInitials` once that resolved |
| Logic.Logic.UpdateEngraving | react/mixins/logic.js:674-684 | caches the engraving and sends it with the cached initials; `onUpdateEngraving` once that resolved |
| Logic.Logic.UpdateInitialsExtra | react/mixins/logic.js:686-696 | caches the initials extra, calls `setInitialsExtra`, and calls `onUpdateInitialsExtra` once that resolved |
| Logic.Logic.UpdateConfigOptions | react/mixins/logic.js:509-551 | nothing without an engine or outside config mode; otherwise exactly `configRipe` with the reset-aware changed-fields arguments |
| Logic.Logic.UpdateConfigOptionsStructure | react/mixins/logic.js:553-598 | skips, fails on a `null` previous structure, or edits the structure property in place and calls `configRipe` with the changed structure and currency |
| Logic.Logic.CustomizationSetters | react/mixins/logic.js:443-457 | the four setters run, each for a changed field, in order, each seeing the cache its predecessors left |
| Logic.Logic.ComponentDidUpdate | react/mixins/logic.js:440-466 | nothing without an engine, outside config mode or while configuring; otherwise the setters, then the structure step, then the discrete step, with the resulting cache, trace and structure property |
| Logic.Logic.CopyRipeData | react/mixins/logic.js:468-507 | with a structure property only structure and currency are copied and reported; otherwise every discrete field is copied and reported, in order |
| Logic.Logic.SetupRipe | react/mixins/logic.js:150-271 | configures exactly on the configure decision; an engine and the process-wide engine exist afterwards; configuring gives the `configRipe` effects of the properties and ends with `configuring` false, otherwise the cache and trace of `_copyRipeData` for either kind of property |
| Logic.Logic.OnParts | react/mixins/logic.js:179-194 | a parts event equal to the cached parts is dropped; otherwise a structure user refreshes and reports its structure, another component caches and reports the parts |
| Logic.Logic.OnPartsAsWritten | react/mixins/logic.js:179-194 | as written, only a `null` event is dropped and the parts branch is always taken |
| Logic.Logic.OnInitials | react/mixins/logic.js:196-220 | an event with the cached initials and engraving is dropped; otherwise the structure or the two values are refreshed and reported |
| Logic.Logic.OnInitialsExtra | react/mixins/logic.js:222-245 | an event equal (by `equalInitialsExtra`) to the cache is dropped; otherwise the structure or the initials extra is refreshed and reported |
| Pickers.FilteredOptions | react/components/organisms/ripe-pickers/ripe-pickers.js:137-163 | the nested loops compute the filtered tree `Filtered(choices)` |
| Pickers.AvailableColorsAppend | react/components/organisms/ripe-pickers/ripe-pickers.js:148-153 | the color filter keeps order: the filter of a concatenation is the concatenation of the filters |
| Pickers.AvailableColorsMembers | react/components/organisms/ripe-pickers/ripe-pickers.js:148-153 | the color list holds exactly the names of the available colors |
| Pickers.KeptMaterialsMembers | react/components/organisms/ripe-pickers/ripe-pickers.js:145-157 | a material is kept exactly when an entry of that name is available and has an available color |
| Pickers.KeptMaterialsValues | react/components/organisms/ripe-pickers/ripe-pickers.js:145-157 | a kept material's list is the available colors of an available entry of that name, and is not empty |
| Pickers.FilteredMembers | react/components/organisms/ripe-pickers/ripe-pickers.js:140-161 | a part is kept exactly when an entry of that name is available and keeps a material |
| Pickers.FilteredValues | react/components/organisms/ripe-pickers/ripe-pickers.js:140-161 | a kept part's materials are those kept from an available entry of that name, and are not empty |
| Pickers.FilteredKeepsOnlyAvailable | react/components/organisms/ripe-pickers/ripe-pickers.js:140-160 | every kept part, material and color is available in the tree, and no kept part or material is empty |
| Pickers.Filtered | react/components/organisms/ripe-pickers/ripe-pickers.js:137-163 | the filtered tree; FilteredMembers, FilteredValues, FilteredKeepsOnlyAvailable and the color and material lemmas state what it keeps |
| Pickers.CapitalizeAll | react/components/organisms/ripe-pickers/ripe-pickers.js:168 | one piece per segment, each of the segment's length, whose first character is the upper case of the segment's first character (so not lower case) and whose rest is the rest of the segment |
| Pickers.Normalize | react/components/organisms/ripe-pickers/ripe-pickers.js:165-170 | `_normalize`, `None` for the `TypeError` of an empty segment; NormalizeCharacters and NormalizeDefined state it |
| Pickers.NormalizeCharacters | react/components/organisms/ripe-pickers/ripe-pickers.js:165-170 | the label has the value's length, a space for each `_`, each segment's first letter upper-cased, and every other character unchanged |
| Pickers.NormalizeDefined | react/components/organisms/ripe-pickers/ripe-pickers.js:165-170 | a label exists exactly when no segment is empty, so never for an empty value or one starting or ending with `_` |
| Pickers.Pickers.constructor | react/components/organisms/ripe-pickers/ripe-pickers.js:46-79 | no selection, no options, loading, nothing called |
| Pickers.Pickers.IsConfigurationIncomplete | react/components/organisms/ripe-pickers/ripe-pickers.js:172-176 | some selection is falsy; OnConfirmCustomization commits only when it does not hold, and OnSelectPartChange always leaves it holding |
| Pickers.Pickers.CompleteMeansAllChosen | react/components/organisms/ripe-pickers/ripe-pickers.js:172-176 | the selection is complete exactly when part, material and color are all present and non-empty |
| Pickers.Pickers.Mount | react/components/organisms/ripe-pickers/ripe-pickers.js:81-135 | reports loading, stores the filtered options, no longer loading, reports loaded |
| Pickers.Pickers.OnPreConfig | react/components/organisms/ripe-pickers/ripe-pickers.js:86-98 | loading, with the three selections cleared, reported with `onLoading` |
| Pickers.Pickers.OnPostConfig | react/components/organisms/ripe-pickers/ripe-pickers.js:100-110 | not loading, with the recomputed filtered options, reported with `onLoaded` |
| Pickers.Pickers.OnSelectPartChange | react/components/organisms/ripe-pickers/ripe-pickers.js:178-182 | sets the part, clears material and color, so the selection is incomplete, and reports the highlighted part |
| Pickers.Pickers.OnSelectMaterialChange | react/components/organisms/ripe-pickers/ripe-pickers.js:184-186 | changes only the material; the committed-triples invariant is kept |
| Pickers.Pickers.OnSelectColorChange | react/components/organisms/ripe-pickers/ripe-pickers.js:188-190 | changes only the color; the committed-triples invariant is kept |
| Pickers.Pickers.OnConfirmCustomization | react/components/organisms/ripe-pickers/ripe-pickers.js:192-207 | nothing for an incomplete selection; otherwise one `setPart` with the triple and, once it resolved, the engine's parts reported and the selection cleared; only complete triples are ever committed |
| HoverZoom.OutOfBoundsPastEdge | react/components/organisms/ripe-image-zoom-hover/ripe-image-zoom-hover.js:144-147 | the bounds test holds exactly when the pointer is past the right or the bottom edge; left of or above the target does not end the hover |
| HoverZoom.OutOfBounds | react/components/organisms/ripe-image-zoom-hover/ripe-image-zoom-hover.js:144-147 | the bounds test on the pivot; OutOfBoundsPastEdge states which pointer positions it holds for |
| HoverZoom.HoverZoom.constructor | react/components/organisms/ripe-image-zoom-hover/ripe-image-zoom-hover.js:131-139 | no hover, no pivot, the configured zoom; the pivot/hover invariant holds |
| HoverZoom.HoverZoom.StartHover | react/components/organisms/ripe-image-zoom-hover/ripe-image-zoom-hover.js:141-157 | out of bounds it ends the hover; otherwise hovering at the pivot with the configured zoom; the applied zoom (`_zoomApplied`) is then 100 or the configured zoom; the invariant is kept |
| HoverZoom.HoverZoom.MoveHover | react/components/organisms/ripe-image-zoom-hover/ripe-image-zoom-hover.js:159-175 | nothing when not hovering; otherwise only the pivot moves, or the hover ends out of bounds and the applied zoom is 100; the invariant is kept |
| HoverZoom.HoverZoom.EndHover | react/components/organisms/ripe-image-zoom-hover/ripe-image-zoom-hover.js:177-183 | no hover, no pivot, the configured zoom, and an applied zoom of 100 |
| HoverZoom.HoverZoom.ZoomScroll | react/components/organisms/ripe-image-zoom-hover/ripe-image-zoom-hover.js:185-191 | nothing unless hovering with scroll zoom; otherwise zoom and applied zoom become minus sensitivity times delta from before, unclamped, and with a positive sensitivity the applied zoom grows exactly for a negative delta; hover and pivot unchanged |
| Configurator.InitialView | react/components/organisms/ripe-configurator/ripe-configurator.js:111 | `null` exactly for a falsy frame and defined exactly for a truthy one (never `undefined`); then the dash-free prefix that is the whole frame or is followed by `-`, that is segment 0 of the split |
| Configurator.InitialPosition | react/components/organisms/ripe-configurator/ripe-configurator.js:112 | `null` exactly for a falsy frame, `undefined` exactly for a frame without `-`; otherwise the dash-free piece that with the view and a `-` before it starts the frame and ends it or is followed by `-`, that is segment 1 of the split |
| Configurator.ComposeThenParse | react/components/organisms/ripe-configurator/ripe-configurator.js:119-126 | a frame composed from dash-free view and position parses back into them |
| Configurator.ParseThenCompose | react/components/organisms/ripe-configurator/ripe-configurator.js:110-113 | a frame with exactly one `-` is composed back from its parsed view and position |
| Configurator.ComposeFrame | react/components/organisms/ripe-configurator/ripe-configurator.js:120 | `${view}-${position}`; ComposeThenParse and ParseThenCompose relate it to the frame parsing |
| Configurator.Configurator.constructor | react/components/organisms/ripe-configurator/ripe-configurator.js:83-103 | the frame property, loading, no configurator, nothing called |
| Configurator.Configurator.ElementDisplayed | react/components/organisms/ripe-configurator/ripe-configurator.js:145-150 | false without a configurator; ChangeFrameTo gates `onUpdateFrame` on it |
| Configurator.Configurator.Mount | react/components/organisms/ripe-configurator/ripe-configurator.js:105-129 | reports loading, binds the configurator at the frame's view and position, then resizes for a truthy size |
| Configurator.Configurator.OnChangedFrame | react/components/organisms/ripe-configurator/ripe-configurator.js:115-117 | records and reports the frame |
| Configurator.Configurator.OnConfiguratorLoaded | react/components/organisms/ripe-configurator/ripe-configurator.js:119-126 | the frame composed from the bound configurator's view and position, loading over, `onUpdateFrame` then `onLoaded` |
| Configurator.Configurator.ChangeFrameTo | react/components/organisms/ripe-configurator/ripe-configurator.js:195-210 | no call without a ready configurator; otherwise one `changeFrame` and, once it resolved, `onUpdateFrame` exactly when the element is displayed (never without a configurator) |
| Configurator.Configurator.ResizeTo | react/components/organisms/ripe-configurator/ripe-configurator.js:216-219 | a `resize` exactly for a truthy size with a configurator |
| Configurator.Configurator.ComponentDidUpdate | react/components/organisms/ripe-configurator/ripe-configurator.js:131-138 | a resize only for a changed size, then a frame change only for a changed frame |
| Configurator.Configurator.Unmount | react/components/organisms/ripe-configurator/ripe-configurator.js:140-143 | unbinds a bound configurator; the handle is dropped after the unbind resolves and kept when it rejects; nothing else changes |

## Left out

- The `ripe-sdk` engine (`config`, `setParts`, `setInitials`, `getStructure`, `bind`, `bindConfigurator`, `changeFrame`, `resize`, `isReady`): a foreign library. Its calls are recorded in a trace. Its answers are parameters.
- Asynchrony: `setState` callbacks and promises run in program order. Interleavings of concurrent handlers are not modelled.
- `global.ripe` is a boolean input of the configure decision and a boolean output of `SetupRipe`. The engine object it holds is not modelled.
- `JSON.parse(JSON.stringify(…))` deep copies are plain value copies.
- The engine's pre- and post-configuration events and its `parts`, `initials` and `initials_extra` events are not wired to the handlers. Each handler is modelled as a method that is called with the event's arguments.
- Logic.Logic.constructor: no component among these files mixes the logic mixin in, so the initial state (nothing cached, not in config mode) is chosen by the model.
- Logic.Logic.UpdateConfigOptionsStructure: the structure property object is edited in place, but the cached `structureData` is held as a value. It may alias the property object if the engine's `getStructure` returns that object; this aliasing is not captured.
- Logic.Logic.UpdateConfigOptionsStructure: the `TypeError` thrown when the previous structure is `null` is modelled as `ok == false` with no engine call.
- Logic.NormalizeCurrency: upper-cases ASCII letters only, where `toUpperCase` also maps other scripts.
- Pickers.Normalize: the `TypeError` of an empty segment (`v[0]` is `undefined`) is modelled as `None`. Upper-casing is ASCII only.
- Pickers.Filtered: the availability levels are sequences in `Object.entries` order. A name repeated at one level keeps its last entry, which is what assigning to an object key does.
- Pickers.Pickers.Mount: `_setupRipe` creating an engine and setting `global.ripe` is not modelled. The mount starts from a ready engine's `choices`.
- Pickers.Pickers.OnSelectPartChange: `event.target.value` is a string; the empty option of the select is the string `""`.
- HoverZoom.HoverZoom.StartHover: the handlers ignore the target they are passed and look up `.ripe-image-zoom-hover` in the document. That element is the `target` parameter.
- HoverZoom.HoverZoom.MoveHover: requires the hover invariant. It holds from the constructor on, because every handler keeps it.
- HoverZoom.HoverZoom.ZoomScroll: requires the hover invariant, for the same reason.
- HoverZoom: JavaScript numbers are `real`s, with no rounding or `NaN`.
- Configurator: its own `_setupRipe` and `_configRipe` are not modelled. Its state takes `ripeData` from `this.ripe`, which nothing assigns, so they always create a fresh engine and configure it from the properties. That is engine plumbing.
- Configurator.Configurator.OnConfiguratorLoaded: requires a bound configurator. The handler is bound on the configurator right after `bindConfigurator` returns it, and the handle's `view` and `position` are what the engine reports when the event fires.
- Configurator.Configurator.ChangeFrameTo: `_elementDisplayed` reads `getComputedStyle`. That is the `displayed` flag of the handle.
- Rendering, styles, the loader, the price, image and image-zoom components, stories and tests are not part of this model.

## Findings

| source | as written | input that shows it | evidently intended | confidence | as-written member | corrected member |
|---|---|---|---|---|---|---|
| react/mixins/logic.js:180-181 | the `parts` handler compares the event with `this.partsData` and tests `this.structureData`, instance properties that nothing assigns (the cache lives in `this.state`) | the engine echoes the component's own `setParts(p)` with a non-null `p`: the event is not dropped, and a component using a structure gets `onUpdateParts` instead of a refreshed structure | compare with `this.state.partsData` and branch on `this.state.structureData`, as the `initials` and `initials_extra` handlers do | not executed | Logic.Logic.OnPartsAsWritten, Logic.PartsEchoDropped | Logic.Logic.OnParts |
