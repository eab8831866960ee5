# BeeShot core, modelled in Dafny

BeeShot is an editor for App Store screenshots. A document holds pages, and each page holds
text, image, shape and group elements. This project models the parts of it that carry logic
rather than presentation, and proves what they promise.

**Editor engine** (`packages/editor`, `packages/core`)
- `History`: the undo/redo stacks with their `maxHistory` cap.
- `Commands`: the add, update and remove commands.
- `Renderers`: the element store they act on. It has two back ends: an in-memory append/delete-by-id store, and the stubbed element operations of the shipped Fabric renderer.
- `EditorCore`: the `Editor` facade.
- `Clipboard`: the clipboard manager, with new ids from `Ids`: a pasted id is used by no element of the renderer's store and by no other clone of the same paste.
- `Events`: the event emitter.
- `Shortcuts`: the keyboard shortcut table and its matching.
- `Elements`: the element factories.
- `Documents`: the background type and its gradient presets.
- `Color`: the colour utilities.

**Renderer** (`packages/renderer`)
- `FabricRenderers`: the document, active-page and viewport state machine, with zoom-to-fit, centring and the export preconditions.
- `SceneObjects`: the Fabric scene objects.
- `ShapeRenderers`, `TextRenderers` and `ImageRenderers`: the element-to-scene-object mappers, each with `create`, `toElement` and `update`.

**Playground** (`apps/playground`, `packages/components`)
- `Playground`: document and page construction, device and template selection, and zoom wiring.
- `Devices`: the device catalogue.
- `Templates`: the template catalogue.
- `ZoomDropdowns`: the zoom dropdown's slider arithmetic.
- `ZoomHook`: the `useZoom` hook.

**Schema slide app** (`src/`)
- `SchemaVariables`: template-variable substitution.
- `SchemaRenderer`: position styles, the z-order sort and the visibility and tag rules.
- `HtmlLayout`: the HTML-template `processHtml`.
- `SlidesApp`: the slide deck and its operations.

**Modelling conventions**
- JavaScript values that the code inspects by key are `map`s of a `JsValues.Value` datatype, so `{...defaults, ...partial}` is map union.
- Objects whose fields the source updates in place are classes whose methods state their whole new state.
- Pure code is functions, with lemmas relating them.
- Floating-point arithmetic is `real`, and `Math.round(x)` is `floor(x + 1/2)`.
- Where `NaN` matters, numbers are the `JsNumbers.Number` datatype.
- Regular expressions are deterministic left-to-right scans with the same matches.
- Id generation, cloning, image decoding, `Date.now`, the preset and pack catalogues of the slide app, and the container size are parameters or oracles.

## Model

| member | source | states |
|---|---|---|
| History.ExecuteBounded | packages/editor/src/history/HistoryManager.ts:18-25 | executing keeps the combined size of both stacks within the cap, and the undo stack never exceeds a non-negative `maxHistory` |
| History.ExecuteDropsOldest | packages/editor/src/history/HistoryManager.ts:20-25 | at the cap, executing `c` drops exactly the oldest command: the undo stack becomes `undo[1..] + [c]` |
| History.UndoRedoBounded | packages/editor/src/history/HistoryManager.ts:31-50 | undo and redo each move one command between the stacks, so the cap invariant is preserved |
| History.UndoRedoEmpty | packages/editor/src/history/HistoryManager.ts:31-45 | undo on an empty undo stack (redo on an empty redo stack) returns false and changes neither stack |
| History.UndoThenRedo | packages/editor/src/history/HistoryManager.ts:31-50 | a successful undo followed by redo restores both stacks exactly |
| History.RedoThenUndo | packages/editor/src/history/HistoryManager.ts:31-50 | a successful redo followed by undo restores both stacks exactly |
| History.BranchDiscarded | packages/editor/src/history/HistoryManager.ts:21-64 | execute A, execute B, undo, execute C leaves an empty redo stack, and redo then returns false without change |
| History.HistoryManager.constructor | packages/editor/src/history/HistoryManager.ts:7-13 | both stacks start empty under the given `maxHistory`, and the cap invariant holds |
| History.HistoryManager.Execute | packages/editor/src/history/HistoryManager.ts:18-26 | the command runs on the renderer, then the stacks become those of the push / clear-redo / shift specification, within the cap |
| History.HistoryManager.Undo | packages/editor/src/history/HistoryManager.ts:31-38 | the returned flag and new stacks follow the pop-and-push specification, and on success the popped command's undo is applied to the renderer |
| History.HistoryManager.Redo | packages/editor/src/history/HistoryManager.ts:43-50 | the mirror of undo: the popped redo command is executed again and pushed on the undo stack |
| History.HistoryManager.CanUndo | packages/editor/src/history/HistoryManager.ts:55-57 | true exactly when `undo()` would succeed |
| History.HistoryManager.CanRedo | packages/editor/src/history/HistoryManager.ts:62-64 | true exactly when `redo()` would succeed |
| History.HistoryManager.Clear | packages/editor/src/history/HistoryManager.ts:69-72 | both stacks are empty afterwards |
| Commands.Execute | packages/editor/src/history/commands.ts:14-54 | add appends the captured element, update merges `newProps` into the element with that id, remove deletes by the element's id; selection untouched |
| Commands.Undo | packages/editor/src/history/commands.ts:18-58 | add's undo removes by the captured element's id, update's undo merges `oldProps`, remove's undo appends the full captured element |
| Commands.AddUndo | packages/editor/src/history/commands.ts:14-20 | add then undo restores the element sequence whenever the id was not already present |
| Commands.UpdateUndo | packages/editor/src/history/commands.ts:34-40 | update then undo restores the element sequence when `oldProps` holds the old value of every key of `newProps` |
| Commands.RemoveUndo | packages/editor/src/history/commands.ts:52-58 | remove then undo restores the same multiset of elements, with the restored element last |
| Renderers.FindById | packages/renderer/src/interface/renderer.ts:24 | `getElement` on the store: None exactly when no element has the id; otherwise an element of the store with that id |
| Renderers.RemoveById | packages/renderer/src/interface/renderer.ts:23 | `removeElement` on the store: no element with the id is left and the store does not grow |
| Renderers.UpdateById | packages/renderer/src/interface/renderer.ts:22 | `updateElement` on the store: every element with the id becomes `element + props`, every other element is unchanged, length kept |
| Renderers.IdsOf | packages/renderer/src/interface/renderer.ts:29 | the ids `selectAll` selects, at most one per element |
| Renderers.IdsOfContents | packages/renderer/src/interface/renderer.ts:29 | every element's id is selected, and every selected id belongs to an element |
| Renderers.IdsOfAppend | packages/renderer/src/interface/renderer.ts:29 | the selected ids keep element order: those of `a + b` are those of `a`, then those of `b` |
| Renderers.IdsOfIdentified | packages/renderer/src/interface/renderer.ts:29 | when every element has an id, the selection is exactly the elements' ids, position by position |
| Renderers.RemoveAbsent | packages/renderer/src/interface/renderer.ts:23 | removing an id no element has leaves the store unchanged |
| Renderers.AddThenRemove | packages/renderer/src/interface/renderer.ts:21-23 | appending an element with a fresh id and removing that id restores the store |
| Renderers.RemoveUnique | packages/renderer/src/interface/renderer.ts:23 | with unique ids, removing an element's id removes exactly that element and keeps the order of the rest |
| Renderers.RemoveThenAdd | packages/renderer/src/interface/renderer.ts:21-23 | with unique ids, removing an element and appending it again keeps the same multiset of elements |
| Renderers.RemoveThenAddReorders | packages/renderer/src/interface/renderer.ts:21-23 | a concrete store `[a, b]` where removing `a` and re-adding it gives `[b, a]`, a different order |
| Renderers.Snapshot | packages/editor/src/Editor.ts:44-50 | the recorded old props hold exactly the keys of `props` the old element has, with the old values |
| Renderers.SnapshotRestores | packages/editor/src/Editor.ts:44-50 | spreading the props and then their snapshot restores the element when every key of the props existed |
| Renderers.SnapshotKeepsNewKeys | packages/editor/src/Editor.ts:44-50 | a key the element lacked keeps its new value after the snapshot is spread back |
| Renderers.UpdateThenRestore | packages/editor/src/history/commands.ts:34-40 | with unique ids, updating an element and then updating it with the snapshot restores the store, when the update keeps the id |
| Renderers.Renderer.constructor | packages/renderer/src/interface/renderer.ts:8-31 | a renderer over the given backend and elements, with an empty selection |
| Renderers.Renderer.GetElement | packages/renderer/src/fabric/FabricRenderer.ts:195-198 | the Fabric stub always answers null; the in-memory store answers None exactly when no element has the id, else an element with that id |
| Renderers.Renderer.GetSelection | packages/renderer/src/fabric/FabricRenderer.ts:214-217 | the Fabric stub answers []; the in-memory store answers the selection |
| Renderers.Renderer.AddElement | packages/renderer/src/fabric/FabricRenderer.ts:183-185 | the in-memory store appends; the Fabric stub changes nothing |
| Renderers.Renderer.RemoveElement | packages/renderer/src/fabric/FabricRenderer.ts:191-193 | the in-memory store removes by id; the Fabric stub changes nothing |
| Renderers.Renderer.UpdateElement | packages/renderer/src/fabric/FabricRenderer.ts:187-189 | the in-memory store merges the props into the element with the id; the Fabric stub changes nothing |
| Renderers.Renderer.Select | packages/renderer/src/fabric/FabricRenderer.ts:206-208 | the in-memory store selects exactly the given ids; the Fabric stub changes nothing |
| Renderers.Renderer.SelectAll | packages/renderer/src/fabric/FabricRenderer.ts:210-212 | the in-memory store selects every element's id; the Fabric stub changes nothing |
| Renderers.Renderer.ClearSelection | packages/renderer/src/fabric/FabricRenderer.ts:219-222 | the in-memory store empties the selection; elements are untouched |
| Renderers.Renderer.Destroy | packages/renderer/src/interface/renderer.ts:12 | the renderer is marked destroyed; elements and selection are kept |
| EditorCore.RemoveUnknownIsNoop | packages/editor/src/Editor.ts:56-58 | removing an id the store does not hold records nothing and changes nothing |
| EditorCore.RemoveEachCount | packages/editor/src/Editor.ts:64-67 | removing a selection of distinct present ids below the cap adds exactly one undo entry per id |
| EditorCore.RemoveKeepsOthers | packages/editor/src/Editor.ts:64-67 | removing one id keeps every element with a different id, so later ids of the selection still resolve |
| EditorCore.Editor.constructor | packages/editor/src/Editor.ts:21-30 | fresh history with cap 50 and empty stacks, empty clipboard on the same renderer, default shortcuts unless `enableShortcuts` is exactly `false` |
| EditorCore.Editor.AddElement | packages/editor/src/Editor.ts:34-37 | always one `AddElementCommand` through the history, which runs it on the renderer |
| EditorCore.Editor.UpdateElement | packages/editor/src/Editor.ts:39-54 | an unresolvable id changes neither history nor store; otherwise the loop records exactly the snapshot of the old values and one update command is executed |
| EditorCore.Editor.RemoveElement | packages/editor/src/Editor.ts:56-62 | no-op for an unknown id, otherwise one `RemoveElementCommand` holding the whole element |
| EditorCore.Editor.RemoveSelectedElements | packages/editor/src/Editor.ts:64-67 | one `removeElement` per selected id, in selection order |
| EditorCore.Editor.Undo | packages/editor/src/Editor.ts:71-73 | the history's undo: the stacks move the top command to the redo stack, the store is that command undone (unchanged when the undo stack is empty), the selection is kept |
| EditorCore.Editor.Redo | packages/editor/src/Editor.ts:75-77 | the history's redo: the top redo command moves back to the undo stack and is executed again on the store (unchanged when there is none), the selection is kept |
| EditorCore.Editor.HandleKey | packages/editor/src/shortcuts/ShortcutManager.ts:19-72 | with the handler attached, the first matching shortcut's action runs on the editor: undo and redo as above, select-all selects every element id, clear empties the selection, delete removes the selection through the history; no match and a custom action change nothing in the model |
| EditorCore.Editor.Copy | packages/editor/src/Editor.ts:89-91 | the clipboard's copy of the renderer's selection |
| EditorCore.Editor.Paste | packages/editor/src/Editor.ts:93-95 | the clipboard's paste with offset 20: the in-memory store gains one shifted clone per clipboard entry, in order, under ids that no element of the renderer's store had and that differ from each other; a store with unique ids keeps them unique; those ids become the selection; the clipboard is unchanged |
| EditorCore.Editor.Cut | packages/editor/src/Editor.ts:97-99 | the clipboard gets the resolvable selected elements (kept when nothing is selected), the selected ids are removed from the store without a history entry, and the selection is kept |
| EditorCore.Editor.Duplicate | packages/editor/src/Editor.ts:101-103 | the clipboard is refreshed from the selection (kept when the selection is empty), then one clone per clipboard element, shifted by 30 under an id no element of the renderer's store had, is added to the store and the clones are selected; a store with unique ids keeps them unique |
| EditorCore.Editor.Destroy | packages/editor/src/Editor.ts:117-120 | the shortcuts' handler is detached, then the renderer is destroyed |
| Clipboard.ResolveAll | packages/editor/src/clipboard/ClipboardManager.ts:23-26 | the copied elements are elements of the store, at most one per selected id |
| Clipboard.ResolveAllComplete | packages/editor/src/clipboard/ClipboardManager.ts:23-26 | when every selected id resolves, the copies are exactly the looked-up elements, in selection order |
| Clipboard.ResolveAllStub | packages/editor/src/clipboard/ClipboardManager.ts:24-25 | ids that resolve to null are dropped, so on the Fabric stub nothing is copied |
| Clipboard.PastedCopy | packages/editor/src/clipboard/ClipboardManager.ts:39-42 | a pasted clone carries the new id |
| Clipboard.PastedCopies | packages/editor/src/clipboard/ClipboardManager.ts:38-46 | the clones of one paste: one per clipboard entry, the `j`th carrying the `j`th generated id |
| Clipboard.PastedCopiesFresh | packages/editor/src/clipboard/ClipboardManager.ts:38-50 | the clones a paste adds carry ids that no element of the renderer's store has and that differ from each other, and the ids it selects are those ids |
| Clipboard.AppendFreshKeepsUnique | packages/editor/src/clipboard/ClipboardManager.ts:43-45 | appending elements whose ids are new to the store and pairwise different keeps the store's ids unique |
| Clipboard.PastedCopyChanges | packages/editor/src/clipboard/ClipboardManager.ts:39-42 | a pasted clone equals its original except for the id and `x`/`y`, which are shifted by the offset |
| Clipboard.IdsOfAll | packages/editor/src/clipboard/ClipboardManager.ts:50 | `pastedElements.map(el => el.id)`: one id per element, each that element's id |
| Clipboard.FreshIds | packages/editor/src/clipboard/ClipboardManager.ts:40 | the ids that successive `generateId()` calls hand out during one paste: the ids of consecutive serials |
| Clipboard.FreshIdsDistinct | packages/editor/src/clipboard/ClipboardManager.ts:40 | no two ids handed out during one paste are equal |
| Clipboard.RemoveEachClears | packages/editor/src/clipboard/ClipboardManager.ts:69-70 | after cut's removals no element with any selected id is left |
| Clipboard.RemoveEachKeepsAbsent | packages/editor/src/clipboard/ClipboardManager.ts:69-70 | removing ids never brings back an absent id |
| Clipboard.ClipboardManager.constructor | packages/editor/src/clipboard/ClipboardManager.ts:9-14 | the clipboard starts empty and `hasContent()` is false |
| Clipboard.ClipboardManager.HasContent | packages/editor/src/clipboard/ClipboardManager.ts:76-78 | true exactly when the clipboard is non-empty |
| Clipboard.ClipboardManager.Copy | packages/editor/src/clipboard/ClipboardManager.ts:19-27 | an empty selection leaves the clipboard untouched; otherwise it holds the resolvable selected elements in selection order |
| Clipboard.ClipboardManager.Paste | packages/editor/src/clipboard/ClipboardManager.ts:33-54 | one clone per clipboard element, in order, each with a shifted position and an id that no element of the renderer's store had and no other clone shares; the in-memory store gains exactly those clones, so a store with unique ids keeps them unique; the selection becomes their ids when any were pasted; the clipboard is unchanged |
| Clipboard.ClipboardManager.Duplicate | packages/editor/src/clipboard/ClipboardManager.ts:59-62 | copy, then paste with offset 30: the clipboard is refreshed from the selection, the store gains the shifted clones under ids new to the renderer's store and to each other, unique ids stay unique, and the clones become the selection |
| Clipboard.ClipboardManager.Cut | packages/editor/src/clipboard/ClipboardManager.ts:67-71 | copy, then each selected id is removed directly on the renderer, bypassing the history |
| Clipboard.ClipboardManager.Clear | packages/editor/src/clipboard/ClipboardManager.ts:83-85 | the clipboard is empty and `hasContent()` false |
| Ids.IdAtInjective | packages/core/src/utils/id.ts:4-8 | ids handed out at different counters differ |
| Ids.IdSource.Generate | packages/core/src/utils/id.ts:4-8 | the id handed out is none of the ids it is told to avoid (a paste passes the renderer store's ids), and the counter moves past it, so successive ids differ |
| Ids.SerialBoundOfId | packages/core/src/utils/id.ts:4-8 | an id `el_<n>` reads back as serial `n` |
| Ids.AboveBounds | packages/core/src/utils/id.ts:4-8 | no id in use names a serial at or past the bound |
| Ids.NextFree | packages/core/src/utils/id.ts:4-8 | the next serial is at least the counter and past every serial in use |
| Ids.NextFreeIsFree | packages/core/src/utils/id.ts:4-8 | the id of the next serial, and of every later one, is none of the ids to avoid |
| Events.Add | packages/core/src/events/emitter.ts:16 | `set.add(h)`: the result holds exactly the old handlers and `h`, and stays duplicate-free; a present handler leaves the set as it was, and a new one goes last |
| Events.Without | packages/core/src/events/emitter.ts:26 | `set.delete(h)`: the result holds exactly the old handlers other than `h`, duplicate-free |
| Events.DropOnce | packages/core/src/events/emitter.ts:45-51 | after an emit every `once` wrapper has removed itself and every plain handler remains |
| Events.Called | packages/core/src/events/emitter.ts:33-35 | the calls an emit makes: one per registered handler, in insertion order |
| Events.WithoutAppend | packages/core/src/events/emitter.ts:26 | deleting distributes over concatenation of handler lists |
| Events.WithoutAbsent | packages/core/src/events/emitter.ts:25-27 | deleting a handler that is not registered changes nothing |
| Events.OnTwice | packages/core/src/events/emitter.ts:12-16 | registering the same handler twice leaves a single registration |
| Events.OnThenOff | packages/core/src/events/emitter.ts:12-27 | subscribing a new handler and then unsubscribing it restores the set and its order |
| Events.WithoutMiddle | packages/core/src/events/emitter.ts:25-27 | removing one handler leaves the other handlers intact and in order |
| Events.EmitStart | packages/core/src/events/emitter.ts:32-33 | before any handler runs nothing is called or logged and the set is unchanged |
| Events.EmitEnd | packages/core/src/events/emitter.ts:32-40 | after the last handler the set is the old set without its `once` wrappers |
| Events.EmitStep | packages/core/src/events/emitter.ts:33-48 | running handler `i` records its call, logs it if it throws, and a `once` wrapper deletes only itself |
| Events.EventEmitter.constructor | packages/core/src/events/emitter.ts:7 | the emitter starts with no registrations |
| Events.EventEmitter.On | packages/core/src/events/emitter.ts:12-20 | the handler is added to the event's set (created if missing); the result unsubscribes exactly that handler from that event |
| Events.EventEmitter.Off | packages/core/src/events/emitter.ts:25-27 | no-op for an unknown event; otherwise only that handler leaves the event's set |
| Events.EventEmitter.RunUnsubscribe | packages/core/src/events/emitter.ts:19 | calling the function `on` returned behaves exactly as `off(event, handler)` |
| Events.EventEmitter.Emit | packages/core/src/events/emitter.ts:32-40 | every handler registered at the start is called once, in insertion order; throwing handlers are logged and the rest still run; `once` wrappers are gone afterwards; an unknown event does nothing |
| Events.EventEmitter.Once | packages/core/src/events/emitter.ts:45-51 | a new wrapper is appended to the event's set and the result unsubscribes that wrapper |
| Events.EventEmitter.Clear | packages/core/src/events/emitter.ts:56-58 | every registration of every event is removed |
| Shortcuts.FirstMatch | packages/editor/src/shortcuts/ShortcutManager.ts:63-74 | the index of a matching shortcut with no matching shortcut before it, or None when none matches |
| Shortcuts.Dispatch | packages/editor/src/shortcuts/ShortcutManager.ts:56-75 | events aimed at INPUT or TEXTAREA trigger nothing; any other event that some shortcut matches triggers an action; the action returned belongs to the first shortcut that matches |
| Shortcuts.EarlierWins | packages/editor/src/shortcuts/ShortcutManager.ts:49-74 | appending shortcuts never changes the action of an event an earlier shortcut already matches |
| Shortcuts.DefaultBindings | packages/editor/src/shortcuts/ShortcutManager.ts:31-67 | with the defaults, Ctrl+Z is undo, Cmd+Shift+Z (upper-case key) and Ctrl+Y are redo, and a key typed into an INPUT does nothing |
| Shortcuts.CtrlDeleteMatches | packages/editor/src/shortcuts/ShortcutManager.ts:64 | Ctrl+Delete without Meta still matches the ctrl-less Delete shortcut, because Meta agrees with its flag |
| Shortcuts.ShortcutManager.constructor | packages/editor/src/shortcuts/ShortcutManager.ts:16-26 | no shortcuts, and the handler is attached exactly when a window exists |
| Shortcuts.ShortcutManager.Register | packages/editor/src/shortcuts/ShortcutManager.ts:49-51 | the shortcut is appended at the end |
| Shortcuts.ShortcutManager.RegisterDefaults | packages/editor/src/shortcuts/ShortcutManager.ts:31-44 | the seven default shortcuts are appended in their fixed order |
| Shortcuts.ShortcutManager.HandleKeyDown | packages/editor/src/shortcuts/ShortcutManager.ts:56-75 | the loop returns the action of the first matching shortcut (the dispatch specification), and `preventDefault` is called exactly when one matched |
| Shortcuts.ShortcutManager.Destroy | packages/editor/src/shortcuts/ShortcutManager.ts:80-84 | the handler is detached when a window exists; the shortcuts are kept |
| Elements.SpreadProps | packages/core/src/schema/elements/text.ts:46-68 | `{...defaults, ...partial}`: the key set is the union, every key of `partial` wins, every other default stays |
| Elements.CreateTextElement | packages/core/src/schema/elements/text.ts:43-69 | every field of `partial` wins (including `type`), the id is `partial.id`, and each absent field takes its listed text default |
| Elements.CreateImageElement | packages/core/src/schema/elements/image.ts:48-68 | id and src come from `partial`, absent fields take the image defaults (300×200, 'cover', radius 0), and shadow and filters are present only when supplied |
| Elements.CreateShapeElement | packages/core/src/schema/elements/shape.ts:43-65 | every field of `partial` wins, the id is `partial.id`, and absent fields take the shape defaults (100×100 rect, solid '#3b82f6', width-0 '#000000' stroke, radius 0) |
| Elements.CreateGroupElement | packages/core/src/schema/elements/group.ts:14-32 | id and children come from `partial`, every other field of `partial` wins, absent fields take the group defaults (0×0, '分组') |
| Elements.GroupOfElements | packages/core/src/schema/elements/group.ts:6-32 | a group built from element trees is itself an element tree |
| Elements.NestedGroup | packages/core/src/schema/elements/group.ts:6-9 | groups nest: a group whose child is a group is an element tree |
| Color.HexBody | packages/core/src/utils/color.ts:5-6 | the six digits the hex pattern captures; a match exists exactly for six hex digits with an optional leading '#' (3-digit forms rejected), in either case |
| Color.PairValue | packages/core/src/utils/color.ts:8-10 | `parseInt(pair, 16)` of two hex digits lies in [0, 255] |
| Color.ParseHex | packages/core/src/utils/color.ts:5-38 | three components exactly when the pattern matches, each in [0, 255] |
| Color.HexToRgba | packages/core/src/utils/color.ts:4-13 | a non-matching input comes back unchanged; a match yields `rgba(r, g, b, alpha)` with each component in [0, 255] |
| Color.DigitsFrom | packages/core/src/utils/color.ts:19 | greedy `\d+`: the maximal run of digits at a position |
| Color.SpacesFrom | packages/core/src/utils/color.ts:19 | greedy `\s*`: the maximal run of white space at a position |
| Color.MatchNumberComma | packages/core/src/utils/color.ts:19 | `(\d+),\s*` captures a non-empty digit string and moves past the comma |
| Color.MatchNumber | packages/core/src/utils/color.ts:19 | the last `(\d+)` captures a non-empty digit string |
| Color.MatchTriple | packages/core/src/utils/color.ts:19 | the three captures of `(\d+),\s*(\d+),\s*(\d+)` are digit strings |
| Color.MatchRgbAt | packages/core/src/utils/color.ts:19 | `rgba?\(` followed by the triple at one position yields three digit strings |
| Color.FindRgb | packages/core/src/utils/color.ts:19-20 | `match` without `g`: the leftmost position where the pattern matches, with no match before it |
| Color.RgbaToHexNoMatch | packages/core/src/utils/color.ts:19-20 | without any `rgb(`/`rgba(` triple the input comes back unchanged |
| Color.RgbaToHexReadsBack | packages/core/src/utils/color.ts:22-26 | components up to 255 come out as hex pairs that the pattern and `parseInt(…, 16)` of `hexToRgba` read back as the captured decimal numbers |
| Color.ParseHexPairs | packages/core/src/utils/color.ts:5-10 | three bytes written after '#' as two hex digits each parse back to those bytes |
| Color.RgbaToHexShape | packages/core/src/utils/color.ts:22-26 | components up to 255 give exactly 7 characters: '#' and six lower-case hex digits |
| Color.RgbaToHexOfRgbaText | packages/core/src/utils/color.ts:12-26 | `rgbaToHex` reads back the three components that `hexToRgba` wrote, whatever the alpha text |
| Color.PairRoundTrip | packages/core/src/utils/color.ts:8-24 | a parsed hex pair re-rendered by `rgbaToHex` is the same pair in lower case |
| Color.BodyRoundTrip | packages/core/src/utils/color.ts:8-26 | the three components of six hex digits, re-rendered, give '#' and the digits in lower case |
| Color.HexRoundTrip | packages/core/src/utils/color.ts:4-27 | for every valid hex colour and any alpha, `rgbaToHex(hexToRgba(h))` is '#' plus the six digits of `h` in lower case |
| Color.IsDarkColorSpec | packages/core/src/utils/color.ts:32-43 | false for input the pattern rejects; otherwise true exactly when `299r + 587g + 114b < 128000` |
| Documents.FindPage | packages/renderer/src/fabric/FabricRenderer.ts:112-114 | `pages.find(p => p.id === id)`: a page is found exactly when some page has the id, and the found page has it |
| Documents.FindPageFirst | packages/renderer/src/fabric/FabricRenderer.ts:112-114 | when several pages share the id, the first one is found |
| Documents.AscendingStopsInRange | packages/core/src/schema/background.ts:28-31 | stops ascending from offset 0 to offset 1 keep every offset inside [0, 1] |
| Documents.GradientPresetsWellFormed | packages/core/src/schema/background.ts:45-91 | exactly four presets, each linear at 135 degrees with at least two strictly ascending stops from 0 to 1, so every offset lies in [0, 1] |
| FabricRenderers.BackgroundFill | packages/renderer/src/fabric/FabricRenderer.ts:145-178 | a solid background fills with its colour, or '#ffffff' when the colour is missing or empty; a gradient background with a gradient config gives a gradient fill with its stops, and nothing else does; every other background is '#ffffff' |
| FabricRenderers.FitZoomFits | packages/renderer/src/fabric/FabricRenderer.ts:245-249 | the fit zoom is at most 1, the scaled page fits inside the container less 60 on each side, and one of the three bounds is met exactly |
| FabricRenderers.CenteredMargins | packages/renderer/src/fabric/FabricRenderer.ts:266-270 | the centring offset leaves equal margins on both sides of the scaled page |
| FabricRenderers.OrOne | packages/renderer/src/fabric/FabricRenderer.ts:306-307 | `x \|\| 1`: the value when it is present and nonzero, else 1 |
| FabricRenderers.DataUrlRequestFor | packages/renderer/src/fabric/FabricRenderer.ts:300-309 | an error exactly when unmounted; otherwise 'jpeg' exactly for 'jpg' and 'png' for every other format, with falsy quality and scale replaced by 1 |
| FabricRenderers.Canvas.constructor | packages/renderer/src/fabric/FabricRenderer.ts:30-37 | a fresh canvas of the given size has the identity viewport transform and no objects |
| FabricRenderers.FabricRenderer.constructor | packages/renderer/src/fabric/FabricRenderer.ts:11-17 | no canvas, container, document or active page; page size 0 by 0 |
| FabricRenderers.FabricRenderer.Mount | packages/renderer/src/fabric/FabricRenderer.ts:21-41 | records the container and creates a canvas of its size, 800 by 600 where a dimension is 0 |
| FabricRenderers.FabricRenderer.Unmount | packages/renderer/src/fabric/FabricRenderer.ts:59-64 | a mounted canvas is disposed and dropped; the document and page state are kept |
| FabricRenderers.FabricRenderer.Destroy | packages/renderer/src/fabric/FabricRenderer.ts:66-69 | unmounts (the old canvas is disposed), then removes every event subscription; the container, document, active page, page size and emitted zooms are kept |
| FabricRenderers.FabricRenderer.GetActivePage | packages/renderer/src/fabric/FabricRenderer.ts:112-114 | the document's page whose id is the active id, else null when there is no document, no active id or no such page |
| FabricRenderers.FabricRenderer.GetAllElements | packages/renderer/src/fabric/FabricRenderer.ts:200-202 | the active page's elements, or an empty list without one |
| FabricRenderers.FabricRenderer.SetActivePage | packages/renderer/src/fabric/FabricRenderer.ts:102-143 | a no-op for an unknown id or while unmounted (id, page size and canvas objects kept); otherwise the id and that page's width and height are recorded and the canvas holds only its background rectangle |
| FabricRenderers.FabricRenderer.LoadDocument | packages/renderer/src/fabric/FabricRenderer.ts:91-96 | the document is stored, and its first page is activated only when `pages` is non-empty (and a canvas is mounted): its id and size are recorded and the canvas holds its rectangle; otherwise the active id, page size and canvas objects are kept; the container and emitted zooms are always kept |
| FabricRenderers.FabricRenderer.GetZoom | packages/renderer/src/fabric/FabricRenderer.ts:237-239 | the canvas zoom, or 1 when unmounted or when the zoom is 0 |
| FabricRenderers.FabricRenderer.CenterContent | packages/renderer/src/fabric/FabricRenderer.ts:260-278 | sets only the translation entries to `((cw - pw*z)/2, (ch - ph*z)/2)` and leaves the other transform entries alone |
| FabricRenderers.FabricRenderer.ApplyZoom | packages/renderer/src/fabric/FabricRenderer.ts:232-251 | the zoom is written on the transform's diagonal and nothing else changes |
| FabricRenderers.AfterZoomEmit | packages/core/src/events/emitter.ts:32-51 | after one `zoom:changed` emit, that event keeps exactly its handlers that are not `once` wrappers, and every other event keeps its handlers |
| FabricRenderers.FabricRenderer.EmitZoomChanged | packages/renderer/src/fabric/FabricRenderer.ts:234-253 | one `zoom:changed` event with the zoom is emitted and recorded; the subscriptions left are `AfterZoomEmit` of the old ones, and the rest of the renderer is kept |
| FabricRenderers.FabricRenderer.SetZoom | packages/renderer/src/fabric/FabricRenderer.ts:226-235 | a no-op while unmounted (no event, subscriptions kept); the document and active page are always kept; otherwise the zoom is applied, the page centred, and `zoom:changed` emitted with the requested value |
| FabricRenderers.FabricRenderer.ZoomToFit | packages/renderer/src/fabric/FabricRenderer.ts:241-254 | a no-op while unmounted or when a page dimension is 0 (no event, transform and subscriptions kept); the document and active page are always kept; otherwise zoom = min((cw-120)/pw, (ch-120)/ph, 1) ≤ 1 is applied, the page centred, and that zoom emitted |
| FabricRenderers.FabricRenderer.ToDataUrl | packages/renderer/src/fabric/FabricRenderer.ts:300-309 | throws when unmounted; otherwise the canvas request the export-options specification gives |
| SceneObjects.LocksFor | packages/renderer/src/fabric/renderers/ShapeRenderer.ts:25-30 | the five lock flags equal `locked` and `hasControls` is its negation |
| SceneObjects.ShadowOf | packages/renderer/src/fabric/renderers/TextRenderer.ts:41-46 | a Fabric shadow holds exactly the element shadow's colour, offsets and blur |
| SceneObjects.DataFor | packages/renderer/src/fabric/renderers/ShapeRenderer.ts:84 | the object's `data.elementId` is the element's id |
| SceneObjects.Supplied | packages/renderer/src/fabric/renderers/ShapeRenderer.ts:137-143 | an `update` replaces a property exactly when `props` supplies it (not `undefined`), else keeps the current value |
| SceneObjects.SceneObject.SetLocks | packages/renderer/src/fabric/renderers/ShapeRenderer.ts:144-152 | the six lock properties are set from `locked`, nothing else changes |
| SceneObjects.SceneObject.SetVisibility | packages/renderer/src/fabric/renderers/ShapeRenderer.ts:142-143 | opacity and visibility are replaced when supplied, nothing else changes |
| ShapeRenderers.DashArray | packages/renderer/src/fabric/renderers/ShapeRenderer.ts:92-101 | 'dashed' gives [10, 5], 'dotted' gives [2, 4], any other style undefined |
| ShapeRenderers.FillColor | packages/renderer/src/fabric/renderers/ShapeRenderer.ts:31 | a solid fill gives its colour, any other fill 'transparent' |
| ShapeRenderers.PaintFor | packages/renderer/src/fabric/renderers/ShapeRenderer.ts:31-34 | fill colour, stroke colour and stroke width come from the element's fill and stroke |
| ShapeRenderers.CommonProps | packages/renderer/src/fabric/renderers/ShapeRenderer.ts:14-35 | position, angle, scale, opacity and visibility copied from the element, always selectable and evented, the locks from `locked`, no size and no outline |
| ShapeRenderers.KindFor | packages/renderer/src/fabric/renderers/ShapeRenderer.ts:37-76 | 'circle', 'triangle' and 'line' give their classes, every other shape type (including unknown ones) a rect |
| ShapeRenderers.ConstructedProps | packages/renderer/src/fabric/renderers/ShapeRenderer.ts:37-76 | the common props, with the fill dropped exactly for a line |
| ShapeRenderers.Create | packages/renderer/src/fabric/renderers/ShapeRenderer.ts:11-87 | a fresh object of the class for the shape type, with the constructed props and `data.elementId` set |
| ShapeRenderers.CreatedGeometry | packages/renderer/src/fabric/renderers/ShapeRenderer.ts:38-75 | a circle's radius is half the smaller side and it has no width; a rect's corner radii are `borderRadius ?? 0`; an unknown type is a rect of the element's size with no corner radius |
| ShapeRenderers.CreatedCircle | packages/renderer/src/fabric/renderers/ShapeRenderer.ts:48-53 | a circle gets radius min(width, height)/2 and the element's position, angle and scale |
| ShapeRenderers.ToElement | packages/renderer/src/fabric/renderers/ShapeRenderer.ts:106-131 | the existing element with position, angle and scale replaced, and width and height written for rects, triangles and circles only; every other key kept |
| ShapeRenderers.ToElementBakesScale | packages/renderer/src/fabric/renderers/ShapeRenderer.ts:117-121 | a rect or triangle reads back as width·scaleX by height·scaleY, with both scales 1 |
| ShapeRenderers.ToElementLine | packages/renderer/src/fabric/renderers/ShapeRenderer.ts:107-114 | a line reads back with the element's own size and the object's position, angle and scale |
| ShapeRenderers.ToElementCircle | packages/renderer/src/fabric/renderers/ShapeRenderer.ts:122-127 | a circle reads back as radius·2 times each scale, scales 1, position and angle from the object (`??` the element) |
| ShapeRenderers.CircleRoundTrip | packages/renderer/src/fabric/renderers/ShapeRenderer.ts:11-131 | creating a circle and reading it back gives sides min(width, height)·scale, scales 1, and the same position and rotation |
| ShapeRenderers.UpdateWritesOnlySupplied | packages/renderer/src/fabric/renderers/ShapeRenderer.ts:136-175 | `update` changes a property only when supplied; size and corner radius only on a rect; a supplied `locked` sets all lock flags; fill and stroke only when truthy; circle and line geometry, text and id never change |
| ShapeRenderers.Move | packages/renderer/src/fabric/renderers/ShapeRenderer.ts:137-141 | position, angle and scale are replaced exactly where supplied |
| ShapeRenderers.Repaint | packages/renderer/src/fabric/renderers/ShapeRenderer.ts:154-162 | a truthy fill replaces the fill colour; a truthy stroke replaces colour, width and dash array |
| ShapeRenderers.Reshape | packages/renderer/src/fabric/renderers/ShapeRenderer.ts:164-174 | width, height and corner radius are written only on a rect and only when supplied |
| ShapeRenderers.Update | packages/renderer/src/fabric/renderers/ShapeRenderer.ts:136-175 | the object's new props are the update specification applied to the old ones |
| SceneObjects.Shaded | packages/renderer/src/fabric/renderers/TextRenderer.ts:107-114 | a truthy shadow replaces the object's shadow; a falsy one leaves the display untouched (a shadow is never cleared) (on update; `create` applies the same rule at lines 40-47) |
| SceneObjects.SceneObject.SetShadow | packages/renderer/src/fabric/renderers/TextRenderer.ts:107-114 | the shadow is replaced exactly when the supplied one is truthy, nothing else changes |
| TextRenderers.CharSpacing | packages/renderer/src/fabric/renderers/TextRenderer.ts:105 | Fabric's `charSpacing` is ten times the element's numeric `letterSpacing` (on update; `create` converts the same way at line 22) |
| TextRenderers.Create | packages/renderer/src/fabric/renderers/TextRenderer.ts:11-53 | a fresh IText object holding the created props (constructor options, shadow, `data`) |
| TextRenderers.CreatedText | packages/renderer/src/fabric/renderers/TextRenderer.ts:11-53 | colour is stored as fill, alignment as textAlign, letterSpacing·10 as charSpacing, the id in `data`; a shadow exactly when the element has a truthy one; locks follow `locked`; no height is set |
| TextRenderers.ToElement | packages/renderer/src/fabric/renderers/TextRenderer.ts:58-75 | the existing element with each of the thirteen read-back properties replaced by the object's value `??` the element's; every other key kept |
| TextRenderers.CreatedReadBack | packages/renderer/src/fabric/renderers/TextRenderer.ts:12-75 | each read-back property of a created object is the element's own value, except height, which is unset |
| TextRenderers.TextRoundTrip | packages/renderer/src/fabric/renderers/TextRenderer.ts:11-75 | reading back a freshly created object gives the element again, key by key |
| TextRenderers.UpdateWritesOnlySupplied | packages/renderer/src/fabric/renderers/TextRenderer.ts:80-115 | `update` never writes height, id or outline; letterSpacing lands as ten times the charSpacing; colour replaces the fill exactly when supplied; a shadow is replaced when truthy and never cleared |
| TextRenderers.UpdateNothing | packages/renderer/src/fabric/renderers/TextRenderer.ts:80-115 | an update with no props changes nothing |
| TextRenderers.UpdateThenRead | packages/renderer/src/fabric/renderers/TextRenderer.ts:58-115 | a supplied non-nullish position, content or colour is what `toElement` reads back after the update |
| TextRenderers.Place | packages/renderer/src/fabric/renderers/TextRenderer.ts:81-86 | position, width, angle and scale are replaced exactly where supplied |
| TextRenderers.Retype | packages/renderer/src/fabric/renderers/TextRenderer.ts:98-101 | content and font properties are replaced exactly where supplied |
| TextRenderers.Restyle | packages/renderer/src/fabric/renderers/TextRenderer.ts:102-105 | colour, alignment, line height and letter spacing are replaced exactly where supplied, letter spacing scaled by ten |
| TextRenderers.Update | packages/renderer/src/fabric/renderers/TextRenderer.ts:80-115 | the object's new props are the update specification applied to the old ones |
| ImageRenderers.RoundedClip | packages/renderer/src/fabric/renderers/ImageRenderer.ts:63-73 | the clip is a rect of the element's width and height with both corner radii equal to the border radius |
| ImageRenderers.Create | packages/renderer/src/fabric/renderers/ImageRenderer.ts:11-58 | a fresh image object, decoded to the given size, holding the created props |
| ImageRenderers.CreatedImage | packages/renderer/src/fabric/renderers/ImageRenderer.ts:16-55 | the decoded size is kept, scaleX = element.scaleX · (width / (decoded width \|\| 1)) and likewise vertically, a clip exactly for a positive border radius, locks from `locked`, the id in `data` |
| ImageRenderers.ToElement | packages/renderer/src/fabric/renderers/ImageRenderer.ts:78-92 | the existing element with position and angle from the object (`??` the element), size from the scaled decoded size, both scales 1; every other key kept |
| ImageRenderers.ToElementSize | packages/renderer/src/fabric/renderers/ImageRenderer.ts:79-87 | the reported size is (decoded size \|\| 1) times the scale |
| ImageRenderers.ImageRoundTrip | packages/renderer/src/fabric/renderers/ImageRenderer.ts:11-92 | creating an image and reading it back gives the element's size times its scale, scales 1, whatever size the image decoded to |
| ImageRenderers.UpdateIgnores | packages/renderer/src/fabric/renderers/ImageRenderer.ts:97-133 | `update` never writes the decoded size, the clip or the id, ignores the scaleX, scaleY, borderRadius, src and fit props, and a supplied `locked` sets every lock flag |
| ImageRenderers.UpdateThenReadWidth | packages/renderer/src/fabric/renderers/ImageRenderer.ts:79-119 | a numeric width given to `update` is the width `toElement` reads back |
| ImageRenderers.UpdateThenReadHeight | packages/renderer/src/fabric/renderers/ImageRenderer.ts:80-121 | a numeric height given to `update` is the height `toElement` reads back |
| ImageRenderers.Move | packages/renderer/src/fabric/renderers/ImageRenderer.ts:98-100 | position and angle are replaced exactly where supplied |
| ImageRenderers.Resize | packages/renderer/src/fabric/renderers/ImageRenderer.ts:113-123 | a supplied width or height sets the scale to that size over the decoded size (`\|\| 1`) |
| ImageRenderers.Update | packages/renderer/src/fabric/renderers/ImageRenderer.ts:97-133 | the object's new props are the update specification applied to the old ones |
| Devices.GetDeviceById | apps/playground/src/config/devices.ts:109-111 | a preset is found exactly when one has that id, and it is a catalogue entry with that id |
| Devices.GetDevicesByCategory | apps/playground/src/config/devices.ts:113-115 | every preset returned is a catalogue entry of that category, and every catalogue entry of that category is returned |
| Devices.DevicePresetsPortrait | apps/playground/src/config/devices.ts:13-107 | the catalogue has eleven presets, each with 0 < width < height |
| Devices.DeviceIdsUnique | apps/playground/src/config/devices.ts:13-107 | preset ids are pairwise distinct |
| Devices.GetDeviceByIdFinds | apps/playground/src/config/devices.ts:109-111 | looking up any preset's id returns that very preset |
| Devices.DevicesOfCategory | apps/playground/src/config/devices.ts:113-115 | filtering by category gives exactly the five iPhones, the three iPads, the three Android devices, or nothing for 'custom', in catalogue order |
| Templates.OrFallbacks | apps/playground/src/config/templates.ts:28-43 | the `options.k \|\| d` properties cover exactly the fallback keys |
| Templates.OrFallbacksSpread | apps/playground/src/config/templates.ts:28-44 | spreading `options` over the `\|\|` fallbacks equals spreading it over the plain fallbacks: a property `options` has always wins |
| Templates.TemplateTextSpread | apps/playground/src/config/templates.ts:17-45 | a template text is its fixed properties, then the fallbacks, then `options`; its name is the first 20 characters of the content unless `options` overrides it |
| Templates.TemplateShapeDefaults | apps/playground/src/config/templates.ts:48-74 | a template shape keeps every option given; otherwise it is named after its shape type, has a solid white fill, a transparent stroke of width 0, and a border radius key that is present but undefined |
| Templates.InstantiateAll | apps/playground/src/config/templates.ts:97-127 | one element per factory call, in order, the i-th taking the i-th generated id |
| Templates.InstantiateId | apps/playground/src/config/templates.ts:23-56 | each element carries its generated id unless its options set one |
| Templates.CreateDocumentShape | apps/playground/src/config/templates.ts:84-131 | a template document has one 1290×2796 page named '第 1 页' with the template's background, one element per factory call, no assets, both timestamps equal to now (the model reads the clock once, where the source calls `Date.now()` twice), and an id different from its page's |
| Templates.CreateDocumentElements | apps/playground/src/config/templates.ts:97-127 | the i-th element of a template document is the i-th factory call made with the (i+2)-th generated id |
| Templates.GeneratedIdsDistinct | apps/playground/src/config/templates.ts:85-92 | ids generated at different serials differ |
| Templates.GetTemplateById | apps/playground/src/config/templates.ts:448-450 | a template is found exactly when one has that id, and it is a catalogue entry with that id |
| Templates.GetTemplatesByCategory | apps/playground/src/config/templates.ts:452-454 | every template returned is a catalogue entry of that category, and every catalogue entry of that category is returned |
| Templates.TemplateIdsUnique | apps/playground/src/config/templates.ts:440-446 | the five template ids are pairwise distinct |
| Templates.GetTemplateByIdFinds | apps/playground/src/config/templates.ts:448-450 | looking up any template's id returns that very template |
| Templates.TemplatesOfCategory | apps/playground/src/config/templates.ts:452-454 | filtering by category gives exactly the templates of that category in list order, and nothing for 'mockup' |
| ZoomDropdowns.DefaultPresetsWithinBounds | packages/components/src/ZoomDropdown/index.tsx:14-23 | every default preset lies within the default bounds 10 and 300, and the list strictly descends |
| ZoomDropdowns.ClampUnit | packages/components/src/ZoomDropdown/index.tsx:72-89 | `max(0, min(1, v))` is NaN exactly for NaN, otherwise a number in [0, 1]; it is v inside [0, 1], 1 above and 0 below |
| ZoomDropdowns.SliderPositionInUnit | packages/components/src/ZoomDropdown/index.tsx:72 | with maxZoom > minZoom the slider position is in [0, 1]: 0 at or below the minimum, 1 at or above the maximum, the linear position in between |
| ZoomDropdowns.SliderPositionDegenerate | packages/components/src/ZoomDropdown/index.tsx:72 | with equal bounds the position is NaN exactly when the zoom equals the bound (0/0) |
| ZoomDropdowns.PositionToZoom | packages/components/src/ZoomDropdown/index.tsx:75-77 | a position in [0, 1] maps to a whole zoom within [minZoom, maxZoom] |
| ZoomDropdowns.PositionToZoomEnds | packages/components/src/ZoomDropdown/index.tsx:75-77 | position 0 maps to minZoom and position 1 to maxZoom |
| ZoomDropdowns.DragZoomInRange | packages/components/src/ZoomDropdown/index.tsx:86-91 | on a track of positive width the zoom a cursor asks for always lies in [minZoom, maxZoom] |
| ZoomDropdowns.DragZoomOutside | packages/components/src/ZoomDropdown/index.tsx:86-91 | a cursor left of the track asks for minZoom, one at or right of its end for maxZoom |
| ZoomDropdowns.CheckedAtMostOnce | packages/components/src/ZoomDropdown/index.tsx:190-202 | of two distinct presets at most one shows the check mark (with the rounding of line 128) |
| ZoomDropdowns.ZoomDropdown.constructor | packages/components/src/ZoomDropdown/index.tsx:16-25 | the menu starts closed with no callback calls made |
| ZoomDropdowns.ZoomDropdown.Toggle | packages/components/src/ZoomDropdown/index.tsx:160 | the trigger flips the menu and calls nothing |
| ZoomDropdowns.ZoomDropdown.SelectPreset | packages/components/src/ZoomDropdown/index.tsx:113-116 | `onZoomChange(value)` is called once and the menu closes |
| ZoomDropdowns.ZoomDropdown.Drag | packages/components/src/ZoomDropdown/index.tsx:80-111 | `onZoomChange` is called once with the cursor's zoom; the menu is unchanged |
| ZoomDropdowns.ZoomDropdown.FitToScreenClicked | packages/components/src/ZoomDropdown/index.tsx:118-121 | `onZoomToFit` is called exactly when given, and the menu closes either way |
| ZoomDropdowns.ZoomDropdown.FillScreenClicked | packages/components/src/ZoomDropdown/index.tsx:123-126 | `onZoomToFill` is called exactly when given, and the menu closes either way |
| ZoomHook.ZoomInTarget | packages/editor/src/react/hooks/useZoom.ts:25-28 | the zoom-in target is zoom·1.2 capped at 5, and never below the current zoom within [0, 5] |
| ZoomHook.ZoomOutTarget | packages/editor/src/react/hooks/useZoom.ts:30-33 | the zoom-out target is zoom/1.2 floored at 0.1, and never above a current zoom of at least 0.1 |
| ZoomHook.ZoomStepsInverse | packages/editor/src/react/hooks/useZoom.ts:25-33 | away from the caps, zooming in then out (or out then in) returns the same zoom |
| ZoomHook.ZoomPercent | packages/editor/src/react/hooks/useZoom.ts:45 | the percentage is zoom·100 rounded to the nearest whole number, halves up |
| ZoomHook.ZoomState.constructor | packages/editor/src/react/hooks/useZoom.ts:9 | the zoom starts at 1 with no editor |
| ZoomHook.ZoomState.Attach | packages/editor/src/react/hooks/useZoom.ts:11-15 | with an editor the zoom is reset to the renderer's zoom |
| ZoomHook.ZoomState.ZoomChanged | packages/editor/src/react/hooks/useZoom.ts:18-20 | a `zoom:changed` payload becomes the zoom |
| ZoomHook.ZoomState.ZoomIn | packages/editor/src/react/hooks/useZoom.ts:25-28 | the renderer is asked for the zoom-in target exactly when there is an editor, and the target is at most 5 |
| ZoomHook.ZoomState.ZoomOut | packages/editor/src/react/hooks/useZoom.ts:30-33 | the renderer is asked for the zoom-out target exactly when there is an editor, and the target is at least 0.1 |
| Playground.DefaultDocumentShape | apps/playground/src/App.tsx:22-42 | the default document has one white, empty 1290×2796 page named '第 1 页', no assets, and an id different from its page's |
| Playground.AddPageAppends | apps/playground/src/App.tsx:90-104 | adding a page keeps every earlier page and document field and appends a white empty page named after the new count, each side like the current page's when that side is nonzero, and 1290 wide or 2796 high when there is no current page or that side is 0 |
| Playground.ResizePage | apps/playground/src/App.tsx:130-135 | the page at the index takes the new size and every other page is unchanged |
| Playground.ResizePageOutOfRange | apps/playground/src/App.tsx:130-135 | an index past the last page resizes nothing |
| Playground.PercentRoundTrip | apps/playground/src/App.tsx:69-87 | a whole percent sent to the renderer as p/100 comes back through `zoom:changed` as p |
| Playground.PlaygroundApp.constructor | apps/playground/src/App.tsx:46-51 | the first render holds the default document, page 0, zoom 50 and the untitled project name, with no editor |
| Playground.PlaygroundApp.Mount | apps/playground/src/App.tsx:57-75 | the editor exists and the renderer is asked to load the document, then to fit; no state changes |
| Playground.PlaygroundApp.ZoomChanged | apps/playground/src/App.tsx:68-70 | the footer zoom becomes round(zoom·100) |
| Playground.PlaygroundApp.ZoomChange | apps/playground/src/App.tsx:84-87 | the footer zoom becomes the value, and the renderer is asked for value/100 exactly when an editor exists |
| Playground.PlaygroundApp.SelectPage | apps/playground/src/App.tsx:229 | only the page index changes |
| Playground.PlaygroundApp.AddPage | apps/playground/src/App.tsx:90-104 | the document gains the new page with a fresh id; the renderer is not told |
| Playground.PlaygroundApp.DeviceSelect | apps/playground/src/App.tsx:125-145 | an unknown device or a missing editor changes nothing; otherwise the current page takes the device's size and the renderer reloads the new document and fits |
| Playground.PlaygroundApp.TemplateSelect | apps/playground/src/App.tsx:107-122 | an unknown template changes nothing; otherwise the template's document replaces the current one, its name becomes the project name, and a mounted renderer reloads and fits; the page index is kept |
| Playground.PlaygroundApp.Load | apps/playground/src/App.tsx:111-121 | the template's document, built from fresh ids, replaces the current one and names the project; a mounted renderer reloads and fits |
| Playground.TemplateSwitchKeepsStaleIndex | apps/playground/src/App.tsx:107-145 | after a template switch a page index of 1 or more points past the template's single page, so the next device selection resizes no page (with the page index state of line 49) |
| SchemaVariables.Text | src/schema/renderer.tsx:33 | a null or undefined value inserts '', a string inserts itself |
| SchemaVariables.Prop | src/schema/renderer.tsx:30 | `value[part]`: an object's own property, a list's element or a string's character at an index key, the `length` of a list or string, undefined otherwise |
| SchemaVariables.NatToStringIndexKey | src/schema/renderer.tsx:30 | a rendered natural number is an index key that reads back as that number |
| SchemaVariables.TagsPath | src/schema/renderer.tsx:24-33 | `{{tags.k}}` reads the k-th tag, `{{tags.length}}` the tag count, `{{tags}}` the comma-joined tags, each '' when the slide has no tags |
| SchemaVariables.Lookup | src/schema/renderer.tsx:25-33 | the callback's loop returns the text of the value the dotted path reaches, '' once it meets null or undefined |
| SchemaVariables.PathValueParts | src/schema/renderer.tsx:28-31 | a one-part path reads the variable, a two-part path the field of a non-nullish variable and undefined otherwise |
| SchemaVariables.TitlePath | src/schema/renderer.tsx:24-33 | `{{title}}` reads the title |
| SchemaVariables.ScreenshotPath | src/schema/renderer.tsx:24-33 | `{{screenshot}}` reads the screenshot, and a null screenshot gives '' |
| SchemaVariables.QrCodePath | src/schema/renderer.tsx:24-33 | `{{qrcode1.url}}` reads the first QR code's URL, '' when there is none |
| SchemaVariables.WordRun | src/schema/renderer.tsx:24 | the length of the maximal leading run of `\w` characters |
| SchemaVariables.Placeholder | src/schema/renderer.tsx:24 | a placeholder match at the start is at least 5 characters long and its captured key is the text between the braces |
| SchemaVariables.ResolveEmpty | src/schema/renderer.tsx:22 | an empty template resolves to '' |
| SchemaVariables.SubstituteBraceFree | src/schema/renderer.tsx:24 | text without `{` in front of a template is copied as is |
| SchemaVariables.ResolveBraceFree | src/schema/renderer.tsx:21-35 | a template without `{` resolves to itself |
| SchemaVariables.PlaceholderWord | src/schema/renderer.tsx:24 | `{{name}}` for a non-empty word is one placeholder whose key is `name` |
| SchemaVariables.PlaceholderOnePart | src/schema/renderer.tsx:24 | braces, a word and closing braces at the start of a template match, capturing the word |
| SchemaVariables.PlaceholderField | src/schema/renderer.tsx:24 | braces, a word, '.', a word and closing braces at the start of a template are one placeholder whose key is `name.field` |
| SchemaVariables.WordRunExact | src/schema/renderer.tsx:24 | `\w+` stops exactly at the first non-word character |
| SchemaVariables.KeySplit | src/schema/renderer.tsx:25 | a word key splits at '.' into itself, a `name.field` key into its two words |
| Strings.SplitFree | src/schema/renderer.tsx:25 | a string without the separator splits into itself alone |
| Strings.SplitFirst | src/schema/renderer.tsx:25 | the text before the first separator is the first piece of a split |
| SchemaVariables.SubstituteMatch | src/schema/renderer.tsx:24-33 | a placeholder at the start is replaced by the lookup of its key split at '.', and the replace goes on after the match |
| SchemaVariables.SubstituteField | src/schema/renderer.tsx:24-33 | a `{{name.field}}` placeholder is replaced by the text of the field of the variable |
| SchemaVariables.ResolveOne | src/schema/renderer.tsx:21-35 | a single placeholder between brace-free text is replaced by its lookup and nothing else changes |
| SchemaVariables.NotAPlaceholder | src/schema/renderer.tsx:24 | braces before something that is not a word (`{{ x }}`) are copied literally |
| SchemaRenderer.DigitRun | src/schema/renderer.tsx:48-50 | the length of the maximal leading run of decimal digits, as `parseFloat` scans it |
| SchemaRenderer.FractionValue | src/schema/renderer.tsx:48-50 | the digits after a decimal point are worth between 0 and 1 |
| SchemaRenderer.ParseFloatNat | src/schema/renderer.tsx:48-50 | a whole number written in decimal parses back to that number whatever non-numeric suffix follows ('50%', '12px') |
| SchemaRenderer.ParseFloatNaN | src/schema/renderer.tsx:48-50 | a string whose first non-blank character cannot start a number parses to NaN |
| SchemaRenderer.ParseValue | src/schema/renderer.tsx:44-51 | `undefined` exactly for an absent value; a number is multiplied by the scale |
| SchemaRenderer.ParseValueString | src/schema/renderer.tsx:47-50 | a string that parses to x gives x percent of the base when it ends in '%', and x times the scale otherwise |
| SchemaRenderer.ParseValuePercent | src/schema/renderer.tsx:47-49 | 'k%' is k hundredths of the base, whatever the scale |
| SchemaRenderer.ParseValueNumeral | src/schema/renderer.tsx:50 | a bare numeral string is scaled like the number it spells |
| SchemaRenderer.Translate | src/schema/renderer.tsx:59-87 | the anchor switch gives no translation exactly for top-left (the default) |
| SchemaRenderer.TranslateIsShift | src/schema/renderer.tsx:62-87 | every anchor translates the element by minus its column (0, 50 or 100 percent) and minus its row |
| SchemaRenderer.TranslateInjective | src/schema/renderer.tsx:62-87 | distinct anchors give distinct translations |
| SchemaRenderer.TransformOf | src/schema/renderer.tsx:59-100 | `transform` is undefined exactly for a top-left anchor without rotation; without rotation it is the anchor's translation; with a nonzero rotation it is that translation followed by a rotate ending in 'deg)' |
| SchemaRenderer.Coordinate | src/schema/renderer.tsx:52-53 | a coordinate is never undefined: 0 when absent, a number times the scale, otherwise what `parseValue` gives |
| SchemaRenderer.GetPositionStyle | src/schema/renderer.tsx:38-102 | left and top are the coordinates of x and y against the scaled device width and height; width and height are undefined exactly when absent; the transform comes from anchor and rotation |
| SchemaRenderer.PositionNaN | src/schema/renderer.tsx:53 | a coordinate that is not a number ('auto') stays NaN, since `?? 0` only replaces undefined |
| SchemaRenderer.Insert | src/schema/renderer.tsx:485-489 | inserting an element adds exactly that element to the multiset |
| SchemaRenderer.SortByZ | src/schema/renderer.tsx:485-489 | the sorted elements are a permutation of the schema's |
| SchemaRenderer.SortByZSorted | src/schema/renderer.tsx:485-489 | the elements come out in ascending `zIndex ?? 0` |
| SchemaRenderer.SortByZStable | src/schema/renderer.tsx:485-489 | elements with equal keys keep their relative order (the sort is stable) |
| SchemaRenderer.SelectTags | src/schema/renderer.tsx:374-379 | exactly ['{{tags}}'] takes the variables' tag list (none when absent); any other list resolves each tag on its own |
| SchemaRenderer.SelectLiteralTags | src/schema/renderer.tsx:374-379 | a literal tag list without braces is shown as written |
| SchemaRenderer.Render | src/schema/renderer.tsx:417-443 | an element draws nothing exactly when it is hidden, of unknown type, a tag group whose tags come out empty, or a QR code whose URL resolves to ''; otherwise it is placed by `getPositionStyle`, non-shape, non-tag elements show their resolved text, shapes and tag groups show no text, and a tag group shows its selected tags; phone frames take the frame size instead of the position style's width and height (with the visibility test at line 381 and the position style of lines 204-210) |
| SchemaRenderer.PhoneFrameStyle | src/schema/renderer.tsx:295-311 | the frame keeps the placement, is as wide as a nonzero position width or else 0.65 of the scaled device width, and 2.17 times as high as wide |
| SchemaRenderer.RenderAll | src/schema/renderer.tsx:494-503 | at most one drawing per element, each of a visible element of the list |
| SchemaRenderer.Drawing | src/schema/renderer.tsx:494-503 | what one element contributes: nothing exactly when it draws nothing, else its one drawing |
| SchemaRenderer.RenderAllAppend | src/schema/renderer.tsx:494-503 | rendering a list is rendering its two halves one after the other |
| SchemaRenderer.RenderAllSingle | src/schema/renderer.tsx:494-503 | a one-element list draws what its element draws |
| SchemaRenderer.RenderAllComplete | src/schema/renderer.tsx:494-503 | every element that draws something has its drawing in the result |
| SchemaRenderer.RenderAllSound | src/schema/renderer.tsx:494-503 | everything in the result is the drawing of some element of the list |
| SchemaRenderer.RenderAllOrder | src/schema/renderer.tsx:494-503 | of two elements that both draw, the earlier one in the list is drawn first |
| SchemaRenderer.RenderSchema | src/schema/renderer.tsx:477-503 | the slide draws exactly the drawings of its elements, and no more of them than the schema has |
| SchemaRenderer.RenderSchemaZOrder | src/schema/renderer.tsx:485-503 | an element with a lower `zIndex ?? 0` is drawn before (underneath) one with a higher key |
| SchemaRenderer.RenderSchemaVisible | src/schema/renderer.tsx:477-503 | only visible schema elements are drawn, and never more than the schema has |
| HtmlLayout.HtmlContent | src/layouts/index.tsx:503 | no HTML code (or '') gives ''; otherwise the code processed as written |
| HtmlLayout.ReplaceAllBraceFree | src/layouts/index.tsx:482-483 | plain text without braces in front of the rest passes through a tag's global replace |
| HtmlLayout.ReplaceAllOtherTag | src/layouts/index.tsx:482-491 | a different tag at the front passes through a tag's global replace |
| HtmlLayout.TagBetween | src/layouts/index.tsx:482-491 | plain text around a different tag is left unchanged by a tag's global replace |
| HtmlLayout.ReplaceAllTag | src/layouts/index.tsx:482-491 | a tag at the front is replaced and the scan resumes after it |
| HtmlLayout.StripBraceFree | src/layouts/index.tsx:490 | plain text in front of the rest passes through the else-block removal |
| HtmlLayout.StripWithoutClose | src/layouts/index.tsx:490 | with no `{{/if}}` anywhere, the else-block removal changes nothing (a lone `{{else}}` stays) |
| HtmlLayout.KeepElseBraceFree | src/layouts/index.tsx:494-497 | plain text in front of the rest passes through the no-screenshot block replacement |
| HtmlLayout.BlockUntouched | src/layouts/index.tsx:482-483 | the title and subtitle replaces leave an if/else block with plain branches alone |
| HtmlLayout.BlockWithoutOpen | src/layouts/index.tsx:488 | deleting the opening tags turns the block into `A{{else}}B{{/if}}` |
| HtmlLayout.NoEndIf | src/layouts/index.tsx:489-490 | once `{{/if}}` is deleted, `A{{else}}B` contains none for the next regex to end a match on |
| HtmlLayout.ScreenshotKeepsElse | src/layouts/index.tsx:486-491 | as written, `{{#if screenshot}}A{{else}}B{{/if}}` with a screenshot comes out as `A{{else}}B` |
| HtmlLayout.StripElseBlock | src/layouts/index.tsx:490 | removing else-parts from `A{{else}}B{{/if}}` leaves A |
| HtmlLayout.ScreenshotShowsIfPart | src/layouts/index.tsx:485-491 | with the else-parts removed before the closing tags, a slide with a screenshot shows only the if-part A |
| HtmlLayout.KeepElseBlock | src/layouts/index.tsx:494-497 | without a screenshot, the lazy block regex replaces a whole block by its else-part B |
| HtmlLayout.NoScreenshotShowsElsePart | src/layouts/index.tsx:492-498 | without a screenshot (or with ''), the block gives its else-part, as written and corrected alike |
| HtmlLayout.TitlesSubstituted | src/layouts/index.tsx:481-483 | every `{{title}}` and `{{subtitle}}` in plain text is replaced by the title and subtitle, as written and corrected alike |
| HtmlLayout.TitleBeforeSubtitle | src/layouts/index.tsx:481-483 | the subtitle replace runs after the title one, so a title reading `{{subtitle}}` shows the subtitle |
| HtmlLayout.ScreenshotTagUntouched | src/layouts/index.tsx:482-489 | the title, subtitle, opening-tag and closing-tag replaces leave `A{{screenshot}}B` alone |
| HtmlLayout.ScreenshotSubstituted | src/layouts/index.tsx:486-491 | with a screenshot, `{{screenshot}}` in plain text becomes the screenshot URL, as written and corrected alike |
| SlidesApp.ApplyVariablesLaws | src/App.tsx:138-144 | merging variables is an override: the empty update changes nothing, applying an update twice equals applying it once, and two updates in a row are one update where the later wins |
| SlidesApp.ApplyBackgroundKeeps | src/App.tsx:158-170 | a background update keeps every field it does not name, and applying it twice equals applying it once |
| SlidesApp.CreateSlidesFromPack | src/App.tsx:39-46 | one slide per pack slide in order, with id now + index, the pack slide's schema and schema id, and the default variables overlaid by the pack slide's own |
| SlidesApp.PackSlideIdsDistinct | src/App.tsx:39-46 | the slides made from a pack have pairwise distinct ids |
| SlidesApp.CreateSlideFromPreset | src/App.tsx:49-57 | a known preset gives its schema and an unknown one falls back to 'single'; the schema id matches the schema, the variables are the defaults, the id is now |
| SlidesApp.RemoveAt | src/App.tsx:133 | deleting an existing index removes exactly that slide and keeps the order of the others; an index past the end removes nothing |
| SlidesApp.RemoveAtMultiset | src/App.tsx:133 | deleting one slide removes exactly that slide from the multiset of slides |
| SlidesApp.WithVariables | src/App.tsx:139-143 | only the slide at the index changes, and only in its variables, which are merged with the update |
| SlidesApp.WithLayout | src/App.tsx:150-154 | only the slide at the index changes: it takes the schema and its id |
| SlidesApp.WithBackground | src/App.tsx:159-169 | only the slide at the index changes, and only in its background, which is merged with the update |
| SlidesApp.WithVariablesKeepsSchemas | src/App.tsx:138-144 | a variables update keeps every slide's id, layout and background |
| SlidesApp.SlideDeck.constructor | src/App.tsx:61-64 | the first render has one 'single' slide, selected, and no pack |
| SlidesApp.SlideDeck.SelectPack | src/App.tsx:110-114 | the pack's slides replace the deck, the first is selected and the pack is remembered; a non-empty pack keeps the deck valid |
| SlidesApp.SlideDeck.ResetToQuickMode | src/App.tsx:117-121 | back to one selected 'single' slide and no pack |
| SlidesApp.SlideDeck.AddSlide | src/App.tsx:124-128 | a new 'single' slide is appended and becomes the selected one |
| SlidesApp.SlideDeck.DeleteSlide | src/App.tsx:131-135 | with at most one slide nothing happens; otherwise the selected slide is removed and the selection moves to the one before it (or stays at 0); a valid deck stays valid |
| SlidesApp.SlideDeck.UpdateVariables | src/App.tsx:138-144 | the update is merged into the selected slide's variables only |
| SlidesApp.SlideDeck.ChangeLayout | src/App.tsx:147-155 | an unknown preset changes nothing; otherwise only the selected slide takes the preset's schema |
| SlidesApp.SlideDeck.UpdateBackground | src/App.tsx:158-170 | the update is merged into the selected slide's background only |
| SlidesApp.SrcAttribute | src/App.tsx:271 | the first `src="` and the first quote after it, with no quote in between |
| SlidesApp.GetProcessedHtml | src/App.tsx:269-272 | without a screenshot (null or ''), or without a `src="…"` attribute, the template is returned unchanged |
| SlidesApp.ProcessedHtmlShowsScreenshot | src/App.tsx:269-272 | with a screenshot URL without quotes, the first `src` of the result is the screenshot, and the text before the attribute and after its closing quote is kept |
| SlidesApp.QuoteFirst | src/App.tsx:271 | the scan for the closing quote finds the first one |
| SlidesApp.CleanTags | src/App.tsx:828 | trimming and dropping empty parts yields at most as many tags, each non-empty and trimmed |
| SlidesApp.ParseTags | src/App.tsx:828 | every tag parsed from the field is non-empty and trimmed |
| SlidesApp.TrimTrimmed | src/App.tsx:828 | trimming is idempotent on what it returns |
| SlidesApp.TrimSpaced | src/App.tsx:826-828 | a clean tag after the space of ', ' trims back to itself |
| SlidesApp.SplitNoSeparator | src/App.tsx:828 | a text without a comma splits into itself alone |
| SlidesApp.SplitAfter | src/App.tsx:828 | splitting at the first comma gives the part before it, then the split of the rest |
| SlidesApp.SplitJoined | src/App.tsx:826-828 | the text of two or more tags splits at the comma after the first |
| SlidesApp.ParseOneTag | src/App.tsx:826-828 | the text of one clean tag parses back to that tag |
| SlidesApp.ParseJoined | src/App.tsx:826-828 | parsing the tags joined by ', ' (after a lead of '' or ' ') gives the tags back |
| SlidesApp.TagsRoundTrip | src/App.tsx:826-828 | the text the field shows for a list of clean tags (non-empty, no comma, no surrounding blanks) parses back to the same list, the empty list included |
| SlidesApp.PreviewScale | src/App.tsx:90-101 | the scale lies in [0.1, 0.4]; above 0.1 the device fits the container less 20 pixels; with room for 0.4 it is 0.4 (with the device sizes of lines 17-23) |

## Left out

- The React components, contexts and selection/history hooks: presentation and wiring, with no logic beyond calls into the editor.
- Theme handling, hover state and the tooltip timer: DOM and `localStorage` side effects.
- The Fabric canvas and its browser environment:
  - drawing;
  - `ResizeObserver` and the window resize listeners;
  - the `setupEventListeners` wiring.
- The renderer keeps only the numeric viewport fields and the state flags.
- The gradient coordinates of `getBackgroundFill` are left out because they need trigonometry. `FabricRenderers.BackgroundFill` keeps the stops, the solid case and the white fallback.
- `FabricRenderers.FabricRenderer.SetZoom`: `zoomToPoint` is modelled as setting the diagonal scale entries, then centring. The exact translation Fabric computes about the centre point is not modelled.
- The pan and layering methods of the Fabric renderer are empty in the source. They are the no-op back end `FabricStub` of `Renderers.Renderer` and get no member of their own.
- Export is left out: `toBlob` (which goes through `fetch`), `toJSON`, and the slide app's html2canvas, JSZip and file-saver flows and file uploads. Only the checks and argument mapping of `toDataURL` are modelled.
- Persistence (IndexedDB) and the API client: I/O.
- The slide layouts' JSX sizing and `getQRCodeUrl`: presentation and `encodeURIComponent`.
- `Ids.IdSource.Generate`: `generateId` uses the clock and randomness, so its ids are new only with overwhelming probability. The model replaces it by a counter that starts past every serial the document uses, so its ids are certainly new. The id prefix is ignored.
- `JsValues.AddNumber`: a string `x` concatenates in JavaScript (`'5' + 20` is '520'). Number-to-string formatting is not modelled, so that case gives NaN here; the clipboard only shifts numeric positions.
- `Templates.CreateDocumentShape`: `createdAt` and `updatedAt` are two `Date.now()` calls in the source and may differ by a millisecond. The model reads the clock once.
- Cloning is left out. `deepClone`, `structuredClone` and `cloneSchema` (a JSON round trip) are value copies in the model.
- Image decoding: the asynchronous `FabricImage.fromURL` is not modelled. The decoded width and height are parameters of `ImageRenderers.Create`.
- `TextRenderers.ToElement`: the height reported is the height the scene object stores. Fabric's own text measurement is not modelled.
- The preset catalogues are parameters: `src/schema/presets.ts`, `src/schema/packs.ts`, and `DEVICE_PRESETS` in `packages/core/src/schema/page.ts`. `Date.now()` ids in the slide app are parameters too.
- `Footer`'s `getBackgroundStyle`: it depends on JavaScript's number-to-string formatting.
- `String.prototype.slice` counts UTF-16 code units. The model counts characters, which is the same for the Basic Multilingual Plane text the templates use.
- `$` patterns in replacement strings (`processHtml`, `getProcessedHtml`): substituted values are assumed to contain no `$`.
- `SchemaRenderer.ParseValue`: `parseFloat` covers leading whitespace and decimal numerals with an optional sign and fraction. Exponents and `Infinity` are not covered: the model reads `1e5` as 1 and `Infinity` as `NaN`.
- `SchemaRenderer.TransformOf`: rotations are written as integer degrees. Number-to-string formatting of fractional degrees is not modelled.
- `SchemaVariables.Text`: variable values are text, lists of text (comma-joined), objects (`[object Object]`) and the natural numbers a `length` gives. Booleans and nested arrays are not modelled as values.
- `SchemaVariables.Prop`: inherited members (such as `toUpperCase` or `map`) read as undefined. In JavaScript they are functions, and their source text would be inserted. A string's characters and `length` count characters, not UTF-16 code units.
- `Strings.Lower`: only ASCII letters are folded, where `toLowerCase` folds every Unicode letter. Shortcut keys and hex digits, its only inputs here, are ASCII.
- `History.HistoryManager.Execute`: a command whose `execute` throws is not modelled. None of the three commands throws in the model; in the source a throw would leave both stacks unchanged and propagate.
- `Color.HexToRgba`: the alpha value is a string parameter, because JavaScript's number-to-string formatting is not modelled.
- `Color.RgbaToHex`: `parseInt` reads a component's digits as an unbounded integer. Past 2^53 the model writes the exact value's hex digits, where JavaScript writes those of the nearest double; such a component is no colour anyway.
- `ZoomDropdowns.ZoomDropdown.constructor`: `minZoom`, `maxZoom` and the presets are whole percentages, where the props are any `number`. Every caller uses the integer defaults 10, 300 and `DEFAULT_PRESETS`.
- `ClipboardManager.paste` is `async` in the source. It is modelled as a sequential loop.
- `BackgroundRenderer` in `src/schema/renderer.tsx`: CSS output only.
- The `zoomToFit` and `setZoom` callbacks of `useZoom` only forward to the renderer. They are covered by `FabricRenderers.FabricRenderer.ZoomToFit` and `SetZoom`.
- The zoom dropdown's outside-click handling and its guard for a missing slider track: DOM state.
- `Events.EventEmitter.On`: handlers of one event form a set, as the `Set` in the code makes them. Registering the same handler twice therefore leaves one registration.
- The playground's "add page" appends the page to the document but does not reload the renderer, as in the code.
- Patches with keys explicitly set to `undefined` are not distinguished from absent keys.

## Findings

| source | as written | input that shows it | evidently intended | confidence | as-written member | corrected member |
|---|---|---|---|---|---|---|
| src/layouts/index.tsx:486-491 | With a screenshot, every `{{/if}}` is deleted before the `{{else}}…{{/if}}` strip runs, so that strip never matches | `{{#if screenshot}}A{{else}}B{{/if}}` with a screenshot gives `A{{else}}B` | `A`: the if-part only | not executed | HtmlLayout.ScreenshotKeepsElse | HtmlLayout.ScreenshotShowsIfPart |
