# Signature capture state of `sain`, modelled in Dafny

`sain` is a Compose Multiplatform widget that records a handwritten signature.
Each drag movement on the pad becomes one `SignatureLine`. The lines are held
in a `SignatureState` together with the last rendered signature image. The
state can be flattened by a `Saver` into lists of four numbers and rebuilt from
them. Two action buttons dispatch `CLEAR` (forget the lines) and `COMPLETE`
(hand the image to the host, or `null` when nothing was drawn). The older
`composesignature` module has the same action enums and a small
`SignaturePadViewModel` that holds a mutable list of paths.

The model:

- `geometry.dfy` (`Geometry`): `Offset`, with integer coordinates.
- `signature_line.dfy` (`SignatureLines`): the `SignatureLine` data class and its `copy`.
- `alignment.dfy` (`Alignments`): Compose's nine `Alignment` constants.
- `sain_signature_action.dfy` (`SainActions`): `SignatureAction`, `ActionsAlignment`, `entries`, `ordinal`, `name`, `valueOf` and `toAlignment`.
- `legacy_signature_action.dfy` (`LegacyActions`): the `composesignature` copy of those enums, and a lemma that both copies agree.
- `signature_state.dfy` (`SignatureStates`): the class `SignatureState`, with a `seq` of lines and an optional image. It also holds the `Saver` as the functions `SaveLines` / `RestoreLines` and their two round-trip lemmas.
- `sain_widget.dfy` (`SainWidget`): the drag-to-line rule, the redraw step and the action dispatch of the `Sain` composable.
- `signature_pad_view_model.dfy` (`PadViewModel`): the legacy view model. Its `MutableList` is an object, so the model can show that an append keeps the same list and a clear installs a new one.
- `wrappers.dfy` (`Wrappers`): `Option` for Kotlin's nullable values and `Result` for thrown exceptions.

The image type is a type parameter `Image`. The renderer `toImageBitmap` is a
parameter `render: seq<SignatureLine> -> Image` of `SainWidget.Redraw`. The
pad's size, colour and stroke thickness are fixed inside that function.

Two behaviours of the code that a reader might not expect are modelled as written:

- `COMPLETE` returns the signature stored by the last draw pass
  (`Sain.kt:187-191`). It does not render on the spot. If lines were added
  after the last redraw, the returned image is stale, or `null` when no draw
  pass has happened yet. `SainWidget.CompleteResult` and `HandleAction` state
  exactly this. `CompleteAfterRedraw` states what a host sees right after a
  redraw.
- Saved data whose entries hold fewer than four numbers is neither rejected
  nor skipped. `restore` indexes the missing number and throws
  (`Sain.kt:353-356`). `RestoreLines` returns `Failure(IndexOutOfBounds(entry, index))`
  for the first such entry. Numbers after the fourth are ignored.

## Model

| member | source | states |
|---|---|---|
| SignatureLines.SignatureLine.Copy | sain/src/commonMain/kotlin/io/github/joelkanyi/sain/SignatureLine.kt:27-30 | `copy` takes each given argument and keeps each omitted field; the copy equals the original exactly when neither field changed |
| SignatureLines.EqualityIsStructural | sain/src/commonMain/kotlin/io/github/joelkanyi/sain/SignatureLine.kt:27-30 | two lines are equal if and only if their starts and their ends are equal |
| SignatureLines.CopyWithoutOverridesIsIdentity | sain/src/commonTest/kotlin/io/github/joelkanyi/sain/SignatureLineTest.kt:46-51 | `copy()` with no arguments equals the original |
| SainActions.Ordinal | sain/src/commonMain/kotlin/io/github/joelkanyi/sain/SignatureAction.kt:31-34 | `ordinal` follows the declaration: `CLEAR` is 0 and `COMPLETE` is 1, and no other action has either number |
| SainActions.Name | sain/src/commonMain/kotlin/io/github/joelkanyi/sain/SignatureAction.kt:31-34 | `name` is the declared identifier: `"CLEAR"` exactly for `CLEAR`, `"COMPLETE"` exactly for `COMPLETE` |
| SainActions.AlignmentOrdinal | sain/src/commonMain/kotlin/io/github/joelkanyi/sain/SignatureAction.kt:43-48 | `ordinal` follows the declaration: `TOP` 0, `BOTTOM` 1, `LEFT` 2, `RIGHT` 3, each number for that value only |
| SainActions.Entries | sain/src/commonMain/kotlin/io/github/joelkanyi/sain/SignatureAction.kt:31-34 | `entries` has exactly two values, each at the index of its ordinal (`CLEAR` 0, `COMPLETE` 1, as `Ordinal` states) |
| SainActions.OrdinalIsInjective | sain/src/commonMain/kotlin/io/github/joelkanyi/sain/SignatureAction.kt:31-34 | two actions have the same ordinal only if they are the same action |
| SainActions.ValueOf | sain/src/commonMain/kotlin/io/github/joelkanyi/sain/SignatureAction.kt:31-34 | `valueOf(s)` gives the action whose name is `s`, and fails (`None`) when no action has that name; it inverts `name` |
| SainActions.AlignmentEntries | sain/src/commonMain/kotlin/io/github/joelkanyi/sain/SignatureAction.kt:43-48 | `ActionsAlignment` has exactly the four values `TOP`, `BOTTOM`, `LEFT`, `RIGHT`, each at the index of its ordinal |
| SainActions.ToAlignment | sain/src/commonMain/kotlin/io/github/joelkanyi/sain/SignatureAction.kt:53-58 | total; its image is `{TopStart, BottomStart, TopEnd}`; `TopStart` exactly for `TOP` and `LEFT`, `BottomStart` exactly for `BOTTOM`, `TopEnd` exactly for `RIGHT` |
| SainActions.ToAlignmentIsNotInjective | sain/src/commonMain/kotlin/io/github/joelkanyi/sain/SignatureAction.kt:54-56 | two distinct values are mapped to the same alignment |
| LegacyActions.Ordinal | composesignature/src/commonMain/kotlin/com/joelkanyi/composesignature/SignatureAction.kt:31-34 | the legacy `ordinal`: `CLEAR` is 0 and `COMPLETE` is 1, each number for that value only |
| LegacyActions.Name | composesignature/src/commonMain/kotlin/com/joelkanyi/composesignature/SignatureAction.kt:31-34 | the legacy `name`: `"CLEAR"` exactly for `CLEAR`, `"COMPLETE"` exactly for `COMPLETE` |
| LegacyActions.AlignmentOrdinal | composesignature/src/commonMain/kotlin/com/joelkanyi/composesignature/SignatureAction.kt:43-48 | the legacy `ordinal`: `TOP` 0, `BOTTOM` 1, `LEFT` 2, `RIGHT` 3, each number for that value only |
| LegacyActions.Entries | composesignature/src/commonMain/kotlin/com/joelkanyi/composesignature/SignatureAction.kt:31-34 | the legacy `SignatureAction` has exactly `CLEAR`, `COMPLETE`, in that order |
| LegacyActions.AlignmentEntries | composesignature/src/commonMain/kotlin/com/joelkanyi/composesignature/SignatureAction.kt:43-48 | the legacy `ActionsAlignment` has exactly `TOP`, `BOTTOM`, `LEFT`, `RIGHT`, in that order |
| LegacyActions.ToAlignment | composesignature/src/commonMain/kotlin/com/joelkanyi/composesignature/SignatureAction.kt:53-58 | the same total mapping as in `sain`: `TOP`, `LEFT` to `TopStart`, `BOTTOM` to `BottomStart`, `RIGHT` to `TopEnd` |
| LegacyActions.ToAlignmentIsNotInjective | composesignature/src/commonMain/kotlin/com/joelkanyi/composesignature/SignatureAction.kt:54-56 | two distinct legacy values are mapped to the same alignment |
| LegacyActions.CopiesAgree | composesignature/src/commonMain/kotlin/com/joelkanyi/composesignature/SignatureAction.kt:31-58 | values at the same position in both copies have the same name and ordinal, `sain`'s `valueOf` of the legacy name finds them, and both `toAlignment`s agree |
| SignatureStates.Flatten | sain/src/commonMain/kotlin/io/github/joelkanyi/sain/Sain.kt:344 | each line is saved as exactly four numbers, from which the line is rebuilt unchanged |
| SignatureStates.Unflatten | sain/src/commonMain/kotlin/io/github/joelkanyi/sain/Sain.kt:353-356 | the line built from an entry flattens back to the entry's first four numbers |
| SignatureStates.SaveLines | sain/src/commonMain/kotlin/io/github/joelkanyi/sain/Sain.kt:341-346 | one entry per line, in the same order, each exactly `[start.x, start.y, end.x, end.y]` |
| SignatureStates.RestoreLines | sain/src/commonMain/kotlin/io/github/joelkanyi/sain/Sain.kt:347-360 | succeeds if and only if every entry has at least four numbers; then one line per entry, in order, from numbers 0 to 3; otherwise the error names the first short entry and the index that is out of bounds |
| SignatureStates.RestoreAfterSave | sain/src/commonMain/kotlin/io/github/joelkanyi/sain/Sain.kt:340-361 | `restore(save(lines))` gives back exactly `lines`, order and coordinates included, the empty list too |
| SignatureStates.SaveAfterRestore | sain/src/commonMain/kotlin/io/github/joelkanyi/sain/Sain.kt:340-361 | `save(restore(saved))` cuts every entry to its first four numbers, so saved data of four-number entries comes back unchanged |
| SignatureStates.SignatureState.constructor | sain/src/commonMain/kotlin/io/github/joelkanyi/sain/Sain.kt:321-325 | a new state has no lines and a null signature |
| SignatureStates.SignatureState.SignatureLines | sain/src/commonMain/kotlin/io/github/joelkanyi/sain/Sain.kt:322 | returns the current list as a value, so later changes to the state do not reach it |
| SignatureStates.SignatureState.AddSignatureLine | sain/src/commonMain/kotlin/io/github/joelkanyi/sain/Sain.kt:327-329 | the new list is the old list with the line appended at the end; the signature is unchanged |
| SignatureStates.SignatureState.ClearSignatureLines | sain/src/commonMain/kotlin/io/github/joelkanyi/sain/Sain.kt:331-333 | from any state the list becomes empty, so a repeat changes nothing; the signature is unchanged |
| SignatureStates.SignatureState.UpdateSignature | sain/src/commonMain/kotlin/io/github/joelkanyi/sain/Sain.kt:335-337 | the signature becomes the given image; the lines are unchanged |
| SignatureStates.SignatureState.Save | sain/src/commonMain/kotlin/io/github/joelkanyi/sain/Sain.kt:341-346 | saving a state saves its current lines as `SaveLines` describes |
| SignatureStates.SignatureState.Restore | sain/src/commonMain/kotlin/io/github/joelkanyi/sain/Sain.kt:347-360 | on well-formed data, a new state with exactly the restored lines and a null signature; otherwise the error `RestoreLines` reports, and no state |
| SignatureStates.SaveAndRestore | sain/src/commonMain/kotlin/io/github/joelkanyi/sain/Sain.kt:340-361 | a state taken through save and restore comes back as a new state with the same lines, and a null signature until the next render |
| SainWidget.DragToLine | sain/src/commonMain/kotlin/io/github/joelkanyi/sain/Sain.kt:125-128 | the line ends at the pointer position and `end - start` equals the drag amount on both axes; it has zero length exactly when the drag amount is zero |
| SainWidget.OnDrag | sain/src/commonMain/kotlin/io/github/joelkanyi/sain/Sain.kt:122-131 | each drag event appends exactly one line, `DragToLine(position, dragAmount)`, and leaves the signature alone |
| SainWidget.DragLines | sain/src/commonMain/kotlin/io/github/joelkanyi/sain/Sain.kt:123-129 | a run of drag events yields one line per event, in order, each ending at its event's position and spanning its drag amount |
| SainWidget.PathLinesAreSegments | sain/src/commonMain/kotlin/io/github/joelkanyi/sain/Sain.kt:123-129 | following a pointer path, the drag lines join consecutive points of the path; a tap without movement adds no line |
| SainWidget.Redraw | sain/src/commonMain/kotlin/io/github/joelkanyi/sain/Sain.kt:153-162 | the stored signature becomes the rendering of the current lines; the lines are unchanged |
| SainWidget.CompleteResult | sain/src/commonMain/kotlin/io/github/joelkanyi/sain/Sain.kt:187-191 | the value passed to `onComplete` is null exactly when there are no lines or nothing was rendered yet, and otherwise is the stored signature |
| SainWidget.HandleAction | sain/src/commonMain/kotlin/io/github/joelkanyi/sain/Sain.kt:184-193 | `CLEAR` empties the lines and calls nothing; `COMPLETE` keeps the state and calls `onComplete` with `CompleteResult`; neither touches the signature; the deprecated overload at `Sain.kt:288-304` dispatches identically |
| SainWidget.CompleteAfterRedraw | sain/src/commonMain/kotlin/io/github/joelkanyi/sain/Sain.kt:184-193 | a draw pass followed by `COMPLETE` hands the host the rendering of the current lines when there are lines, and null when there are none; the lines are kept |
| PadViewModel.SignaturePadViewModel.constructor | composesignature/src/main/java/com/joelkanyi/composesignature/SignaturePadViewModel.kt:11 | the initial path list is a new, empty list |
| PadViewModel.SignaturePadViewModel.SetPathState | composesignature/src/main/java/com/joelkanyi/composesignature/SignaturePadViewModel.kt:14-16 | the state keeps the same list object, whose contents gain `value` at the end |
| PadViewModel.SignaturePadViewModel.ClearPathState | composesignature/src/main/java/com/joelkanyi/composesignature/SignaturePadViewModel.kt:18-20 | the state holds a new empty list, so a repeat leaves the same contents; the list held before keeps its contents |

## Left out

- Compose layout and styling (`Column`, `Box`, `Image`, borders, the dashed guideline at `Sain.kt:136-151`, the hint text at `Sain.kt:175-181`): cosmetic and bound to the UI framework.
- `toImageBitmap` (`ImageBitmapUtils.kt`): rasterisation with float stroke widths (`thickness * 3`). The model takes the renderer as a function parameter and never looks inside an image.
- Float coordinates: `Offset` holds integers here, so `position - dragAmount` is exact. With Kotlin `Float`s the subtraction rounds, and `end - start == dragAmount` can fail by rounding. `save`/`restore` copy numbers without computing on them, so the round trip holds for floats too.
- `hashCode`: Compose's `Offset` hashes its packed float bits, and float bits are not modelled. Dafny's datatype equality is structural and every function is deterministic, so equal lines can never be told apart.
- The unchecked cast `saved as List<List<Float>>` in `restore`: the saved data has the type `seq<seq<int>>`, so a `ClassCastException` cannot arise in the model.
- Compose's snapshot state (`mutableStateListOf`, `mutableStateOf`), `@Stable`, `rememberSaveable`, `rememberSignatureState` and `SaverScope`: framework mechanisms. Recomposition and the order in which the framework runs draw passes are not modelled. `Redraw` is a step that a host calls explicitly.
- The gesture detector `detectDragGestures` is not part of this model. `PathEvents` assumes each event reports the new position and the movement since the previous one. The real detector reports nothing until the pointer has moved past the touch slop, and its first `onDrag` carries only the movement beyond the slop. So in the program the first line of a stroke starts at the slop-crossing point, not at the touch-down point. `PathLinesAreSegments` describes the events from that point on.
- `composesignature/.../ComposeSignature.kt` and `PathState.kt`: Android `MotionEvent`s, `Path` objects, `Toast` and `drawToBitmap` capture are platform I/O. `PathState` is the opaque element type `P` of the view model.
- ViewModel lifecycle (`ViewModel` scoping and `onCleared`): framework.
- Build scripts, the sample app and `MainActivity.kt`: packaging and demo UI.
