# UniversalDialog in Dafny

A model of `UniversalDialog`, an Android `DialogFragment` helper that shows a styled modal dialog. The model covers four parts of `UniversalDialog.java`:

- **The configuration record** (`DialogParams`). It holds the layout id, width, height, gravity, corner radius, animation style, dim amount and cancelability, each with a fixed default. It also holds the two optional application callbacks: bind-view and save-state.
- **The fluent builder** (`Builder`). Each setter overwrites one field and returns the same builder. `create` throws `NullPointerException` for a non-positive layout id and otherwise hands the record to a new dialog.
- **Parcelling of the record.** `writeToParcel` writes six ints, one float and one byte, in a fixed order. The parcel constructor reads them back in the same order. The callbacks are not written, so they come back `null`.
- **The controller's gating.** `setView` restores the record from a saved bundle, refuses to inflate, or inflates and fires the callbacks. `setDialog` resolves the window size, corner radius and animation from the record or from defaults. `onSaveInstanceState` saves the record and fires the save-state callback in save mode.

Java `int` and `byte` are the subset types `Int32` and `Int8`. Java's truncating `/` is written out as `QuarterOf`, because four is the only divisor the source uses. The `float` dim amount is only ever copied, so it is kept as its raw bit pattern (`Float32`).

The platform constants are `Gravity.CENTER = 17`, `WRAP_CONTENT = -2` and `MATCH_PARENT = -1`. Some work is done by the platform or by the application: inflating a layout, applying the window setup, and running a callback. The controller records each of these as an `Event` appended to its `trace`. Its object invariant `Valid()` constrains the callbacks `setView` fires: a bind callback comes right after an inflation, and a restore-mode save-state callback comes right after an inflation or right after the bind callback that followed one. Save-mode save-state callbacks, appended by `onSaveInstanceState`, may stand anywhere in the trace.

Screen width and the 5dp default radius in pixels are inputs (`DisplayMetrics`). Whether a context, a dialog and a window exist is also an input (`Host`).

Two consequences are proved:

- A dialog recreated from a saved bundle has a record with the same scalar fields and no callbacks, so it inflates its layout and fires neither callback (`Controller.RecreatedDialogFiresNoCallback`).
- Only positive sizes are taken as given. A caller asking for `MATCH_PARENT` therefore gets a three-quarter-width, content-high window (`WindowSetup.MatchParentIsNotHonoured`).

Modules, one per component: `Wrappers` (Option, Result), `JavaTypes`, `DialogParams`, `Parcels`, `WindowSetup`, `Controller`, `Builders`.

## Model

| member | source | states |
|---|---|---|
| `JavaTypes.QuarterOf` | app/src/main/java/com/ken/dialog/UniversalDialog.java:103 | Java's `x / 4` rounds toward zero: for `x >= 0` the quotient times four is at most `x` and within 4 of it; for negative `x` it is at least `x` and within 4 of it |
| `Builders.Builder.constructor` | app/src/main/java/com/ken/dialog/UniversalDialog.java:131-134 | a new builder's record holds the given layout id, width 0, height 0, gravity CENTER, radius 0, animation 0, dim amount 0.5f, cancelable, and no listeners (the field initialisers at lines 269-278) |
| `Builders.Builder.SetView` | app/src/main/java/com/ken/dialog/UniversalDialog.java:141-143 | the static entry point returns a fresh builder whose record is the default record for the layout |
| `Builders.Builder.SetWidth` | app/src/main/java/com/ken/dialog/UniversalDialog.java:150-153 | overwrites only the width, with the argument as given, and returns the same builder |
| `Builders.Builder.SetHeight` | app/src/main/java/com/ken/dialog/UniversalDialog.java:160-163 | overwrites only the height, as given, and returns the same builder |
| `Builders.Builder.SetGravity` | app/src/main/java/com/ken/dialog/UniversalDialog.java:170-173 | overwrites only the gravity, unvalidated, and returns the same builder |
| `Builders.Builder.SetRoundRadius` | app/src/main/java/com/ken/dialog/UniversalDialog.java:180-183 | overwrites only the corner radius, as given, and returns the same builder |
| `Builders.Builder.SetAnimation` | app/src/main/java/com/ken/dialog/UniversalDialog.java:210-213 | overwrites only the animation style id and returns the same builder |
| `Builders.Builder.SetDimAmount` | app/src/main/java/com/ken/dialog/UniversalDialog.java:220-223 | overwrites only the dim amount, not range-checked, and returns the same builder |
| `Builders.Builder.SetCancelable` | app/src/main/java/com/ken/dialog/UniversalDialog.java:230-233 | overwrites only the cancelable flag and returns the same builder |
| `Builders.Builder.SetOnBindViewListener` | app/src/main/java/com/ken/dialog/UniversalDialog.java:240-243 | overwrites only the bind-view listener (possibly with null) and returns the same builder |
| `Builders.Builder.SetOnSaveStateListener` | app/src/main/java/com/ken/dialog/UniversalDialog.java:245-248 | overwrites only the save-state listener (possibly with null) and returns the same builder |
| `Builders.Builder.Create` | app/src/main/java/com/ken/dialog/UniversalDialog.java:255-263 | fails with `NullPointerException("The dialog without layout!")` exactly when the layout id is not positive; otherwise returns a new dialog whose record is the builder's record, with no view and nothing done yet |
| `Builders.DemoChain` | app/src/main/java/com/ken/universaldialog/MainActivity.java:29-58 | the demo's setter chain puts each value in its own field (800 by 500, centred, radius 15, half dimmed, not cancelable, both listeners) and `create` succeeds exactly when the layout id is positive |
| `Parcels.ParcelledLayout` | app/src/main/java/com/ken/dialog/UniversalDialog.java:312-321 | serialisation writes exactly eight values: six ints (layout id, width, height, gravity, radius, animation), then the dim amount as a float, then a byte that is 1 when cancelable and 0 otherwise |
| `Parcels.WriteToParcel` | app/src/main/java/com/ken/dialog/UniversalDialog.java:312-321 | appends exactly those eight values to the parcel and leaves its read position alone |
| `Parcels.Unparcel` | app/src/main/java/com/ken/dialog/UniversalDialog.java:283-292 | reading succeeds exactly when the eight values under the cursor have the types written, and the record read has both listeners null |
| `Parcels.CreateFromParcel` | app/src/main/java/com/ken/dialog/UniversalDialog.java:283-292 | reading with an advancing cursor gives the record `Unparcel` describes and, on success, leaves the cursor exactly eight values further on |
| `Parcels.RoundTrip` | app/src/main/java/com/ken/dialog/UniversalDialog.java:283-321 | reading back a written record, wherever it sits in a parcel, yields every scalar field equal to the original and both listeners null |
| `Parcels.MarshalAndUnmarshal` | app/src/main/java/com/ken/dialog/UniversalDialog.java:294-321 | writing into a fresh parcel, rewinding and reading through the creator always succeeds and returns the record without its listeners |
| `WindowSetup.ResolveWidth` | app/src/main/java/com/ken/dialog/UniversalDialog.java:103 | a positive configured width is used as is; otherwise, on a non-negative screen, the width is a multiple of three no wider than the screen and within 9/4 pixels of three quarters of it |
| `WindowSetup.ResolveHeight` | app/src/main/java/com/ken/dialog/UniversalDialog.java:104 | a positive configured height is used as is; every non-positive height resolves to WRAP_CONTENT, so the result is always positive or WRAP_CONTENT |
| `WindowSetup.ResolveRadius` | app/src/main/java/com/ken/dialog/UniversalDialog.java:94 | a positive configured radius is used; otherwise the 5dp default; the result is positive whenever the default is |
| `WindowSetup.ResolveAnimation` | app/src/main/java/com/ken/dialog/UniversalDialog.java:108-109 | an animation style is applied if and only if the configured id is positive, and it is that id |
| `WindowSetup.SetDialogEffect` | app/src/main/java/com/ken/dialog/UniversalDialog.java:87-88 | something is applied to the window if and only if there is a record, a context, a dialog and a window |
| `WindowSetup.DefaultWidthExample` | app/src/main/java/com/ken/dialog/UniversalDialog.java:103 | the division comes first, so a 1081-pixel screen gives a default width of 810 |
| `WindowSetup.DefaultsResolveAtApplyTime` | app/src/main/java/com/ken/dialog/UniversalDialog.java:85-113 | an untouched record resolves at start time to exactly `screenWidth / 4 * 3` in Java arithmetic (within 9/4 pixels of three quarters of the screen), WRAP_CONTENT height, the 5dp radius, CENTER, no animation, dim 0.5f and cancelable |
| `WindowSetup.ExplicitSizeIsApplied` | app/src/main/java/com/ken/dialog/UniversalDialog.java:103-112 | width 800, height 500 and cancelable false are applied exactly as set, whatever the screen |
| `WindowSetup.MatchParentIsNotHonoured` | app/src/main/java/com/ken/dialog/UniversalDialog.java:103-104 | a MATCH_PARENT width or height is not positive, so it falls back to three quarters of the screen and to WRAP_CONTENT |
| `Controller.SavedParams` | app/src/main/java/com/ken/dialog/UniversalDialog.java:63 | a record comes out of a bundle only if the bundle has the "params" key, and it never carries listeners |
| `Controller.Restore` | app/src/main/java/com/ken/dialog/UniversalDialog.java:62-64 | the record is taken from the bundle only when none is held and a saved bundle exists; otherwise the held record (or null) stays |
| `Controller.CallbacksFollowInflationAppend` | app/src/main/java/com/ken/dialog/UniversalDialog.java:69-79 | joining two traces in which every bind callback, and every restore-mode save-state callback, follows its inflation gives a trace with the same property |
| `Controller.SetViewEventsWellOrdered` | app/src/main/java/com/ken/dialog/UniversalDialog.java:69-79 | within one `setView` the bind callback comes right after the inflation and the restore callback right after the inflation or the bind callback |
| `Controller.SetViewCallbacks` | app/src/main/java/com/ken/dialog/UniversalDialog.java:66-80 | `setView` does nothing without a record with a positive layout id; otherwise it inflates exactly once, first, and produces no other inflation or window event; it fires the bind callback exactly once right after if and only if it is set, and fires the save-state callback exactly once in restore mode if and only if it is set and a saved bundle exists |
| `Controller.RecreatedDialogFiresNoCallback` | app/src/main/java/com/ken/dialog/UniversalDialog.java:62-80 | after a save, a recreated dialog restores a record with the same scalars and no listeners, so it only inflates (for a positive layout id) and fires neither callback |
| `Controller.UniversalDialog.constructor` | app/src/main/java/com/ken/dialog/UniversalDialog.java:28-31 | a dialog created by the platform holds no record, no view holder and has done nothing |
| `Controller.UniversalDialog.SetParams` | app/src/main/java/com/ken/dialog/UniversalDialog.java:55-57 | the record is set and nothing else changes |
| `Controller.UniversalDialog.RestoreFrom` | app/src/main/java/com/ken/dialog/UniversalDialog.java:62-64 | reads the record from the saved bundle through a parcel exactly as `Restore` says, changing nothing else |
| `Controller.UniversalDialog.SetView` | app/src/main/java/com/ken/dialog/UniversalDialog.java:59-82 | returns a view exactly when the (possibly restored) record has a positive layout id, installs a view holder over it, appends exactly the events `SetViewCallbacks` describes, and keeps the callback order |
| `Controller.UniversalDialog.SetDialog` | app/src/main/java/com/ken/dialog/UniversalDialog.java:85-113 | applies the resolved setup to the window once when the guard passes and does nothing otherwise; the record and view holder are unchanged |
| `Controller.UniversalDialog.OnSaveInstanceState` | app/src/main/java/com/ken/dialog/UniversalDialog.java:47-53 | stores the parcelled record under "params" and fires the save-state callback in save mode exactly when it is set; with no record it throws `NullPointerException` |

## Left out

- Inflating the layout, the `Window` calls (flags, background, layout, gravity, animations), `GradientDrawable` and `DialogFragment.setCancelable` are platform calls. They appear only as `Inflate` and `ApplyWindow` events and as fields of `Setup`. `FLAG_DIM_BEHIND` is always added, so it is not a field.
- `dp2px` rounds `density * 5` in floating point. The model takes the result as an input (`DisplayMetrics.defaultRadiusPx`), and takes `getScreenWidth` as the input `widthPixels`.
- `onCreateView` and `onStart` only delegate to `setView` and `setDialog`, which are modelled. The platform's lifecycle dispatch order and threading are not modelled: the hooks are methods the caller invokes.
- `describeContents`, `CREATOR.newArray`, the listener interfaces and the `ViewHolder` class are trivial or not part of this model. Listeners are kept only by identity, and a view holder only by the view it wraps.
- The unused `flags` argument of `writeToParcel` is dropped.
- The platform `Parcel` is untyped 32-bit words, and it reads zeros past its end. The model's parcel holds typed values, and reading a missing or wrongly typed value fails with `None`. The model's parcel also always appends on a write and never moves the read cursor then; the platform's parcel has one data position shared by reads and writes, and a write goes at that position and advances it. The platform marshals at the parcel's end, so the record written is the same. Parcels written by `writeToParcel` always read back. A bundle handed to `setView` may hold anything under "params", though. A malformed entry reads as `None`, and the dialog is then left without a record, so it does not inflate.
- A `Bundle` is modelled in its marshalled form: the record is stored as its parcelled values. The platform can also keep a bundle in memory without parcelling it. A record kept that way would still carry its listeners, and the no-callback result of `Controller.RecreatedDialogFiresNoCallback` then does not apply.
- The application's own bundle entries, and what its callbacks do with them, are not modelled.
- Builders.Builder.Create: the new dialog receives the record as a value. In the source the dialog and the builder share the same `DialogParams` object, so a setter called on the builder after `create` still changes the dialog's record. This aliasing is not modelled.
- Controller.UniversalDialog.OnSaveInstanceState: with no record, the source first stores `null` under "params" and only then throws. The model returns the failure without the partly updated bundle. The exception is modelled by its kind only; its message (the platform's text for a field access on `null`) is left empty.
- The demo activity's `show` through the `FragmentManager` is platform wiring and is not modelled.
