# InstaxApp editor — a Dafny model

InstaxApp is a one-screen photo editor. The user picks a photo and types a
caption. They place emoji stamps on an instant-camera style frame, then drag,
pinch and rotate each stamp. Saving renders the frame at 3 pixels per point, writes the image to the photo album and clears the editor.

The logic lives in the SwiftUI view `ContentView`. It is a small state machine
over five `@State` fields: `selectedItem`, `selectedImage`, `text`, `showAlert`
and the ordered stamp array `stamps`. This project models that state machine:

- `wrappers.dfy`, module `Wrappers`: `Option`, standing for Swift's `T?`.
- `stamps.dfy`, module `Stamps`: the `Stamp` record and the pure operations on
  the stamp array. These are appending a new stamp and letting one gesture
  event update one element. Lemmas cover single events, streams of events and
  repeated additions.
- `content_view.dfy`, module `ContentView`: class `Editor`. It has one field
  per `@State` variable, plus a counter `nextId` that stands in for `UUID()`.
  Each button action, gesture closure and private method is a method with
  `modifies this`. Its `ensures` gives the whole new state, tied to the
  `Stamps` functions. `Valid()` (stamp identities are distinct and all come
  from the counter) is kept by every method.

Modelling choices:

- `CGFloat` and `Angle` are `real`, and `CGPoint` is `Stamps.Point`. The
  editor only ever assigns these values and never computes with them.
- A stamp's `UUID` is a `nat` taken from `Editor.nextId`. Saving does not
  reset the counter, so an identity is never reused.
- The framework decides which stamp a touch hits. The gesture methods
  therefore receive the element's index, and the index must be in range.
- The photo transfer, `UIImage(data:)` and `ImageRenderer` are parameters:
  - a `Transfer` value is what the completion handler receives;
  - a function `seq<bv8> -> Option<Photo>` stands for decoding;
  - an `Option<Rendering>` is the renderer's output.
- The disabled buttons (`.disabled(selectedImage == nil)`) become the
  precondition `ActionsEnabled()` on `AddStamp` and `Save`. The picker appears
  only while no image is loaded, so `PickerShown()` is the precondition of
  `PickItem`.

Behaviour of the code a reader might not expect:

- Scale has no lower bound and the angle is not normalised. The recognizer's
  value is stored exactly as reported (lines 143 and 149).
- A second pinch or rotation starts again from the gesture's own start value
  and replaces the stored one. It does not accumulate.
- Loads are not tagged. `loadImage()` reads the `selectedItem` guard when
  it makes the request (line 167). The completion handler (lines 168-176) then
  sets `selectedImage` whenever it arrives, even if `selectedItem` has been
  cleared since. The model reads the guard when `LoadImage` is called, because
  it treats the request and its completion as one step.
- The photo picker is not always available. It is only shown while
  `selectedImage` is nil (line 156).
- Saving raises the alert whenever the renderer produced an image. The outcome
  of the album write is not consulted.

## Model

| member | source | states |
|---|---|---|
| `Stamps.Appended` | InstaxApp/ContentView.swift:39 | appending grows the array by exactly one; the old elements form an unchanged prefix; the new last stamp has the given identity and glyph, position (175, 260), scale 1.0 and angle zero; its identity differs from every earlier one, so unique identities stay unique |
| `Stamps.ApplyGesture` | InstaxApp/ContentView.swift:134-151 | a drag sets only `position`, a magnification only `scale`, a rotation only `angle`, each to exactly the reported value; identity and glyph are kept |
| `Stamps.Updated` | InstaxApp/ContentView.swift:128-151 | an event delivered through the `$stamp` binding changes element `i` as `ApplyGesture` says; every other element and the length are unchanged; identities stay unique and issued |
| `Stamps.GestureIdempotent` | InstaxApp/ContentView.swift:136-150 | delivering the same value twice gives the same stamp as delivering it once |
| `Stamps.SameKindLastWins` | InstaxApp/ContentView.swift:136-150 | of two events from the same recognizer, the later value is the one that stays |
| `Stamps.DifferentKindsCommute` | InstaxApp/ContentView.swift:134-151 | events from two different recognizers on one stamp commute, so simultaneous drag, pinch and rotation do not cancel one another |
| `Stamps.DistinctStampsCommute` | InstaxApp/ContentView.swift:128 | events on two different stamps commute |
| `Stamps.StreamLastValueWins` | InstaxApp/ContentView.swift:134-151 | after any interleaved stream of events, each field holds the last value its own recognizer reported, or its old value if that recognizer reported nothing; there is no commit step |
| `Stamps.ApplyAll` | InstaxApp/ContentView.swift:134-151 | a stream of `onChanged` events applied in order never changes a stamp's identity or glyph |
| `Stamps.UpdatedAll` | InstaxApp/ContentView.swift:128-151 | a stream of events on one element keeps the array length |
| `Stamps.UpdatedAllTouchesOne` | InstaxApp/ContentView.swift:128-151 | a stream of events on element `i` changes that element only, to the stamp the stream produces |
| `Stamps.AppendedAll` | InstaxApp/ContentView.swift:37-65 | repeated button presses grow the array by exactly one element per press and keep the old elements as an unchanged prefix |
| `Stamps.AppendedAllSpec` | InstaxApp/ContentView.swift:37-65 | after n button presses the array has grown by exactly n; the old elements are unchanged; the k-th new stamp is a default stamp with the k-th requested glyph and identity `id + k`; all identities are distinct |
| `ContentView.StampButton.Emoji` | InstaxApp/ContentView.swift:39-60 | the contract gives the shape of each glyph: one code point, optionally followed by the variation selector U+FE0F; the body gives U+2764 U+FE0F, U+2B50 U+FE0F, U+1F3A7 and U+1F970 as the four literals |
| `ContentView.DistinctGlyphs` | InstaxApp/ContentView.swift:38-64 | two different buttons carry different glyphs |
| `ContentView.Editor.Valid` | InstaxApp/ContentView.swift:13 | the object invariant: stamp identities are distinct and all issued by the counter, so the identity the next stamp receives is fresh; stamps exist only while an image is loaded, so while there are stamps the stamp and save buttons are enabled and the picker is hidden |
| `ContentView.Editor.ActionsEnabled` | InstaxApp/ContentView.swift:43-79 | is the guard `.disabled(selectedImage == nil)` of the four stamp buttons and the save button, negated; `AddStamp` and `Save` require it |
| `ContentView.Editor.PickerShown` | InstaxApp/ContentView.swift:156-161 | is the condition `if selectedImage == nil` under which the picker is shown; `PickItem` requires it |
| `ContentView.Editor.constructor` | InstaxApp/ContentView.swift:21-25 | the initial state: no item, no image, empty caption, no alert, no stamps |
| `ContentView.Editor.PickItem` | InstaxApp/ContentView.swift:156-161 | picking, possible only while no image is shown, sets `selectedItem` and nothing else |
| `ContentView.Editor.EditText` | InstaxApp/ContentView.swift:31 | the text field replaces the caption, even with the empty string, and nothing else |
| `ContentView.Editor.LoadImage` | InstaxApp/ContentView.swift:166-177 | with no item nothing changes; if data arrived and decodes, the image becomes the decoded one; on failure, missing data or undecodable data the image is unchanged; item, caption, alert and stamps are never touched |
| `ContentView.Editor.AddStamp` | InstaxApp/ContentView.swift:38-43 | allowed only while an image is present; the stamp array becomes `Appended` of the old one with a fresh identity and the button's glyph; nothing else changes except the identity counter |
| `ContentView.Editor.Drag` | InstaxApp/ContentView.swift:135-138 | sets the position of stamp `i` to the reported location; its other fields, every other stamp, the length and all other state are unchanged |
| `ContentView.Editor.Magnify` | InstaxApp/ContentView.swift:141-144 | sets the scale of stamp `i` to exactly the reported factor, unclamped; nothing else changes |
| `ContentView.Editor.Rotate` | InstaxApp/ContentView.swift:147-150 | sets the angle of stamp `i` to exactly the reported angle, not normalised; nothing else changes |
| `ContentView.Editor.Save` | InstaxApp/ContentView.swift:180-191 | allowed only while an image is present; if rendering produced an image, that image goes to the album, the alert is raised, and image, item, caption and stamps are reset; if rendering produced nothing, the state is unchanged |
| `ContentView.Editor.DismissAlert` | InstaxApp/ContentView.swift:84-90 | dismissing the alert clears `showAlert` and nothing else |

The buttons at lines 45-50, 52-57 and 59-64 are also covered by
`Editor.AddStamp`. Its `StampButton` parameter selects the glyph.
`ContentView.SaveSession` proves, from these contracts alone, the expected
end state of one session: load, add a heart and a star, caption, save.

## Left out

- Layout and drawing: frame sizes, fonts, shadows, the placeholder icon and the fit-and-crop of the photo. It is view description only.
- `ImageRenderer` itself (including its `scale = 3` pixel density) and `UIImageWriteToSavedPhotosAlbum`. They are foreign rendering and persistence calls. The renderer's output is a parameter of `Save`, and the album write is its out-parameter.
- The asynchronous `loadTransferable` call and `UIImage(data:)`. They are foreign asynchronous I/O. Their outcomes are parameters of `LoadImage`, so the item cannot change between the request and its completion. The `print` of the failure reason is left out as well.
- `onChange(of: selectedItem, initial: true)`. It only calls `loadImage()`; callers call `LoadImage` after `PickItem` (and after `Save`, when there is no item and nothing happens).
- Gesture recognition, hit-testing and arbitration between simultaneous recognizers. The framework decides these; the model receives the element index and the reported value.
- Floating-point behaviour of `CGFloat` and `Angle`. Only assignment happens.
- The alert's text and the `#Preview` block.
