/**
 * The editor state machine of `ContentView`: its five `@State` fields and
 * the closures and private methods that change them. Layout, drawing, the
 * photo picker's asynchronous transfer, image decoding and the renderer are
 * outside the model; their outcomes arrive as parameters.
 */
module ContentView {
  import opened Wrappers
  import opened Stamps

  /** The token the photo picker hands back (`PhotosPickerItem`). */
  datatype PickerItem = PickerItem(itemIdentifier: string)

  /** A decoded image (`Image` built from a `UIImage`). */
  datatype Photo = Photo(pixels: seq<bv8>)

  /** The flattened image `ImageRenderer.uiImage` produces. */
  datatype Rendering = Rendering(pixels: seq<bv8>)

  /** What `loadTransferable(type: Data.self)` delivers to its completion handler. */
  datatype Transfer =
    | Failed(reason: string)           // `.failure(error)`
    | Delivered(data: Option<seq<bv8>>) // `.success(data)`, where `data` may be nil

  /** The four stamp buttons, each with its fixed glyph. */
  datatype StampButton = Heart | Star | Headphones | SmilingFace
  {
    function Emoji(): (e: string)
      ensures 0 < |e| <= 2
      ensures |e| == 2 ==> e[1] == '\U{FE0F}'
    {
      match this
      case Heart => "\U{2764}\U{FE0F}"
      case Star => "\U{2B50}\U{FE0F}"
      case Headphones => "\U{1F3A7}"
      case SmilingFace => "\U{1F970}"
    }
  }

  /** The four buttons carry four different glyphs, so a stamp's glyph tells which button made it. */
  lemma DistinctGlyphs(b1: StampButton, b2: StampButton)
    ensures b1 != b2 <==> b1.Emoji() != b2.Emoji()
  {
  }

  class Editor {
    var selectedItem: Option<PickerItem>
    var selectedImage: Option<Photo>
    var text: string
    var showAlert: bool
    var stamps: seq<Stamp>
    /** Stands in for `UUID()`: the identity the next new stamp receives. Never reset. */
    var nextId: nat

    /**
     * Stamp identities are distinct and all were issued by the counter, and
     * stamps exist only while an image is loaded (they can only be added
     * while the buttons are enabled and are cleared together with the image).
     */
    predicate Valid()
      reads this
      ensures Valid() ==> forall k :: 0 <= k < |stamps| ==> stamps[k].id != nextId
      ensures Valid() && stamps != [] ==> ActionsEnabled() && !PickerShown()
    {
      UniqueIds(stamps) && IdsBelow(stamps, nextId) && (stamps != [] ==> selectedImage.Some?)
    }

    /** The stamp buttons and the save button are enabled (`.disabled(selectedImage == nil)`). */
    predicate ActionsEnabled()
      reads this
    {
      selectedImage.Some?
    }

    /** The photo picker is shown over the frame only while no image is loaded. */
    predicate PickerShown()
      reads this
    {
      selectedImage.None?
    }

    /** The initial values of the `@State` fields. */
    constructor ()
      ensures Valid()
      ensures selectedItem == None && selectedImage == None
      ensures text == "" && !showAlert && stamps == [] && nextId == 0
    {
      selectedItem := None;
      selectedImage := None;
      text := "";
      showAlert := false;
      stamps := [];
      nextId := 0;
    }

    /** The user picks a photo: the picker writes the token into `selectedItem`. */
    method PickItem(item: PickerItem)
      requires PickerShown() && Valid()
      modifies this
      ensures Valid()
      ensures selectedItem == Some(item)
      ensures selectedImage == old(selectedImage) && text == old(text) && showAlert == old(showAlert)
      ensures stamps == old(stamps) && nextId == old(nextId)
    {
      selectedItem := Some(item);
    }

    /** The user edits the caption through the text field's binding. */
    method EditText(t: string)
      requires Valid()
      modifies this
      ensures Valid()
      ensures text == t
      ensures selectedItem == old(selectedItem) && selectedImage == old(selectedImage)
      ensures showAlert == old(showAlert) && stamps == old(stamps) && nextId == old(nextId)
    {
      text := t;
    }

    /**
     * `loadImage()` together with its completion handler. `decode` is
     * `UIImage(data:)`, which yields nil on undecodable data.
     */
    method LoadImage(result: Transfer, decode: seq<bv8> -> Option<Photo>)
      requires Valid()
      modifies this
      ensures Valid()
      ensures old(selectedItem).None? ==> selectedImage == old(selectedImage)
      ensures old(selectedItem).Some? && result.Delivered? && result.data.Some? && decode(result.data.value).Some?
              ==> selectedImage == decode(result.data.value)
      ensures !(result.Delivered? && result.data.Some? && decode(result.data.value).Some?)
              ==> selectedImage == old(selectedImage)
      ensures selectedItem == old(selectedItem) && text == old(text) && showAlert == old(showAlert)
      ensures stamps == old(stamps) && nextId == old(nextId)
    {
      if selectedItem.None? {
        return;
      }
      match result
      case Delivered(data) =>
        if data.Some? {
          var image := decode(data.value);
          if image.Some? {
            selectedImage := image;
          }
        }
      case Failed(_) =>
    }

    /** One of the four stamp buttons: a new stamp is appended at the spawn point. */
    method AddStamp(button: StampButton)
      requires Valid() && ActionsEnabled()
      modifies this
      ensures Valid()
      ensures stamps == Appended(old(stamps), old(nextId), button.Emoji())
      ensures nextId == old(nextId) + 1
      ensures selectedItem == old(selectedItem) && selectedImage == old(selectedImage)
      ensures text == old(text) && showAlert == old(showAlert)
    {
      stamps := stamps + [Stamp(nextId, button.Emoji(), SpawnPoint, DefaultScale, ZeroAngle)];
      nextId := nextId + 1;
    }

    /** The drag recognizer of stamp `i` reports a new location. */
    method Drag(i: nat, location: Point)
      requires Valid() && i < |stamps|
      modifies this
      ensures Valid()
      ensures stamps == Updated(old(stamps), i, Gesture.Drag(location))
      ensures selectedItem == old(selectedItem) && selectedImage == old(selectedImage)
      ensures text == old(text) && showAlert == old(showAlert) && nextId == old(nextId)
    {
      stamps := stamps[i := stamps[i].(position := location)];
    }

    /** The magnification recognizer of stamp `i` reports a new factor. */
    method Magnify(i: nat, factor: real)
      requires Valid() && i < |stamps|
      modifies this
      ensures Valid()
      ensures stamps == Updated(old(stamps), i, Gesture.Magnify(factor))
      ensures selectedItem == old(selectedItem) && selectedImage == old(selectedImage)
      ensures text == old(text) && showAlert == old(showAlert) && nextId == old(nextId)
    {
      stamps := stamps[i := stamps[i].(scale := factor)];
    }

    /** The rotation recognizer of stamp `i` reports a new angle. */
    method Rotate(i: nat, angle: real)
      requires Valid() && i < |stamps|
      modifies this
      ensures Valid()
      ensures stamps == Updated(old(stamps), i, Gesture.Rotate(angle))
      ensures selectedItem == old(selectedItem) && selectedImage == old(selectedImage)
      ensures text == old(text) && showAlert == old(showAlert) && nextId == old(nextId)
    {
      stamps := stamps[i := stamps[i].(angle := angle)];
    }

    /**
     * `savedEditedImage()`. `rendered` is what the renderer produced
     * (nil or an image); the result is the image handed to the photo album, if any.
     */
    method Save(rendered: Option<Rendering>) returns (written: Option<Rendering>)
      requires Valid() && ActionsEnabled()
      modifies this
      ensures Valid()
      ensures written == rendered
      ensures rendered.Some? ==>
        showAlert && selectedImage == None && selectedItem == None && text == "" && stamps == []
      ensures rendered.None? ==>
        showAlert == old(showAlert) && selectedImage == old(selectedImage)
        && selectedItem == old(selectedItem) && text == old(text) && stamps == old(stamps)
      ensures nextId == old(nextId)
    {
      written := None;
      if rendered.Some? {
        written := rendered;
        showAlert := true;
        selectedImage := None;
        selectedItem := None;
        text := "";
        stamps := [];
      }
    }

    /** The alert's OK button clears the flag bound to `isPresented`. */
    method DismissAlert()
      requires Valid()
      modifies this
      ensures Valid()
      ensures !showAlert
      ensures selectedItem == old(selectedItem) && selectedImage == old(selectedImage)
      ensures text == old(text) && stamps == old(stamps) && nextId == old(nextId)
    {
      showAlert := false;
    }
  }

  /**
   * One editing session, stated from the contracts alone: load a photo, add
   * a heart and a star, caption it, save; everything is empty again afterwards.
   */
  method SaveSession(item: PickerItem, bytes: seq<bv8>, photo: Photo, out: Rendering)
  {
    var e := new Editor();
    e.PickItem(item);
    e.LoadImage(Delivered(Some(bytes)), _ => Some(photo));
    assert e.selectedImage == Some(photo);
    e.AddStamp(Heart);
    assert |e.stamps| == 1 && IsNewStamp(e.stamps[0], 0, "\U{2764}\U{FE0F}");
    e.AddStamp(Star);
    DistinctGlyphs(Heart, Star);
    assert e.stamps[0].emoji != e.stamps[1].emoji && e.stamps[0].id != e.stamps[1].id;
    e.EditText("Hello");
    var written := e.Save(Some(out));
    assert written == Some(out);
    assert e.showAlert && e.selectedImage == None && e.selectedItem == None;
    assert e.text == "" && e.stamps == [];
  }
}
