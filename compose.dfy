/** The compose screen's form (Postcard/ContentView.swift): the photo, the side showing, the
    message, the recipient and the flags the handlers set. Rendering, animation, haptics and
    timers are left out; a delayed call is the caller invoking the next method. */
module Compose {
  import opened Wrappers
  import opened PostcardModel

  /** A `PhotosPickerItem`: a reference into the photo library. */
  datatype PickerItem = PickerItem(itemIdentifier: string)

  /** A decoded `Image`. */
  datatype Picture = Picture(source: Bytes)

  /** The minimum horizontal swipe, in points, that flips the card. */
  const FlipThreshold: real := 50.0

  /** The form's `@State` and `@FocusState` fields that the handlers read or write. */
  datatype FormState = FormState(
    selectedItem: Option<PickerItem>,
    selectedImage: Option<Picture>,
    isShowingFront: bool,
    message: string,
    isMessageFocused: bool,
    selectedRecipient: Option<Recipient>,
    isShowingDeleteAlert: bool,
    isShowingSentConfirmation: bool,
    isSaving: bool)

  /** The state of a freshly shown screen. */
  const Initial := FormState(None, None, true, "", false, None, false, false, false)

  /** `canSendPostcard` */
  predicate CanSendPostcard(s: FormState)
  {
    s.selectedImage.Some? && s.message != "" && s.selectedRecipient.Some?
  }

  /** The back of the card is only ever showing with a photo on the front. */
  predicate Consistent(s: FormState)
  {
    s.isShowingFront || s.selectedImage.Some?
  }

  function Abs(x: real): real
  {
    if x < 0.0 then -x else x
  }

  /** The drag handler flips the card: a long enough swipe, and a photo or the back showing. */
  predicate FlipAllowed(s: FormState, translationWidth: real)
  {
    Abs(translationWidth) > FlipThreshold && (s.selectedImage.Some? || !s.isShowingFront)
  }

  /** The state after the drag gesture ends. */
  function AfterDrag(s: FormState, translationWidth: real): FormState
  {
    if FlipAllowed(s, translationWidth) then
      s.(isShowingFront := !s.isShowingFront,
         isMessageFocused := if s.isShowingFront then true else s.isMessageFocused)
    else s
  }

  /** What `resetForm` and the delete confirmation clear. */
  function Cleared(s: FormState): FormState
  {
    s.(selectedImage := None, selectedItem := None, message := "", selectedRecipient := None, isShowingFront := true)
  }

  /** The `PostcardData` that `sendPostcard` builds, or `None` when its guard returns early;
      `jpeg` is the JPEG encoding of the photo, `None` when it cannot be made. */
  function BuildPostcard(s: FormState, jpeg: Option<Bytes>, now: nat): (r: Option<PostcardData>)
    ensures r.Some? <==> CanSendPostcard(s) && jpeg.Some?
    ensures r.Some? ==>
              && r.value.status == Pending && r.value.imageData == jpeg.value
              && r.value.message == s.message && r.value.message != ""
              && r.value.recipientName == s.selectedRecipient.value.name
              && r.value.recipientPhone == s.selectedRecipient.value.phone
              && r.value.dateCreated == now
  {
    if CanSendPostcard(s) && jpeg.Some? then
      var recipient := s.selectedRecipient.value;
      Some(PostcardData(jpeg.value, s.message, recipient.name, recipient.phone, now, Pending))
    else None
  }

  // ---------------------------------------------------------------------------------------------
  // Properties of the transitions

  lemma InitialState()
    ensures Consistent(Initial) && !CanSendPostcard(Initial)
  {
  }

  /** The side changes exactly when the swipe is long enough and a photo is chosen or the back is
      showing; turning to the back focuses the message; nothing else changes. */
  lemma FlipRule(s: FormState, translationWidth: real)
    ensures AfterDrag(s, translationWidth).isShowingFront != s.isShowingFront <==> FlipAllowed(s, translationWidth)
    ensures s.isShowingFront && !AfterDrag(s, translationWidth).isShowingFront ==>
              AfterDrag(s, translationWidth).isMessageFocused
    ensures AfterDrag(s, translationWidth).(isShowingFront := s.isShowingFront, isMessageFocused := s.isMessageFocused) == s
    ensures !FlipAllowed(s, translationWidth) ==> AfterDrag(s, translationWidth) == s
  {
  }

  /** Without a photo the card cannot be turned to its back, and a flip keeps the form consistent. */
  lemma FlipKeepsConsistent(s: FormState, translationWidth: real)
    requires Consistent(s)
    ensures Consistent(AfterDrag(s, translationWidth))
    ensures s.selectedImage.None? ==> AfterDrag(s, translationWidth) == s
  {
  }

  /** Two allowed swipes in a row bring the card back to the side it started on. */
  lemma FlipTwice(s: FormState, w1: real, w2: real)
    requires Consistent(s) && FlipAllowed(s, w1)
    requires Abs(w2) > FlipThreshold
    ensures AfterDrag(AfterDrag(s, w1), w2).isShowingFront == s.isShowingFront
  {
  }

  /** After a reset the front shows, nothing can be sent, and a second reset changes nothing;
      the alert and progress flags are not touched. */
  lemma ClearedSpec(s: FormState)
    ensures Cleared(s).isShowingFront && Consistent(Cleared(s)) && !CanSendPostcard(Cleared(s))
    ensures Cleared(s).selectedImage.None? && Cleared(s).selectedItem.None?
    ensures Cleared(s).message == "" && Cleared(s).selectedRecipient.None?
    ensures Cleared(Cleared(s)) == Cleared(s)
    ensures Cleared(s).isSaving == s.isSaving && Cleared(s).isShowingDeleteAlert == s.isShowingDeleteAlert
    ensures Cleared(s).isShowingSentConfirmation == s.isShowingSentConfirmation
    ensures Cleared(s).isMessageFocused == s.isMessageFocused
  {
  }

  // ---------------------------------------------------------------------------------------------
  // The view's state and its handlers

  class ComposeForm {
    var selectedItem: Option<PickerItem>
    var selectedImage: Option<Picture>
    var isShowingFront: bool
    var message: string
    var isMessageFocused: bool
    var selectedRecipient: Option<Recipient>
    var isShowingDeleteAlert: bool
    var isShowingSentConfirmation: bool
    var isSaving: bool

    function State(): FormState
      reads this
    {
      FormState(selectedItem, selectedImage, isShowingFront, message, isMessageFocused,
                selectedRecipient, isShowingDeleteAlert, isShowingSentConfirmation, isSaving)
    }

    predicate Valid()
      reads this
    {
      Consistent(State())
    }

    constructor ()
      ensures State() == Initial && Valid()
    {
      selectedItem, selectedImage := None, None;
      isShowingFront := true;
      message := "";
      isMessageFocused := false;
      selectedRecipient := None;
      isShowingDeleteAlert, isShowingSentConfirmation, isSaving := false, false, false;
    }

    /** The drag gesture's `onEnded`. */
    method OnDragEnded(translationWidth: real)
      requires Valid()
      modifies this
      ensures State() == AfterDrag(old(State()), translationWidth) && Valid()
    {
      if Abs(translationWidth) > FlipThreshold {
        if selectedImage.Some? || !isShowingFront {
          isShowingFront := !isShowingFront;
          if !isShowingFront {
            isMessageFocused := true;
          }
        }
      }
      FlipKeepsConsistent(old(State()), translationWidth);
    }

    /** `resetForm` */
    method ResetForm()
      modifies this
      ensures State() == Cleared(old(State())) && Valid()
    {
      selectedImage := None;
      selectedItem := None;
      message := "";
      selectedRecipient := None;
      if !isShowingFront {
        isShowingFront := true;
      }
    }

    /** Tapping the trash icon asks for confirmation. */
    method DeleteTapped()
      modifies this
      ensures State() == old(State()).(isShowingDeleteAlert := true)
    {
      isShowingDeleteAlert := true;
    }

    /** The alert's "Yes": clears the form like `resetForm`; the alert closes. */
    method ConfirmDelete()
      modifies this
      ensures State() == Cleared(old(State())).(isShowingDeleteAlert := false) && Valid()
      ensures !CanSendPostcard(State())
    {
      isShowingDeleteAlert := false;
      selectedImage := None;
      selectedItem := None;
      message := "";
      selectedRecipient := None;
      if !isShowingFront {
        isShowingFront := true;
      }
    }

    /** The picker sets `selectedItem`; when it changed, the photo is loaded and shown if it
        decodes (`decoded`), and otherwise the previous photo stays. */
    method PhotoPicked(item: Option<PickerItem>, decoded: Option<Picture>)
      requires Valid()
      modifies this
      ensures selectedItem == item
      ensures selectedImage == if item != old(selectedItem) && item.Some? && decoded.Some? then decoded
                               else old(selectedImage)
      ensures State().(selectedItem := old(selectedItem), selectedImage := old(selectedImage)) == old(State())
      ensures Valid()
    {
      var changed := item != selectedItem;
      selectedItem := item;
      if changed && item.Some? && decoded.Some? {
        selectedImage := decoded;
      }
    }

    /** Typing on the back of the card. */
    method EditMessage(text: string)
      modifies this
      ensures State() == old(State()).(message := text)
    {
      message := text;
    }

    /** The contact picker writes the chosen recipient through its binding. */
    method SelectRecipient(recipient: Recipient)
      modifies this
      ensures State() == old(State()).(selectedRecipient := Some(recipient))
    {
      selectedRecipient := Some(recipient);
    }

    /** `sendPostcard`: builds the postcard and shows the progress overlay, or changes nothing
        when the guard fails. */
    method SendPostcard(jpeg: Option<Bytes>, now: nat) returns (postcard: Option<PostcardData>)
      modifies this
      ensures postcard == BuildPostcard(old(State()), jpeg, now)
      ensures postcard.None? ==> State() == old(State())
      ensures postcard.Some? ==> State() == old(State()).(isSaving := true)
    {
      if !CanSendPostcard(State()) || jpeg.None? {
        return None;
      }
      isSaving := true;
      var recipient := selectedRecipient.value;
      postcard := Some(PostcardData(jpeg.value, message, recipient.name, recipient.phone, now, Pending));
    }

    /** The SEND button: calls `sendPostcard` only when the form can send, which `sendPostcard`
        checks again, so the outcome is that of `sendPostcard` alone. */
    method SendButtonTapped(jpeg: Option<Bytes>, now: nat) returns (postcard: Option<PostcardData>)
      modifies this
      ensures postcard == BuildPostcard(old(State()), jpeg, now)
      ensures postcard.None? ==> State() == old(State())
      ensures postcard.Some? ==> State() == old(State()).(isSaving := true)
    {
      postcard := None;
      if CanSendPostcard(State()) {
        postcard := SendPostcard(jpeg, now);
      }
    }

    /** The simulated network delay has elapsed: the confirmation shows and the overlay hides. */
    method SendCompleted()
      modifies this
      ensures State() == old(State()).(isShowingSentConfirmation := true, isSaving := false)
    {
      isShowingSentConfirmation := true;
      isSaving := false;
    }
  }
}
