/** The three overlay slots of the user interface (src/app/ui/state.rs). */
module UserInterface {
  import opened Wrappers
  import opened PopupWidget
  import opened InputWidget
  import opened ConfirmWidget

  /**
   * Each slot holds at most one overlay of its kind; the slots are set and
   * cleared independently of each other.
   */
  class UIState {
    var popup: Option<Popup>
    var inputbox: Option<InputBox>
    var confirm: Option<Confirm>

    /** The derived `Default`: every slot empty. */
    constructor ()
      ensures popup == None && inputbox == None && confirm == None
    {
      popup := None;
      inputbox := None;
      confirm := None;
    }

    /** Replaces whatever popup was shown; the other slots are untouched. */
    method ShowPopup(p: Popup)
      modifies this`popup
      ensures popup == Some(p)
      ensures inputbox == old(inputbox) && confirm == old(confirm)
    {
      popup := Some(p);
    }

    /** Empties the popup slot (a no-op when it is empty); the other slots are untouched. */
    method ClosePopup()
      modifies this`popup
      ensures popup == None
      ensures inputbox == old(inputbox) && confirm == old(confirm)
    {
      popup := None;
    }

    /** Replaces whatever input box was shown; the other slots are untouched. */
    method ShowInput(input: InputBox)
      modifies this`inputbox
      ensures inputbox == Some(input)
      ensures popup == old(popup) && confirm == old(confirm)
    {
      inputbox := Some(input);
    }

    /** Empties the input slot; the other slots are untouched. */
    method CloseInput()
      modifies this`inputbox
      ensures inputbox == None
      ensures popup == old(popup) && confirm == old(confirm)
    {
      inputbox := None;
    }

    /** Replaces whatever dialog was shown; the other slots are untouched. */
    method ShowConfirm(c: Confirm)
      modifies this`confirm
      ensures confirm == Some(c)
      ensures popup == old(popup) && inputbox == old(inputbox)
    {
      confirm := Some(c);
    }

    /** Empties the dialog slot; the other slots are untouched. */
    method CloseConfirm()
      modifies this`confirm
      ensures confirm == None
      ensures popup == old(popup) && inputbox == old(inputbox)
    {
      confirm := None;
    }
  }

  /**
   * Closing the popup, once or twice, leaves a shown input box in place and
   * an empty slot empty.
   */
  method ClosePopupKeepsInput(p: Popup)
    returns (popupAfter: Option<Popup>, inputShown: bool, confirmAfter: Option<Confirm>)
    ensures popupAfter == None && inputShown && confirmAfter == None
  {
    var ui := new UIState();
    var box := new InputBox.Insert();
    ui.ShowPopup(p);
    ui.ShowInput(box);
    ui.ClosePopup();
    ui.ClosePopup();
    ui.CloseConfirm();
    popupAfter, inputShown, confirmAfter := ui.popup, ui.inputbox == Some(box), ui.confirm;
  }
}
