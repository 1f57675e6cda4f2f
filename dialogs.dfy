/** How the three modal dialogs of kanban-tui/board.py dismiss: the value
    each one hands to the action's callback. */
module Dialogs {

  import opened Options

  /** The buttons of the card and column dialogs ("save" / "cancel"). */
  datatype FormButton = SaveButton | CancelButton

  /** The buttons of the confirmation dialog ("yes" / "no"); it dismisses
      with "confirmed" exactly when "yes" was pressed. */
  datatype ConfirmButton = YesButton | NoButton

  /** The three fields of the card dialog: title, description, details. */
  datatype CardForm = CardForm(title: string, description: string, details: string)

  /** `AddCardScreen.on_button_pressed`: only Save with a non-empty title
      hands the fields on; Save with an empty title and Cancel give None. */
  function CardDialogResult(pressed: FormButton, form: CardForm): (r: Option<CardForm>)
    ensures r.Some? <==> pressed == SaveButton && form.title != ""
    ensures r.Some? ==> r.value == form && r.value.title != ""
  {
    if pressed == SaveButton then
      if form.title != "" then Some(form) else None
    else None
  }

  /** `AddColumnScreen.on_button_pressed`: the same gate for a column title. */
  function ColumnDialogResult(pressed: FormButton, title: string): (r: Option<string>)
    ensures r.Some? <==> pressed == SaveButton && title != ""
    ensures r.Some? ==> r.value == title && r.value != ""
  {
    if pressed == SaveButton then
      if title != "" then Some(title) else None
    else None
  }
}
