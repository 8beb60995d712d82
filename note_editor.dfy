/**
 * The personal-note part of the enhanced shortcut card: the category badge
 * colour, and the note editor. The editor holds the stored note (or none),
 * the text being edited, whether the dialog is open and whether a store
 * call is running. Saving updates the note when one is loaded and creates
 * it otherwise; each call is a start step and a finish step given the
 * call's outcome, and the finish step raises a toast.
 */
module NoteEditor {
  import opened Wrappers
  import opened Text
  import DocStore
  import Toasts

  /** The badge classes for a Tailwind colour name: a light background and text, and their dark-mode pair. */
  function ColorClass(color: string): string
  {
    "bg-" + color + "-100 text-" + color + "-800 dark:bg-" + color + "-900/30 dark:text-" + color + "-300"
  }

  /** The colour name can be read back from the class, from its fourth character on. */
  lemma ColorClassAt(color: string, k: nat)
    requires k < |color|
    ensures |ColorClass(color)| > 3 + k && ColorClass(color)[3 + k] == color[k]
  {
    var rest := "-100 text-" + color + "-800 dark:bg-" + color + "-900/30 dark:text-" + color + "-300";
    assert ColorClass(color) == "bg-" + color + rest;
  }

  const GRAY_CLASS := ColorClass("gray")

  /** The five category names the badge colours. */
  const COLORED_CATEGORIES: seq<string> := ["navigation", "editing", "debugging", "system", "window"]

  /** `getCategoryColorClass`: a light and a dark class pair per known category, gray for the rest. */
  function CategoryColorClass(category: string): (r: string)
    ensures r == GRAY_CLASS <==> category !in COLORED_CATEGORIES
  {
    ColorClassAt("gray", 0);
    ColorClassAt("gray", 2);
    ColorClassAt("blue", 0);
    ColorClassAt("green", 2);
    ColorClassAt("red", 0);
    ColorClassAt("purple", 0);
    ColorClassAt("yellow", 0);
    ColorClass(ColorName(category))
  }

  /** The colour name behind a category's badge. */
  function ColorName(category: string): string
  {
    if category == "navigation" then "blue"
    else if category == "editing" then "green"
    else if category == "debugging" then "red"
    else if category == "system" then "purple"
    else if category == "window" then "yellow"
    else "gray"
  }

  /** Each coloured category has a class of its own: the badge tells them apart. */
  lemma ColorClassesDistinct(a: string, b: string)
    requires a in COLORED_CATEGORIES && b in COLORED_CATEGORIES && a != b
    ensures CategoryColorClass(a) != CategoryColorClass(b)
  {
    // The colour names start with different letters.
    ColorClassAt(ColorName(a), 0);
    ColorClassAt(ColorName(b), 0);
  }

  /** A toast with a title and a description. */
  function Notice(title: string, description: string): Toasts.ToastData
  {
    Toasts.ToastData(Some(title), Some(description), None)
  }

  /** The toast a finished save raises: by kind of save and by outcome. */
  function SaveNotice(updating: bool, succeeded: bool): Toasts.ToastData
  {
    if succeeded then
      if updating then Notice("Nota actualizada", "Tu nota personal ha sido actualizada.")
      else Notice("Nota guardada", "Tu nota personal ha sido guardada.")
    else
      if updating then Notice("Error", "No se pudo actualizar la nota.")
      else Notice("Error", "No se pudo guardar la nota.")
  }

  /** The toast a finished delete raises, by outcome. */
  function DeleteNotice(succeeded: bool): Toasts.ToastData
  {
    if succeeded then Notice("Nota eliminada", "Tu nota personal ha sido eliminada.")
    else Notice("Error", "No se pudo eliminar la nota.")
  }

  /**
   * A save toast is titled "Error" exactly when the save failed, and no two
   * (kind, outcome) pairs raise the same toast.
   */
  lemma SaveNoticeTells(updating: bool, succeeded: bool, updating': bool, succeeded': bool)
    ensures SaveNotice(updating, succeeded).title == Some("Error") <==> !succeeded
    ensures SaveNotice(updating, succeeded).variant == None
    ensures SaveNotice(updating, succeeded) == SaveNotice(updating', succeeded') ==> updating == updating' && succeeded == succeeded'
  {
  }

  /** A delete toast is titled "Error" exactly when the delete failed. */
  lemma DeleteNoticeTells(succeeded: bool)
    ensures DeleteNotice(succeeded).title == Some("Error") <==> !succeeded
    ensures DeleteNotice(succeeded).variant == None
  {
  }

  /** Which store call a save starts, with the text it sends. */
  datatype SaveCall = Create(text: string) | Update(text: string)

  class NoteCard {
    const toaster: Toasts.ToastProvider
    var userNote: Option<DocStore.NoteDoc>
    var noteText: string
    var noteDialogOpen: bool
    var isLoading: bool

    constructor (toaster: Toasts.ToastProvider)
      ensures this.toaster == toaster
      ensures userNote == None && noteText == "" && !noteDialogOpen && !isLoading
    {
      this.toaster := toaster;
      userNote := None;
      noteText := "";
      noteDialogOpen := false;
      isLoading := false;
    }

    /** The save button's `disabled={!noteText.trim()}`, negated: the text holds a character that is not white space. */
    function SaveEnabled(): (r: bool)
      reads this
      ensures r <==> exists i :: 0 <= i < |noteText| && !IsSpace(noteText[i])
    {
      TrimEmptyIffBlank(noteText);
      Trim(noteText) != ""
    }

    /** The `{userNote && ...}` guard on the delete button: it shows only while a note is loaded. */
    function DeleteOffered(): (r: bool)
      reads this
      ensures r <==> userNote.Some?
    {
      userNote != None
    }

    /** The mount effect's fetch: a fetched note (or null) replaces the held one; a failed fetch changes nothing. */
    method FetchNote(fetched: Option<Option<DocStore.NoteDoc>>)
      modifies this
      ensures userNote == (if fetched.Some? then fetched.value else old(userNote))
      ensures noteText == old(noteText) && noteDialogOpen == old(noteDialogOpen) && isLoading == old(isLoading)
    {
      if fetched.Some? {
        userNote := fetched.value;
      }
    }

    /** `handleNoteDialogOpen`: the dialog opens on the stored note's text, or on empty text. */
    method OpenDialog()
      modifies this
      ensures noteDialogOpen
      ensures noteText == (if old(userNote).Some? then old(userNote).value.note else "")
      ensures userNote == old(userNote) && isLoading == old(isLoading)
    {
      noteText := if userNote.Some? then userNote.value.note else "";
      noteDialogOpen := true;
    }

    /** The dialog's cancel button, or its own close. */
    method CloseDialog()
      modifies this
      ensures !noteDialogOpen
      ensures userNote == old(userNote) && noteText == old(noteText) && isLoading == old(isLoading)
    {
      noteDialogOpen := false;
    }

    /** The text area's `onChange`. */
    method EditText(text: string)
      modifies this
      ensures noteText == text
      ensures userNote == old(userNote) && noteDialogOpen == old(noteDialogOpen) && isLoading == old(isLoading)
    {
      noteText := text;
    }

    /** `handleSaveNote` and the start of the handler it calls: update a loaded note, else create one. */
    method SaveNote() returns (call: SaveCall)
      modifies this
      ensures call.Update? <==> old(userNote).Some?
      ensures call.text == old(noteText)
      ensures isLoading
      ensures userNote == old(userNote) && noteText == old(noteText) && noteDialogOpen == old(noteDialogOpen)
    {
      if userNote.Some? {
        call := Update(noteText);
      } else {
        call := Create(noteText);
      }
      isLoading := true;
    }

    /**
     * The end of `handleCreateNote` or `handleUpdateNote`. `refetched` is
     * the note read back after the write, or None when the write or the
     * read threw. Success shows the read-back note, closes the dialog and
     * clears the text; failure keeps all three. Either way one toast is
     * added and loading ends.
     */
    method FinishSave(call: SaveCall, refetched: Option<Option<DocStore.NoteDoc>>, toastId: string)
      modifies this, toaster
      ensures !isLoading
      ensures refetched.Some? ==> userNote == refetched.value && !noteDialogOpen && noteText == ""
      ensures refetched.None? ==>
        userNote == old(userNote) && noteDialogOpen == old(noteDialogOpen) && noteText == old(noteText)
      ensures toaster.toasts == old(toaster.toasts) + [Toasts.Toast(toastId, SaveNotice(call.Update?, refetched.Some?))]
    {
      if refetched.Some? {
        userNote := refetched.value;
        noteDialogOpen := false;
        noteText := "";
      }
      toaster.ShowToast(SaveNotice(call.Update?, refetched.Some?), toastId);
      isLoading := false;
    }

    /** The start of `handleDeleteNote`. */
    method DeleteNote()
      modifies this
      ensures isLoading
      ensures userNote == old(userNote) && noteText == old(noteText) && noteDialogOpen == old(noteDialogOpen)
    {
      isLoading := true;
    }

    /** The end of `handleDeleteNote`: success forgets the note, closes the dialog and clears the text. */
    method FinishDelete(succeeded: bool, toastId: string)
      modifies this, toaster
      ensures !isLoading
      ensures succeeded ==> userNote == None && !noteDialogOpen && noteText == ""
      ensures !succeeded ==>
        userNote == old(userNote) && noteDialogOpen == old(noteDialogOpen) && noteText == old(noteText)
      ensures toaster.toasts == old(toaster.toasts) + [Toasts.Toast(toastId, DeleteNotice(succeeded))]
    {
      if succeeded {
        userNote := None;
        noteDialogOpen := false;
        noteText := "";
      }
      toaster.ShowToast(DeleteNotice(succeeded), toastId);
      isLoading := false;
    }
  }

  /**
   * A save against the store followed by its read-back: the note the
   * editor then holds carries the saved text, whether the save created or
   * updated it.
   */
  lemma SavedNoteHoldsText(notes: seq<DocStore.NoteDoc>, userId: int, shortcutId: string, text: string, newId: string, now: nat)
    ensures var stored := DocStore.UpsertedNotes(notes, userId, shortcutId, text, newId, now);
      DocStore.UserNote(stored, userId, shortcutId).Some? && DocStore.UserNote(stored, userId, shortcutId).value.note == text
    ensures DocStore.UserNote(notes, userId, shortcutId).Some? ==>
      var updated := DocStore.UpdatedNotes(notes, userId, shortcutId, text, now);
      updated.Ok? && DocStore.UserNote(updated.value, userId, shortcutId).Some?
        && DocStore.UserNote(updated.value, userId, shortcutId).value.note == text
  {
    DocStore.UpsertThenRead(notes, userId, shortcutId, text, newId, now);
    DocStore.UpdateThenRead(notes, userId, shortcutId, text, now);
  }
}
