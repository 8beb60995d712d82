/**
 * The toast list of the document-store front end. `toast` appends one
 * message under a new random id; `dismiss(id)` drops every toast with that
 * id, and `dismiss()` with no id, or with the empty one, clears the list.
 */
module Toasts {
  import opened Wrappers
  import opened Seqs

  datatype Variant = Default | Success | Error | Warning

  /** A toast's content; the `action` element is not modelled. */
  datatype ToastData = ToastData(title: Option<string>, description: Option<string>, variant: Option<Variant>)

  datatype Toast = Toast(id: string, data: ToastData)

  /** The test `(t) => t.id !== id`. */
  function Others(id: string): Toast -> bool
  {
    (t: Toast) => t.id != id
  }

  /** The list after `dismiss(id)`; `if (id)` treats the empty id as no id. */
  function Dismissed(toasts: seq<Toast>, id: Option<string>): (r: seq<Toast>)
    ensures id.None? || id.value == "" ==> r == []
    ensures id.Some? && id.value != "" ==> forall i :: 0 <= i < |r| ==> r[i].id != id.value
  {
    if id.None? || id.value == "" then [] else Filter(toasts, Others(id.value))
  }

  /** Dismissing an id drops exactly the toasts carrying it and keeps the rest in their order. */
  lemma DismissKeepsOthers(toasts: seq<Toast>, id: string)
    requires id != ""
    ensures forall t :: t in Dismissed(toasts, Some(id)) <==> t in toasts && t.id != id
    ensures IsSubsequence(Dismissed(toasts, Some(id)), toasts)
  {
    FilterMembers(toasts, Others(id));
    FilterIsSubsequence(toasts, Others(id));
  }

  /** Dismissing an id no toast carries changes nothing. */
  lemma DismissAbsent(toasts: seq<Toast>, id: string)
    requires id != ""
    requires forall i :: 0 <= i < |toasts| ==> toasts[i].id != id
    ensures Dismissed(toasts, Some(id)) == toasts
  {
    FilterKeepsAll(toasts, Others(id));
  }

  /** Dismissing a new toast's id right after showing it gives back the list as it was. */
  lemma DismissUndoesToast(toasts: seq<Toast>, t: Toast)
    requires t.id != ""
    requires forall i :: 0 <= i < |toasts| ==> toasts[i].id != t.id
    ensures Dismissed(toasts + [t], Some(t.id)) == toasts
  {
    FilterAppend(toasts, [t], Others(t.id));
    FilterKeepsAll(toasts, Others(t.id));
    assert [t][..0] == [];
  }

  class ToastProvider {
    var toasts: seq<Toast>

    constructor ()
      ensures toasts == []
    {
      toasts := [];
    }

    /** `toast`: `newId` stands for the random id the source draws. */
    method ShowToast(data: ToastData, newId: string)
      modifies this
      ensures toasts == old(toasts) + [Toast(newId, data)]
    {
      toasts := toasts + [Toast(newId, data)];
    }

    /** `dismiss`. */
    method Dismiss(id: Option<string>)
      modifies this
      ensures toasts == Dismissed(old(toasts), id)
    {
      if id.Some? && id.value != "" {
        toasts := Filter(toasts, Others(id.value));
      } else {
        toasts := [];
      }
    }
  }
}
