/** The toast notifications (src/components/ui/Toast.tsx): a provider holds
    the list of visible toasts; showing one appends it, hiding removes every
    toast with the given id.

    A toast's id is the clock's reading in milliseconds as decimal text; the
    reading is the parameter `now`. The timer that hides a toast three
    seconds later is not modelled: `ShowToast` returns the id it would hide. */
module Toasts {
  import opened Js

  datatype ToastKind = Info | Success | Error

  datatype Toast = Toast(id: string, message: string, kind: ToastKind)

  const OUTSIDE_PROVIDER: string := "useToast must be used within a ToastProvider"

  /** `Date.now().toString()`. */
  function ToastId(now: nat): string
  {
    NatText(now)
  }

  function IdIsNot(id: string): Toast -> bool
  {
    (t: Toast) => t.id != id
  }

  /** `prev.filter(t => t.id !== id)`. */
  function WithoutId(toasts: seq<Toast>, id: string): seq<Toast>
  {
    Filter(toasts, IdIsNot(id))
  }

  /** The toast `showToast` appends; the kind defaults to `info`. */
  function NewToast(message: string, kind: Option<ToastKind>, now: nat): Toast
  {
    Toast(ToastId(now), message, if kind.Some? then kind.value else Info)
  }

  /** `useToast`: the provider's value, or the error thrown outside one. */
  function UseToast<C>(context: Option<C>): Completion<C>
  {
    match context
    case None => Threw(OUTSIDE_PROVIDER)
    case Some(c) => Returned(c)
  }

  // ---------------------------------------------------------------------------
  // Properties of hiding

  /** Hiding removes every toast with the id and keeps every other toast as
      often as before (the order is kept by `WithoutIdAppend`). */
  lemma WithoutIdContents(toasts: seq<Toast>, id: string, t: Toast)
    ensures forall i :: 0 <= i < |WithoutId(toasts, id)| ==> WithoutId(toasts, id)[i].id != id
    ensures multiset(WithoutId(toasts, id))[t] == if t.id == id then 0 else multiset(toasts)[t]
  {
    FilterMultiplicity(toasts, IdIsNot(id), t);
  }

  /** Hiding an id no toast has changes nothing, and hiding twice is hiding once. */
  lemma WithoutIdAbsentAndIdempotent(toasts: seq<Toast>, id: string)
    ensures (forall i :: 0 <= i < |toasts| ==> toasts[i].id != id) ==> WithoutId(toasts, id) == toasts
    ensures WithoutId(WithoutId(toasts, id), id) == WithoutId(toasts, id)
  {
    if forall i :: 0 <= i < |toasts| ==> toasts[i].id != id {
      FilterKeepsAll(toasts, IdIsNot(id));
    }
    FilterIdempotent(toasts, IdIsNot(id));
  }

  /** Hiding distributes over a list split in two, so what survives keeps
      its order. */
  lemma WithoutIdAppend(a: seq<Toast>, b: seq<Toast>, id: string)
    ensures WithoutId(a + b, id) == WithoutId(a, id) + WithoutId(b, id)
  {
    FilterAppend(a, b, IdIsNot(id));
  }

  /** Showing a toast and then hiding its id returns to the list as it was,
      provided no visible toast shares that millisecond's id. */
  lemma ShowThenHide(toasts: seq<Toast>, message: string, kind: Option<ToastKind>, now: nat)
    requires forall i :: 0 <= i < |toasts| ==> toasts[i].id != ToastId(now)
    ensures WithoutId(toasts + [NewToast(message, kind, now)], ToastId(now)) == toasts
  {
    var id := ToastId(now);
    WithoutIdAppend(toasts, [NewToast(message, kind, now)], id);
    WithoutIdAbsentAndIdempotent(toasts, id);
    assert WithoutId([NewToast(message, kind, now)], id) == [];
  }

  /** Two toasts shown in the same millisecond share an id, so hiding the
      first (as its timer does) also removes the second. */
  lemma SameMillisecondToastsHideTogether(toasts: seq<Toast>, m1: string, m2: string, k1: Option<ToastKind>, k2: Option<ToastKind>, now: nat)
    ensures NewToast(m1, k1, now).id == NewToast(m2, k2, now).id
    ensures WithoutId(toasts + [NewToast(m1, k1, now)] + [NewToast(m2, k2, now)], NewToast(m1, k1, now).id)
              == WithoutId(toasts, ToastId(now))
  {
    var id := ToastId(now);
    var t1 := NewToast(m1, k1, now);
    var t2 := NewToast(m2, k2, now);
    WithoutIdAppend(toasts + [t1], [t2], id);
    WithoutIdAppend(toasts, [t1], id);
    assert WithoutId([t1], id) == [];
    assert WithoutId([t2], id) == [];
  }

  class ToastProvider {
    var toasts: seq<Toast>

    constructor ()
      ensures toasts == []
    {
      toasts := [];
    }

    /** Appends one toast at the end and returns its id. */
    method ShowToast(message: string, kind: Option<ToastKind>, now: nat) returns (id: string)
      modifies this
      ensures id == ToastId(now)
      ensures toasts == old(toasts) + [NewToast(message, kind, now)]
    {
      id := ToastId(now);
      toasts := toasts + [Toast(id, message, if kind.Some? then kind.value else Info)];
    }

    /** Removes every toast with the id. */
    method HideToast(id: string)
      modifies this
      ensures toasts == WithoutId(old(toasts), id)
    {
      toasts := Filter(toasts, IdIsNot(id));
    }
  }
}
