/**
 * The toast store: a list of notifications, appended to by `showToast` and filtered by id by
 * `removeToast`. The random id is a parameter; the auto-remove timer is the same removal,
 * run later.
 */
module ToastStore {
  import opened Common

  datatype ToastKind = Success | Error | Info
  datatype Toast = Toast(id: string, message: string, kind: ToastKind, duration: int)

  const DefaultDuration := 3000

  /** `toasts.filter(t => t.id !== id)`. */
  function Without(toasts: seq<Toast>, id: string): seq<Toast> {
    Filter(toasts, (t: Toast) => t.id != id)
  }

  predicate HasId(toasts: seq<Toast>, id: string) {
    exists i :: 0 <= i < |toasts| && toasts[i].id == id
  }

  class ToastStore {
    var toasts: seq<Toast>

    constructor()
      ensures toasts == []
    {
      toasts := [];
    }

    /** `showToast`: exactly one toast is appended at the end; the duration defaults to 3000 ms. */
    method ShowToast(message: string, kind: ToastKind, duration: Option<int>, id: string)
      modifies this
      ensures toasts == old(toasts) + [Toast(id, message, kind, duration.GetOr(DefaultDuration))]
    {
      toasts := toasts + [Toast(id, message, kind, duration.GetOr(DefaultDuration))];
    }

    /** `removeToast`, and the timer's removal after the duration. */
    method RemoveToast(id: string)
      modifies this
      ensures toasts == Without(old(toasts), id)
    {
      toasts := Without(toasts, id);
    }
  }

  /** Removal drops every toast with the id and keeps every other one. */
  lemma WithoutDropsExactlyThatId(toasts: seq<Toast>, id: string)
    ensures !HasId(Without(toasts, id), id)
    ensures forall t :: t in toasts && t.id != id ==> t in Without(toasts, id)
    ensures |Without(toasts, id)| <= |toasts|
  {
    var r := Without(toasts, id);
    forall i | 0 <= i < |r|
      ensures r[i].id != id
    {
      assert r[i] in r;
    }
  }

  /** Removing an id no toast carries changes nothing. */
  lemma UnknownIdChangesNothing(toasts: seq<Toast>, id: string)
    requires !HasId(toasts, id)
    ensures Without(toasts, id) == toasts
  {
    forall t | t in toasts
      ensures t.id != id
    {
      var i :| 0 <= i < |toasts| && toasts[i] == t;
    }
    FilterKeepsAll(toasts, (t: Toast) => t.id != id);
  }

  /** Removing the same id twice is removing it once. */
  lemma RemoveTwiceIsRemoveOnce(toasts: seq<Toast>, id: string)
    ensures Without(Without(toasts, id), id) == Without(toasts, id)
  {
    FilterIdempotent(toasts, (t: Toast) => t.id != id);
  }

  /**
   * Showing a toast under a fresh id and then removing that id (as its timer does) restores
   * the list, and removing another toast meanwhile does not disturb the new one.
   */
  lemma ShowThenRemoveRestores(toasts: seq<Toast>, t: Toast, other: string)
    requires !HasId(toasts, t.id)
    ensures Without(toasts + [t], t.id) == toasts
    ensures other != t.id ==> Without(toasts + [t], other) == Without(toasts, other) + [t]
  {
    var keep := (x: Toast) => x.id != t.id;
    FilterAppend(toasts, [t], keep);
    UnknownIdChangesNothing(toasts, t.id);
    assert Filter([t], keep) == Filter([t][..0], keep) + [];
    var keepOther := (x: Toast) => x.id != other;
    FilterAppend(toasts, [t], keepOther);
    assert Filter([t], keepOther) == Filter([t][..0], keepOther) + (if keepOther(t) then [t] else []);
  }
}
