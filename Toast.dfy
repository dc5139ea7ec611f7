/**
 * The toast notifications (src/components/ui/Toast.tsx): a list of toasts
 * that grows at the end and shrinks by filtering out an id, either when the
 * user dismisses a toast or when its timer fires.
 */
module Toast {

  import opened Wrappers

  datatype ToastKind = Error | Success | Info

  datatype Toast = Toast(id: string, message: string, kind: ToastKind)

  const MissingProvider := "useToast must be used within a ToastProvider"

  /**
   * `useToast`: the provider's value, or the error thrown when no provider
   * is above the caller.
   */
  function UseToast<C>(context: Option<C>): (r: Result<C, string>)
    ensures r.Success? <==> context.Some?
    ensures context.Some? ==> r.value == context.value
    ensures context.None? ==> r.error == MissingProvider
  {
    match context
    case Some(c) => Result.Success(c)
    case None => Failure(MissingProvider)
  }

  /** `toasts.filter(t => t.id !== id)` */
  function Without(toasts: seq<Toast>, id: string): (r: seq<Toast>)
    ensures |r| <= |toasts|
  {
    if toasts == [] then []
    else (if toasts[0].id == id then [] else [toasts[0]]) + Without(toasts[1..], id)
  }

  predicate HasId(toasts: seq<Toast>, id: string) {
    exists t | t in toasts :: t.id == id
  }

  /** The kept toasts are exactly those of the list with a different id. */
  lemma {:induction false} WithoutMembers(toasts: seq<Toast>, id: string)
    ensures forall t | t in Without(toasts, id) :: t in toasts && t.id != id
    ensures forall t | t in toasts && t.id != id :: t in Without(toasts, id)
  {
    if toasts != [] {
      WithoutCons(toasts, id);
      WithoutMembers(toasts[1..], id);
      assert toasts == [toasts[0]] + toasts[1..];
    }
  }

  /** One step of the filter: the head is kept unless it has the id. */
  lemma WithoutCons(s: seq<Toast>, id: string)
    requires s != []
    ensures Without(s, id) == (if s[0].id == id then [] else [s[0]]) + Without(s[1..], id)
  {
  }

  /** Filtering distributes over concatenation, so the survivors keep their order. */
  lemma {:induction false} WithoutAppend(a: seq<Toast>, b: seq<Toast>, id: string)
    ensures Without(a + b, id) == Without(a, id) + Without(b, id)
  {
    if a == [] {
      assert a + b == b;
    } else {
      var head := if a[0].id == id then [] else [a[0]];
      calc {
        Without(a + b, id);
        { assert (a + b)[0] == a[0] && (a + b)[1..] == a[1..] + b; WithoutCons(a + b, id); }
        head + Without(a[1..] + b, id);
        { WithoutAppend(a[1..], b, id); }
        head + (Without(a[1..], id) + Without(b, id));
        (head + Without(a[1..], id)) + Without(b, id);
        { WithoutCons(a, id); }
        Without(a, id) + Without(b, id);
      }
    }
  }

  /** Dismissing an id that is not shown changes nothing. */
  lemma {:induction false} WithoutAbsent(toasts: seq<Toast>, id: string)
    requires !HasId(toasts, id)
    ensures Without(toasts, id) == toasts
  {
    if toasts != [] {
      assert toasts[0] in toasts;
      assert forall t | t in toasts[1..] :: t in toasts;
      WithoutAbsent(toasts[1..], id);
    }
  }

  /**
   * Dismissing twice is dismissing once: the timer firing after a manual
   * dismissal, or a second click, does nothing.
   */
  lemma WithoutIdempotent(toasts: seq<Toast>, id: string)
    ensures Without(Without(toasts, id), id) == Without(toasts, id)
  {
    WithoutMembers(toasts, id);
    WithoutAbsent(Without(toasts, id), id);
  }

  /** Showing a toast under a fresh id and then dismissing it restores the list. */
  lemma ShowThenDismiss(toasts: seq<Toast>, t: Toast)
    requires !HasId(toasts, t.id)
    ensures Without(toasts + [t], t.id) == toasts
  {
    WithoutAppend(toasts, [t], t.id);
    WithoutAbsent(toasts, t.id);
    assert Without([t], t.id) == [];
  }

  class ToastProvider {
    var toasts: seq<Toast>

    constructor ()
      ensures toasts == []
    {
      toasts := [];
    }

    /**
     * `showToast(message, type = 'error')`, given the id built from the
     * clock and a random suffix. The matching timer is `Dismiss(id)`.
     */
    method ShowToast(message: string, kind: Option<ToastKind>, id: string)
      modifies this
      ensures toasts == old(toasts) + [Toast(id, message, kind.GetOr(Error))]
      ensures toasts[|toasts| - 1].kind == (if kind.Some? then kind.value else Error)
    {
      toasts := toasts + [Toast(id, message, kind.GetOr(Error))];
    }

    /** `dismissToast(id)`, and the auto-dismiss timer for `id`. */
    method Dismiss(id: string)
      modifies this
      ensures toasts == Without(old(toasts), id)
      ensures !HasId(toasts, id)
    {
      WithoutMembers(toasts, id);
      toasts := Without(toasts, id);
    }
  }
}
