/**
  The toast store of `ToastProvider`: the `toasts` state list, replaced by
  `toast` (append), `dismiss` (filter by id) and `dismissAll`, and the
  `useToast` guard. The random id is a parameter of `toast`, and the
  auto-dismiss `setTimeout` is recorded in `scheduled` and fired by
  `OnAutoDismiss`.
*/
module Toasts {
  import opened Wrappers
  import opened Seqs

  datatype ToastVariant = Default | Success | Warning | Destructive | Info

  /** What a caller passes to `toast`: every field but the id; `duration` may be omitted. */
  datatype ToastRequest = ToastRequest(
    title: string,
    description: Option<string>,
    variant: ToastVariant,
    duration: Option<int>,
    actionLabel: Option<string>)

  datatype Toast = Toast(
    id: string,
    title: string,
    description: Option<string>,
    variant: ToastVariant,
    duration: Option<int>,
    actionLabel: Option<string>)

  /** An auto-dismiss timer: the toast id it will dismiss and its delay in milliseconds. */
  datatype Timer = Timer(id: string, delay: int)

  const DefaultDuration := 5000

  /** `{ ...newToast, id, duration: newToast.duration ?? 5000 }`. */
  function WithId(req: ToastRequest, id: string): (t: Toast)
    ensures t.id == id && t.title == req.title && t.description == req.description
    ensures t.variant == req.variant && t.actionLabel == req.actionLabel
    ensures t.duration.Some?
    ensures req.duration.Some? ==> t.duration == req.duration
    ensures req.duration.None? ==> t.duration == Some(DefaultDuration)
  {
    Toast(id, req.title, req.description, req.variant,
          Some(if req.duration.Some? then req.duration.value else DefaultDuration),
          req.actionLabel)
  }

  /** `duration && duration > 0`: a zero or negative duration schedules nothing. */
  predicate AutoDismisses(t: Toast)
  {
    t.duration.Some? && t.duration.value > 0
  }

  /**
    A toast is dismissed automatically exactly when its duration was omitted
    or given as a positive number; an explicit 0 keeps it until dismissed.
  */
  lemma AutoDismissIff(req: ToastRequest, id: string)
    ensures AutoDismisses(WithId(req, id)) <==> req.duration.None? || req.duration.value > 0
    ensures req.duration == Some(0) ==> WithId(req, id).duration == Some(0)
  {
  }

  /** `prev.filter(toast => toast.id !== id)`. */
  function RemoveId(toasts: seq<Toast>, id: string): seq<Toast>
  {
    Filter(toasts, (t: Toast) => t.id != id)
  }

  /**
    Dismissing removes every toast with the id and nothing else: what stays
    is exactly the toasts with another id, in their original order.
  */
  lemma RemoveIdSpec(toasts: seq<Toast>, id: string)
    ensures forall t :: t in RemoveId(toasts, id) <==> t in toasts && t.id != id
    ensures IsSubsequence(RemoveId(toasts, id), toasts)
  {
    forall t ensures t in RemoveId(toasts, id) <==> t in toasts && t.id != id {
      FilterMember(toasts, (t: Toast) => t.id != id, t);
    }
    FilterIsSubsequence(toasts, (t: Toast) => t.id != id);
  }

  /** Dismissing an id no toast has changes nothing. */
  lemma RemoveAbsentId(toasts: seq<Toast>, id: string)
    requires forall i :: 0 <= i < |toasts| ==> toasts[i].id != id
    ensures RemoveId(toasts, id) == toasts
  {
    FilterAllKept(toasts, (t: Toast) => t.id != id);
  }

  lemma RemoveIdIdempotent(toasts: seq<Toast>, id: string)
    ensures RemoveId(RemoveId(toasts, id), id) == RemoveId(toasts, id)
  {
    FilterIdempotent(toasts, (t: Toast) => t.id != id);
  }

  /** Dismissing a toast just added with a fresh id gives back the list from before. */
  lemma RemoveJustAdded(toasts: seq<Toast>, req: ToastRequest, id: string)
    requires forall i :: 0 <= i < |toasts| ==> toasts[i].id != id
    ensures RemoveId(toasts + [WithId(req, id)], id) == toasts
  {
    FilterSnoc(toasts, WithId(req, id), (t: Toast) => t.id != id);
    RemoveAbsentId(toasts, id);
  }

  class ToastStore {
    var toasts: seq<Toast>
    /** Auto-dismiss timers set and not yet fired. */
    var scheduled: seq<Timer>

    constructor()
      ensures toasts == [] && scheduled == []
    {
      toasts := [];
      scheduled := [];
    }

    /** `toast`: append the request with its id and schedule its dismissal when the duration is positive. */
    method Add(req: ToastRequest, id: string)
      modifies this
      ensures toasts == old(toasts) + [WithId(req, id)]
      ensures scheduled == old(scheduled) +
                (if AutoDismisses(WithId(req, id)) then [Timer(id, WithId(req, id).duration.value)] else [])
    {
      var t := WithId(req, id);
      toasts := toasts + [t];
      if t.duration.Some? && t.duration.value > 0 {
        scheduled := scheduled + [Timer(id, t.duration.value)];
      }
    }

    method Dismiss(id: string)
      modifies this
      ensures toasts == RemoveId(old(toasts), id)
      ensures scheduled == old(scheduled)
    {
      toasts := Filter(toasts, (t: Toast) => t.id != id);
    }

    method DismissAll()
      modifies this
      ensures toasts == [] && scheduled == old(scheduled)
    {
      toasts := [];
    }

    /** The timer at index `k` fires and dismisses its toast. */
    method OnAutoDismiss(k: nat)
      requires k < |scheduled|
      modifies this
      ensures toasts == RemoveId(old(toasts), old(scheduled[k].id))
      ensures scheduled == old(scheduled[..k] + scheduled[k + 1..])
    {
      var id := scheduled[k].id;
      scheduled := scheduled[..k] + scheduled[k + 1..];
      Dismiss(id);
    }
  }

  const OutsideProvider := "useToast deve ser usado dentro de um ToastProvider"

  /** `useToast`: the provider's store, or the error thrown outside a provider. */
  function UseToast(context: Option<ToastStore>): (r: Result<ToastStore>)
    ensures r.Err? <==> context.None?
    ensures r.Err? ==> r.error == OutsideProvider
    ensures r.Ok? ==> Some(r.value) == context
  {
    match context
    case None => Err(OutsideProvider)
    case Some(store) => Ok(store)
  }
}
