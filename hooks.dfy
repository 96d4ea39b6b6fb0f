/** The `useApi` and `useForm` hooks (`src/hooks/useApi.ts`, `src/hooks/useForm.ts`).

    `useApi` keeps a datum, a loading flag and an error across calls of an API
    function. Its `execute` is asynchronous: it raises the flag and clears the error,
    awaits the call, then records the outcome and lowers the flag. The two halves
    are `Start` and `Finish` here, so that calls which overlap can be described;
    the callbacks the caller passes are the notice `Finish` returns.

    `useForm` keeps a record of form fields, a string-keyed map here. */
module Hooks {
  import opened Wrappers
  import Api

  /** What the awaited API call did: answered with an envelope, or threw. */
  datatype ApiAnswer<T> = Answered(envelope: Api.Envelope<T>) | Threw(message: string)

  /** The callback `execute` invokes, with its argument. */
  datatype Notice<T> = SuccessNotice(data: Option<T>) | ErrorNotice(message: string)

  datatype HookFields<T> = HookFields(data: Option<T>, loading: bool, error: Option<string>)

  /** Before any call, and after `reset`. */
  function Idle<T>(): HookFields<T> {
    HookFields(None, false, None)
  }

  const ErrorFallback := "An error occurred"
  const UnexpectedFallback := "An unexpected error occurred"

  /** `response.data || null`, where `falsy` says which values JavaScript counts as false. */
  function KeptData<T>(d: Option<T>, falsy: T -> bool): (r: Option<T>)
    ensures r.Some? <==> d.Some? && !falsy(d.value)
    ensures r.Some? ==> r == d
  {
    if d.Some? && !falsy(d.value) then d else None
  }

  /** The message of a failed call: `response.message || …` or `err.message || …`. */
  function FailureMessage<T>(a: ApiAnswer<T>): (m: string)
    requires !(a.Answered? && a.envelope.success)
    ensures m != ""
    ensures a.Answered? ==> m == TruthyOr(a.envelope.message, ErrorFallback)
    ensures a.Threw? ==> m == OrDefault(a.message, UnexpectedFallback)
  {
    if a.Answered? then TruthyOr(a.envelope.message, ErrorFallback) else OrDefault(a.message, UnexpectedFallback)
  }

  /** The state right after `execute` has begun. */
  function Started<T>(s: HookFields<T>): (r: HookFields<T>)
    ensures r.loading && r.error.None? && r.data == s.data
  {
    s.(loading := true, error := None)
  }

  /** The state once the awaited call has settled: the flag is lowered (`finally`),
      a successful envelope replaces the datum, and a failure records its message
      and leaves the datum alone. */
  function Finished<T>(s: HookFields<T>, a: ApiAnswer<T>, falsy: T -> bool): (r: HookFields<T>)
    ensures !r.loading
    ensures a.Answered? && a.envelope.success ==>
              r.data == KeptData(a.envelope.data, falsy) && r.error == s.error
    ensures !(a.Answered? && a.envelope.success) ==>
              r.data == s.data && r.error == Some(FailureMessage(a))
  {
    if a.Answered? && a.envelope.success then s.(data := KeptData(a.envelope.data, falsy), loading := false)
    else s.(error := Some(FailureMessage(a)), loading := false)
  }

  /** The callback invoked once the call has settled. */
  function NoticeOf<T>(a: ApiAnswer<T>): (n: Notice<T>)
    ensures n.SuccessNotice? <==> a.Answered? && a.envelope.success
    ensures n.SuccessNotice? ==> n.data == a.envelope.data
    ensures n.ErrorNotice? ==> n.message == FailureMessage(a)
  {
    if a.Answered? && a.envelope.success then SuccessNotice(a.envelope.data) else ErrorNotice(FailureMessage(a))
  }

  /** A whole call on its own: a success leaves no error and a failure keeps the
      datum; either way the flag ends lowered. */
  lemma WholeCall<T>(s: HookFields<T>, a: ApiAnswer<T>, falsy: T -> bool)
    ensures var r := Finished(Started(s), a, falsy);
            !r.loading
            && (a.Answered? && a.envelope.success ==> r == HookFields(KeptData(a.envelope.data, falsy), false, None))
            && (!(a.Answered? && a.envelope.success) ==> r == HookFields(s.data, false, Some(FailureMessage(a))))
  {
  }

  /** A falsy datum (`0`, `""`, `false`) in a successful envelope is recorded as no
      datum at all, though `onSuccess` receives it. */
  lemma FalsyDatumDropped<T>(s: HookFields<T>, v: T, falsy: T -> bool)
    requires falsy(v)
    ensures var a := Answered(Api.Envelope(true, Some(v), None, []));
            Finished(Started(s), a, falsy).data.None? && NoticeOf(a) == SuccessNotice(Some(v))
  {
  }

  /** Two overlapping calls: when the first settles the flag is lowered while the
      second is still awaited, and a failure of the first outlives the second's
      success. */
  lemma OverlappingCalls<T>(s: HookFields<T>, first: ApiAnswer<T>, second: ApiAnswer<T>, falsy: T -> bool)
    requires !(first.Answered? && first.envelope.success)
    requires second.Answered? && second.envelope.success
    ensures var midway := Finished(Started(Started(s)), first, falsy);
            !midway.loading
            && Finished(midway, second, falsy).error == Some(FailureMessage(first))
  {
  }

  class ApiHook<T> {
    var data: Option<T>
    var loading: bool
    var error: Option<string>
    /** Which data values JavaScript counts as false. */
    const falsy: T -> bool

    function Fields(): HookFields<T>
      reads this
    {
      HookFields(data, loading, error)
    }

    constructor (falsy: T -> bool)
      ensures Fields() == Idle() && this.falsy == falsy
    {
      this.falsy := falsy;
      data, loading, error := None, false, None;
    }

    /** The part of `execute` before the await. */
    method Start()
      modifies this
      ensures Fields() == Started(old(Fields()))
    {
      loading := true;
      error := None;
    }

    /** The part of `execute` after the await; returns the callback invoked. */
    method Finish(a: ApiAnswer<T>) returns (notice: Notice<T>)
      modifies this
      ensures Fields() == Finished(old(Fields()), a, falsy)
      ensures notice == NoticeOf(a)
    {
      match a {
        case Answered(envelope) =>
          if envelope.success {
            data := if envelope.data.Some? && !falsy(envelope.data.value) then envelope.data else None;
            notice := SuccessNotice(envelope.data);
          } else {
            var m := TruthyOr(envelope.message, ErrorFallback);
            error := Some(m);
            notice := ErrorNotice(m);
          }
        case Threw(message) =>
          var m := OrDefault(message, UnexpectedFallback);
          error := Some(m);
          notice := ErrorNotice(m);
      }
      loading := false;
    }

    /** `execute` when no other call overlaps it. */
    method Execute(a: ApiAnswer<T>) returns (notice: Notice<T>)
      modifies this
      ensures Fields() == Finished(Started(old(Fields())), a, falsy)
      ensures notice == NoticeOf(a)
    {
      Start();
      notice := Finish(a);
    }

    /** `reset`. */
    method Reset()
      modifies this
      ensures Fields() == Idle()
    {
      data, loading, error := None, false, None;
    }
  }

  /** A `useForm` record of fields. */
  type Form<V> = map<string, V>

  /** `handleChange(name, value)`: `{...prev, [name]: value}`. */
  function HandleChange<V>(form: Form<V>, name: string, value: V): (r: Form<V>)
    ensures name in r && r[name] == value
    ensures r.Keys == form.Keys + {name}
    ensures forall k :: k in form && k != name ==> r[k] == form[k]
  {
    form[name := value]
  }

  /** A run of `handleChange` calls in order. */
  function ApplyChanges<V>(form: Form<V>, changes: seq<(string, V)>): (r: Form<V>)
    ensures r.Keys == form.Keys + (set i | 0 <= i < |changes| :: changes[i].0)
    decreases |changes|
  {
    if changes == [] then form else ApplyChanges(HandleChange(form, changes[0].0, changes[0].1), changes[1..])
  }

  /** A field that no change names keeps its presence and its value. */
  lemma {:induction false} UnwrittenKept<V>(form: Form<V>, changes: seq<(string, V)>, k: string)
    requires forall i :: 0 <= i < |changes| ==> changes[i].0 != k
    ensures k in ApplyChanges(form, changes) <==> k in form
    ensures k in form ==> ApplyChanges(form, changes)[k] == form[k]
    decreases |changes|
  {
    if changes != [] {
      assert changes[0].0 != k;
      var tail := changes[1..];
      assert forall j :: 0 <= j < |tail| ==> tail[j] == changes[j + 1];
      UnwrittenKept(HandleChange(form, changes[0].0, changes[0].1), tail, k);
    }
  }

  /** A field holds the value of the last change that names it. */
  lemma {:induction false} LastWriteWins<V>(form: Form<V>, changes: seq<(string, V)>, k: string, i: nat)
    requires i < |changes| && changes[i].0 == k
    requires forall j :: i < j < |changes| ==> changes[j].0 != k
    ensures k in ApplyChanges(form, changes) && ApplyChanges(form, changes)[k] == changes[i].1
    decreases i
  {
    var next := HandleChange(form, changes[0].0, changes[0].1);
    var tail := changes[1..];
    assert forall j :: 0 <= j < |tail| ==> tail[j] == changes[j + 1];
    if i == 0 {
      UnwrittenKept(next, tail, k);
    } else {
      LastWriteWins(next, tail, k, i - 1);
    }
  }

  /** After a run of changes a field holds the last value written to it, and a field
      never written keeps its value. */
  lemma ChangesLookup<V>(form: Form<V>, changes: seq<(string, V)>, k: string)
    ensures (forall i :: 0 <= i < |changes| ==> changes[i].0 != k) ==>
              (k in ApplyChanges(form, changes) <==> k in form)
              && (k in form ==> ApplyChanges(form, changes)[k] == form[k])
    ensures forall i :: 0 <= i < |changes| && changes[i].0 == k && (forall j :: i < j < |changes| ==> changes[j].0 != k)
              ==> ApplyChanges(form, changes)[k] == changes[i].1
  {
    if forall i :: 0 <= i < |changes| ==> changes[i].0 != k {
      UnwrittenKept(form, changes, k);
    }
    forall i | 0 <= i < |changes| && changes[i].0 == k && (forall j :: i < j < |changes| ==> changes[j].0 != k)
      ensures ApplyChanges(form, changes)[k] == changes[i].1
    {
      LastWriteWins(form, changes, k, i);
    }
  }

  /** Writing back the value a field already has changes nothing. */
  lemma ChangeToSameValue<V>(form: Form<V>, name: string)
    requires name in form
    ensures HandleChange(form, name, form[name]) == form
  {
  }

  /** `resetForm`: back to the record the hook was created with. */
  function ResetForm<V>(initial: Form<V>, current: Form<V>): (r: Form<V>)
    ensures r == initial
  {
    initial
  }

  /** Whatever changes were made, `resetForm` restores the initial record, and the
      changes had touched only the fields they named. */
  lemma ResetAfterChanges<V>(initial: Form<V>, changes: seq<(string, V)>)
    ensures ResetForm(initial, ApplyChanges(initial, changes)) == initial
    ensures forall k :: k in initial && (forall i :: 0 <= i < |changes| ==> changes[i].0 != k) ==>
              k in ApplyChanges(initial, changes) && ApplyChanges(initial, changes)[k] == initial[k]
  {
    forall k | k in initial && (forall i :: 0 <= i < |changes| ==> changes[i].0 != k)
      ensures k in ApplyChanges(initial, changes) && ApplyChanges(initial, changes)[k] == initial[k]
    {
      ChangesLookup(initial, changes, k);
    }
  }
}
