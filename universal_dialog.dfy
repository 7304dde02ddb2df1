/**
 * The dialog controller (`UniversalDialog`, a `DialogFragment`): the gating
 * in `setView`, `setDialog` and `onSaveInstanceState`.
 *
 * Inflating the layout, applying the window setup and calling the two
 * application callbacks are platform or application effects; the model
 * records each as an event appended to the controller's trace.
 */
module Controller {
  import opened Wrappers
  import opened JavaTypes
  import opened DialogParams
  import opened Parcels
  import opened WindowSetup

  /** The key under which the record is saved. */
  const SaveStateKey: string := "params"

  /** The view tree inflated from a layout; its contents belong to the platform. */
  datatype View = View(layoutResId: Int32)

  /** The lookup helper built over an inflated view. */
  datatype ViewHolder = ViewHolder(view: View)

  /**
   * A saved-state bundle, as marshalled by the platform: each key maps to the
   * parcelled values stored under it. Keys other than `SaveStateKey` are the
   * application's own.
   */
  datatype Bundle = Bundle(entries: map<string, seq<Value>>)

  /** What the controller asks the platform or the application to do. */
  datatype Event =
    | Inflate(layoutResId: Int32)
    | BindView(bindListener: BindViewListener)
    | SaveState(saveListener: SaveStateListener, resume: bool)
    | ApplyWindow(setup: Setup)

  /** `getParcelable(SaveStateKey)`: the saved record, or `null` when there is none. */
  function SavedParams(b: Bundle): (r: Option<Params>)
    ensures r.Some? ==> SaveStateKey in b.entries
    ensures r.Some? ==> r.value.bindViewListener.None? && r.value.saveStateListener.None?
  {
    if SaveStateKey in b.entries then Unparcel(b.entries[SaveStateKey], 0) else None
  }

  /**
   * The record `setView` works with: the one already held, or, when there is
   * none and a saved bundle exists, the one restored from that bundle.
   */
  function Restore(params: Option<Params>, saved: Option<Bundle>): (r: Option<Params>)
    ensures params.Some? ==> r == params
    ensures saved.None? ==> r == params
    ensures params.None? && saved.Some? ==> r == SavedParams(saved.value)
  {
    if params.None? && saved.Some? then SavedParams(saved.value) else params
  }

  /** `setView` inflates exactly when it has a record with a positive layout id. */
  predicate Inflates(params: Option<Params>)
  {
    params.Some? && params.value.layoutResId > 0
  }

  /**
   * The events `setView` produces for the record it ends up with: nothing
   * when it refuses to inflate; otherwise the inflation, then the bind
   * callback when set, then the save-state callback in restore mode when set
   * and a saved bundle exists.
   */
  function SetViewEvents(params: Option<Params>, hasSaved: bool): seq<Event>
  {
    if !Inflates(params) then []
    else
      var p := params.value;
      [Inflate(p.layoutResId)]
      + (if p.bindViewListener.Some? then [BindView(p.bindViewListener.value)] else [])
      + (if p.saveStateListener.Some? && hasSaved then [SaveState(p.saveStateListener.value, true)] else [])
  }

  /** The events `onSaveInstanceState` produces: the save-state callback in save mode, when set. */
  function SaveEvents(p: Params): seq<Event>
  {
    if p.saveStateListener.Some? then [SaveState(p.saveStateListener.value, false)] else []
  }

  /** The bundle after `putParcelable(SaveStateKey, p)`. */
  function SaveInto(outState: Bundle, p: Params): Bundle
  {
    Bundle(outState.entries[SaveStateKey := Parcelled(p)])
  }

  /**
   * The event at `i` is in its place: a bind callback comes right after an
   * inflation, and a restore-mode save-state callback right after an
   * inflation or right after the bind callback that followed one.
   */
  predicate WellPlaced(t: seq<Event>, i: nat)
    requires i < |t|
  {
    && (t[i].BindView? ==> 0 < i && t[i - 1].Inflate?)
    && (t[i].SaveState? && t[i].resume ==>
          (0 < i && t[i - 1].Inflate?) || (1 < i && t[i - 1].BindView? && t[i - 2].Inflate?))
  }

  /** Every bind and restore-mode save-state callback in the trace is in its place. */
  predicate SetViewCallbacksFollowInflation(t: seq<Event>)
  {
    forall i: nat | i < |t| :: WellPlaced(t, i)
  }

  /** The order is kept when two well-ordered traces are joined. */
  lemma CallbacksFollowInflationAppend(a: seq<Event>, b: seq<Event>)
    requires SetViewCallbacksFollowInflation(a) && SetViewCallbacksFollowInflation(b)
    ensures SetViewCallbacksFollowInflation(a + b)
  {
    var t := a + b;
    forall i: nat | i < |t|
      ensures WellPlaced(t, i)
    {
      if i < |a| {
        assert WellPlaced(a, i);
        assert t[..|a|] == a;
      } else {
        var j: nat := i - |a|;
        assert WellPlaced(b, j);
        assert t[|a|..] == b;
      }
    }
  }

  /** The events of one `setView` are in order on their own. */
  lemma SetViewEventsWellOrdered(params: Option<Params>, hasSaved: bool)
    ensures SetViewCallbacksFollowInflation(SetViewEvents(params, hasSaved))
  {
  }

  /**
   * What `setView` calls, and in which order: it inflates exactly when the
   * record allows it, and then first; the bind callback fires exactly once,
   * right after the view exists, if and only if it is set; the save-state
   * callback fires at most once, always in restore mode, if and only if it
   * is set and a saved bundle exists. Nothing fires when it refuses to inflate.
   */
  lemma SetViewCallbacks(params: Option<Params>, hasSaved: bool)
    ensures var t := SetViewEvents(params, hasSaved);
      && (t != [] <==> Inflates(params))
      && (Inflates(params) ==> t[0] == Inflate(params.value.layoutResId))
      && (Inflates(params) ==>
            |t| == 1 + (if params.value.bindViewListener.Some? then 1 else 0)
                     + (if params.value.saveStateListener.Some? && hasSaved then 1 else 0))
      && (forall i | 0 < i < |t| :: !t[i].Inflate? && !t[i].ApplyWindow?)
      && (forall e <- t :: e.Inflate? ==> e == t[0])
      && (forall e <- t :: e.BindView? ==> params.Some? && params.value.bindViewListener == Some(e.bindListener))
      && (Inflates(params) && params.value.bindViewListener.Some? ==>
            t[1] == BindView(params.value.bindViewListener.value)
            && multiset(t)[BindView(params.value.bindViewListener.value)] == 1)
      && (forall e <- t :: e.SaveState? ==>
            e.resume && hasSaved && params.Some? && params.value.saveStateListener == Some(e.saveListener))
      && (Inflates(params) && hasSaved && params.value.saveStateListener.Some? ==>
            multiset(t)[SaveState(params.value.saveStateListener.value, true)] == 1)
      && SetViewCallbacksFollowInflation(t)
  {
    var t := SetViewEvents(params, hasSaved);
    if Inflates(params) {
      var p := params.value;
      var bind := if p.bindViewListener.Some? then [BindView(p.bindViewListener.value)] else [];
      var restore := if p.saveStateListener.Some? && hasSaved
                     then [SaveState(p.saveStateListener.value, true)] else [];
      assert t == [Inflate(p.layoutResId)] + bind + restore;
      assert multiset(t) == multiset([Inflate(p.layoutResId)]) + multiset(bind) + multiset(restore);
      forall i | 0 < i < |t|
        ensures t[i] in bind + restore
      {
        assert t[i] == (bind + restore)[i - 1];
      }
    }
  }

  /**
   * Recreation after a save: the record restored from the saved bundle has
   * the same scalars as the one saved and no callbacks, so the recreated
   * dialog inflates its layout (when the id is positive) and fires neither
   * callback.
   */
  lemma RecreatedDialogFiresNoCallback(p: Params, outState: Bundle)
    ensures var restored := Restore(None, Some(SaveInto(outState, p)));
      && restored == Some(WithoutListeners(p))
      && SetViewEvents(restored, true) == (if p.layoutResId > 0 then [Inflate(p.layoutResId)] else [])
  {
  }

  /** The dialog fragment. */
  class UniversalDialog {
    var params: Option<Params>
    var viewHolder: Option<ViewHolder>
    var trace: seq<Event>

    ghost predicate Valid()
      reads this
    {
      SetViewCallbacksFollowInflation(trace)
    }

    /** A dialog as the platform creates it: no record, no view. */
    constructor ()
      ensures Valid()
      ensures params == None && viewHolder == None && trace == []
    {
      params := None;
      viewHolder := None;
      trace := [];
    }

    /** `setParams`. */
    method SetParams(p: Params)
      modifies this
      ensures params == Some(p)
      ensures viewHolder == old(viewHolder) && trace == old(trace)
    {
      params := Some(p);
    }

    /** The restoring step at the start of `setView`. */
    method RestoreFrom(saved: Option<Bundle>)
      modifies this
      ensures params == Restore(old(params), saved)
      ensures viewHolder == old(viewHolder) && trace == old(trace)
    {
      if params.None? && saved.Some? {
        var b := saved.value;
        if SaveStateKey in b.entries {
          var parcel := new Parcel.FromData(b.entries[SaveStateKey]);
          params := CreateFromParcel(parcel);
        }
      }
    }

    /**
     * `setView` (called from `onCreateView`): restores the record from the
     * saved bundle when it holds none, refuses when there is still no
     * record or its layout id is not positive, and otherwise inflates,
     * builds the view holder and fires the callbacks.
     */
    method SetView(saved: Option<Bundle>) returns (view: Option<View>)
      requires Valid()
      modifies this
      ensures Valid()
      ensures params == Restore(old(params), saved)
      ensures view.Some? <==> Inflates(params)
      ensures view.Some? ==> view.value == View(params.value.layoutResId)
                             && viewHolder == Some(ViewHolder(view.value))
      ensures view.None? ==> viewHolder == old(viewHolder)
      ensures trace == old(trace) + SetViewEvents(params, saved.Some?)
    {
      RestoreFrom(saved);

      if params.None? || params.value.layoutResId <= 0 {
        return None;
      }

      var p := params.value;
      ghost var before := trace;
      var v := View(p.layoutResId);
      trace := trace + [Inflate(p.layoutResId)];
      viewHolder := Some(ViewHolder(v));

      ghost var bound := trace;
      if p.bindViewListener.Some? {
        trace := trace + [BindView(p.bindViewListener.value)];
      }
      assert trace == bound + (if p.bindViewListener.Some? then [BindView(p.bindViewListener.value)] else []);

      ghost var restored := trace;
      if p.saveStateListener.Some? && saved.Some? {
        trace := trace + [SaveState(p.saveStateListener.value, true)];
      }
      assert trace == restored + (if p.saveStateListener.Some? && saved.Some? then [SaveState(p.saveStateListener.value, true)] else []);
      view := Some(v);

      SetViewEventsWellOrdered(params, saved.Some?);
      assert trace == before + SetViewEvents(params, saved.Some?);
      CallbacksFollowInflationAppend(before, SetViewEvents(params, saved.Some?));
    }

    /**
     * `setDialog` (called from `onStart`): applies the resolved setup to the
     * window, or does nothing when the record, the context, the dialog or
     * the window is missing.
     */
    method SetDialog(host: Host)
      requires Valid()
      modifies this
      ensures Valid()
      ensures params == old(params) && viewHolder == old(viewHolder)
      ensures trace == old(trace) + match SetDialogEffect(params, host)
                                     case None => []
                                     case Some(s) => [ApplyWindow(s)]
    {
      if params.None? || host.context.None? || !host.hasDialog || !host.hasWindow {
        return;
      }
      var p := params.value;
      var setup := SetupFor(p, host.context.value);
      CallbacksFollowInflationAppend(trace, [ApplyWindow(setup)]);
      trace := trace + [ApplyWindow(setup)];
    }

    /**
     * `onSaveInstanceState`: stores the record under `SaveStateKey` and
     * fires the save-state callback in save mode when it is set. With no
     * record the source dereferences `null` and throws.
     */
    method OnSaveInstanceState(outState: Bundle) returns (r: Result<Bundle, Exception>)
      requires Valid()
      modifies this
      ensures Valid()
      ensures params == old(params) && viewHolder == old(viewHolder)
      ensures r.Failure? <==> params.None?
      ensures r.Failure? ==> r.error.NullPointerException? && trace == old(trace)
      ensures r.Success? ==> r.value == SaveInto(outState, params.value)
                             && trace == old(trace) + SaveEvents(params.value)
    {
      if params.None? {
        return Failure(NullPointerException(""));
      }
      var p := params.value;
      var parcel := new Parcel();
      WriteToParcel(p, parcel);
      assert parcel.data == Parcelled(p);
      CallbacksFollowInflationAppend(trace, SaveEvents(p));
      trace := trace + SaveEvents(p);
      r := Success(Bundle(outState.entries[SaveStateKey := parcel.data]));
    }
  }
}
