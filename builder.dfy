/**
 * The fluent builder (`UniversalDialog.Builder`): each setter overwrites one
 * field of the record and returns the same builder; `create` rejects a
 * record without a positive layout id and otherwise hands the record to a
 * new dialog.
 */
module Builders {
  import opened Wrappers
  import opened JavaTypes
  import opened DialogParams
  import Controller

  /** The message `create` throws with. */
  const NoLayoutMessage: string := "The dialog without layout!"

  class Builder {
    var P: Params

    /** A builder for `layoutResId` whose other fields hold their defaults. */
    constructor (layoutResId: Int32)
      ensures P == Initial(layoutResId)
      ensures P.layoutResId == layoutResId && P.width == 0 && P.height == 0
      ensures P.gravity == GravityCenter && P.roundRadius == 0 && P.animation == 0
      ensures P.dimAmount == Half && P.cancelable
      ensures P.bindViewListener.None? && P.saveStateListener.None?
    {
      P := Initial(layoutResId);
    }

    /** `Builder.setView`, the entry point: a new builder for the layout. */
    static method SetView(layoutResId: Int32) returns (b: Builder)
      ensures fresh(b) && b.P == Initial(layoutResId)
    {
      b := new Builder(layoutResId);
    }

    method SetWidth(width: Int32) returns (b: Builder)
      modifies this
      ensures b == this && P == old(P).(width := width)
    {
      P := P.(width := width);
      b := this;
    }

    method SetHeight(height: Int32) returns (b: Builder)
      modifies this
      ensures b == this && P == old(P).(height := height)
    {
      P := P.(height := height);
      b := this;
    }

    method SetGravity(gravity: Int32) returns (b: Builder)
      modifies this
      ensures b == this && P == old(P).(gravity := gravity)
    {
      P := P.(gravity := gravity);
      b := this;
    }

    method SetRoundRadius(roundRadius: Int32) returns (b: Builder)
      modifies this
      ensures b == this && P == old(P).(roundRadius := roundRadius)
    {
      P := P.(roundRadius := roundRadius);
      b := this;
    }

    method SetAnimation(resId: Int32) returns (b: Builder)
      modifies this
      ensures b == this && P == old(P).(animation := resId)
    {
      P := P.(animation := resId);
      b := this;
    }

    method SetDimAmount(dimAmount: Float32) returns (b: Builder)
      modifies this
      ensures b == this && P == old(P).(dimAmount := dimAmount)
    {
      P := P.(dimAmount := dimAmount);
      b := this;
    }

    method SetCancelable(cancelable: bool) returns (b: Builder)
      modifies this
      ensures b == this && P == old(P).(cancelable := cancelable)
    {
      P := P.(cancelable := cancelable);
      b := this;
    }

    method SetOnBindViewListener(listener: Option<BindViewListener>) returns (b: Builder)
      modifies this
      ensures b == this && P == old(P).(bindViewListener := listener)
    {
      P := P.(bindViewListener := listener);
      b := this;
    }

    method SetOnSaveStateListener(listener: Option<SaveStateListener>) returns (b: Builder)
      modifies this
      ensures b == this && P == old(P).(saveStateListener := listener)
    {
      P := P.(saveStateListener := listener);
      b := this;
    }

    /**
     * `create`: throws when the layout id is not positive; otherwise returns
     * a new dialog holding the builder's record, with no view yet and nothing
     * done.
     */
    method Create() returns (r: Result<Controller.UniversalDialog, Exception>)
      ensures r.Failure? <==> P.layoutResId <= 0
      ensures r.Failure? ==> r.error == NullPointerException(NoLayoutMessage)
      ensures r.Success? ==> && fresh(r.value) && r.value.Valid()
                             && r.value.params == Some(P)
                             && r.value.viewHolder == None
                             && r.value.trace == []
    {
      if P.layoutResId <= 0 {
        return Failure(NullPointerException(NoLayoutMessage));
      }
      var dialog := new Controller.UniversalDialog();
      dialog.SetParams(P);
      r := Success(dialog);
    }
  }

  /**
   * The chain the demo activity uses (layout, 800 by 500, centred, 15-pixel
   * corners, an animation style, half dimmed, not cancelable, both
   * listeners): every value lands in its own field and `create` succeeds for
   * a positive layout id.
   */
  method DemoChain(layoutResId: Int32, animation: Int32, bind: BindViewListener, save: SaveStateListener)
    returns (r: Result<Controller.UniversalDialog, Exception>)
    ensures r.Success? <==> layoutResId > 0
    ensures r.Success? ==> r.value.params == Some(Params(layoutResId, 800, 500, GravityCenter, 15,
                                                        animation, Half, false, Some(bind), Some(save)))
  {
    var b := Builder.SetView(layoutResId);
    b := b.SetWidth(800);
    b := b.SetHeight(500);
    b := b.SetGravity(GravityCenter);
    b := b.SetRoundRadius(15);
    b := b.SetAnimation(animation);
    b := b.SetDimAmount(Half);
    b := b.SetCancelable(false);
    b := b.SetOnBindViewListener(Some(bind));
    b := b.SetOnSaveStateListener(Some(save));
    r := b.Create();
  }
}
