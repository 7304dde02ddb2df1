/**
 * The dialog's configuration record (`DialogParams` in UniversalDialog.java):
 * eight scalar fields with fixed defaults and two optional callbacks.
 */
module DialogParams {
  import opened Wrappers
  import opened JavaTypes

  /** `Gravity.CENTER` on the Android platform. */
  const GravityCenter: Int32 := 17

  /**
   * A caller-supplied `OnBindViewListener`; the model keeps only its identity,
   * because the code behind it belongs to the application.
   */
  datatype BindViewListener = BindViewListener(id: nat)

  /** A caller-supplied `OnSaveStateListener`, kept by identity. */
  datatype SaveStateListener = SaveStateListener(id: nat)

  /** The configuration record. `None` for a listener is Java's `null`. */
  datatype Params = Params(
    layoutResId: Int32,
    width: Int32,
    height: Int32,
    gravity: Int32,
    roundRadius: Int32,
    animation: Int32,
    dimAmount: Float32,
    cancelable: bool,
    bindViewListener: Option<BindViewListener>,
    saveStateListener: Option<SaveStateListener>)

  /**
   * The record a new builder starts from: the field initialisers of
   * `DialogParams` with the layout id the builder was given.
   */
  function Initial(layoutResId: Int32): (p: Params)
  {
    Params(layoutResId, 0, 0, GravityCenter, 0, 0, Half, true, None, None)
  }

  /** The same scalar fields with both callbacks cleared: what survives parcelling. */
  function WithoutListeners(p: Params): (q: Params)
  {
    p.(bindViewListener := None, saveStateListener := None)
  }
}
