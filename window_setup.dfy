/**
 * What `setDialog` applies to the dialog's window: every size and style is
 * resolved from the configured value, or from a default when the configured
 * value is not positive. The resolution happens when the dialog starts, not
 * when it is built.
 */
module WindowSetup {
  import opened Wrappers
  import opened JavaTypes
  import opened DialogParams

  /** `WindowManager.LayoutParams.WRAP_CONTENT` on the Android platform. */
  const WrapContent: Int32 := -2

  /** `WindowManager.LayoutParams.MATCH_PARENT` on the Android platform. */
  const MatchParent: Int32 := -1

  /**
   * What the running app reports about its display: the screen width in
   * pixels and the 5dp default corner radius converted to pixels (the
   * platform rounds `density * 5`).
   */
  datatype DisplayMetrics = DisplayMetrics(widthPixels: Int32, defaultRadiusPx: Int32)

  /**
   * The platform objects `setDialog` needs: a context (through which the
   * display metrics are read), a dialog, and that dialog's window.
   */
  datatype Host = Host(context: Option<DisplayMetrics>, hasDialog: bool, hasWindow: bool)

  /** Everything `setDialog` applies. `animation` is `None` when no style is set on the window. */
  datatype Setup = Setup(
    cornerRadius: Int32,
    dimAmount: Float32,
    width: Int32,
    height: Int32,
    gravity: Int32,
    animation: Option<Int32>,
    cancelable: bool)

  /**
   * Window width: the configured width when positive, otherwise
   * `screenWidth / 4 * 3` in Java arithmetic, that is three quarters of the
   * screen rounded down to a multiple of three.
   */
  function ResolveWidth(width: Int32, screenWidth: Int32): (w: Int32)
    ensures width > 0 ==> w == width
    ensures width <= 0 && screenWidth >= 0 ==>
              0 <= w <= screenWidth && w % 3 == 0 && 0 <= 3 * screenWidth - 4 * w <= 9
  {
    if width > 0 then width else QuarterOf(screenWidth) * 3
  }

  /** Window height: the configured height when positive, otherwise `WRAP_CONTENT`. */
  function ResolveHeight(height: Int32): (h: Int32)
    ensures height > 0 ==> h == height
    ensures height <= 0 ==> h == WrapContent
    ensures h == height <==> height > 0 || height == WrapContent
    ensures h > 0 || h == WrapContent
  {
    if height > 0 then height else WrapContent
  }

  /** Corner radius: the configured radius when positive, otherwise the 5dp default. */
  function ResolveRadius(roundRadius: Int32, defaultRadiusPx: Int32): (r: Int32)
    ensures roundRadius > 0 ==> r == roundRadius
    ensures roundRadius <= 0 ==> r == defaultRadiusPx
    ensures defaultRadiusPx > 0 ==> r > 0
  {
    if roundRadius > 0 then roundRadius else defaultRadiusPx
  }

  /** The animation style is applied only when the configured id is positive. */
  function ResolveAnimation(animation: Int32): (a: Option<Int32>)
    ensures a.Some? <==> animation > 0
    ensures a.Some? ==> a.value == animation
  {
    if animation > 0 then Some(animation) else None
  }

  /**
   * The whole setup for a record and a display. Gravity, dim amount and
   * cancelability are passed through unchanged.
   */
  function SetupFor(p: Params, m: DisplayMetrics): (s: Setup)
  {
    Setup(ResolveRadius(p.roundRadius, m.defaultRadiusPx), p.dimAmount,
          ResolveWidth(p.width, m.widthPixels), ResolveHeight(p.height),
          p.gravity, ResolveAnimation(p.animation), p.cancelable)
  }

  /**
   * The guard of `setDialog`: nothing is applied without a record, a
   * context, a dialog and a window.
   */
  function SetDialogEffect(params: Option<Params>, host: Host): (r: Option<Setup>)
    ensures r.Some? <==> params.Some? && host.context.Some? && host.hasDialog && host.hasWindow
  {
    if params.None? || host.context.None? || !host.hasDialog || !host.hasWindow then None
    else Some(SetupFor(params.value, host.context.value))
  }

  /** On a 1081-pixel screen the default width is 810: the division comes first. */
  lemma DefaultWidthExample()
    ensures ResolveWidth(0, 1081) == 810
  {
  }

  /**
   * A record straight from the builder, with nothing set but the layout,
   * resolves to the defaults: three quarters of the screen wide, as high as
   * its content, the 5dp corner, centred, no animation, half dimmed,
   * cancelable.
   */
  lemma DefaultsResolveAtApplyTime(layoutResId: Int32, m: DisplayMetrics)
    requires m.widthPixels >= 0
    ensures var s := SetupFor(Initial(layoutResId), m);
      && s.width == QuarterOf(m.widthPixels) * 3
      && 0 <= 3 * m.widthPixels - 4 * s.width <= 9
      && s.height == WrapContent
      && s.cornerRadius == m.defaultRadiusPx
      && s.gravity == GravityCenter
      && s.animation == None
      && s.dimAmount == Half
      && s.cancelable
  {
  }

  /**
   * An explicit size is applied exactly: width 800, height 500 and a
   * non-cancelable dialog come out as set, whatever the screen.
   */
  lemma ExplicitSizeIsApplied(p: Params, m: DisplayMetrics)
    requires p.width == 800 && p.height == 500 && !p.cancelable
    ensures var s := SetupFor(p, m); s.width == 800 && s.height == 500 && !s.cancelable
  {
  }

  /**
   * Asking for `MATCH_PARENT` is not honoured: it gives the three-quarter
   * width and a content-sized height, because only positive sizes are taken
   * as given.
   */
  lemma MatchParentIsNotHonoured(m: DisplayMetrics)
    ensures ResolveWidth(MatchParent, m.widthPixels) == QuarterOf(m.widthPixels) * 3
    ensures ResolveHeight(MatchParent) == WrapContent
  {
  }
}
