/**
 * The Scalable contract: a surface with its own extent and the current
 * viewport size, from which the two scale factors are derived.
 */
module Scaling {
  import opened Viewport

  /**
   * The factor that turns a designed extent into a target extent: it is
   * fixed by the two extents alone, and is 1 when they agree.
   */
  function ScaleFactor(target: real, designed: real): (r: real)
    requires designed != 0.0
    ensures r * designed == target
    ensures target == designed ==> r == 1.0
  {
    target / designed
  }

  /**
   * An instance of Scalable (the root pane, as the layout sees it). The
   * fields hold what its abstract getters currently return: getWidth,
   * getHeight and getAppSize.
   */
  class Scalable {
    var width: real
    var height: real
    var appSize: AppSize

    constructor (width: real, height: real, appSize: AppSize)
      ensures this.width == width && this.height == height && this.appSize == appSize
    {
      this.width := width;
      this.height := height;
      this.appSize := appSize;
    }

    /** Both own extents are non-zero, so both scale factors are defined. */
    predicate Sized()
      reads this
    {
      width != 0.0 && height != 0.0
    }

    /** getScaleFactorWidth: the factor that turns the surface's own width into the viewport width. */
    function ScaleFactorWidth(): (r: real)
      reads this, appSize
      requires width != 0.0
      ensures r * width == appSize.width
    {
      ScaleFactor(appSize.width, width)
    }

    /** getScaleFactorHeight: the factor that turns the surface's own height into the viewport height. */
    function ScaleFactorHeight(): (r: real)
      reads this, appSize
      requires height != 0.0
      ensures r * height == appSize.height
    {
      ScaleFactor(appSize.height, height)
    }
  }
}
