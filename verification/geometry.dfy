/** Geometry resolver: the flat film a finished pouch needs. */
module Geometry {
  import opened Requirements

  const CENTER_SEAL_OVERLAP: real := 20.0
  const SEAL_WIDTH: real := 10.0
  /** Allowance for the bottom fold of a stand-up pouch. */
  const STAND_UP_BOTTOM_ALLOWANCE: real := 60.0

  /** Open web width and cut length, in millimetres. */
  datatype OpenSize = OpenSize(openWidthMm: real, cutLengthMm: real)

  /** Flat film area of one pouch, in square metres. */
  function AreaSqm(s: OpenSize): (a: real)
    ensures s.openWidthMm > 0.0 && s.cutLengthMm > 0.0 ==> a > 0.0
    ensures s.openWidthMm == 0.0 || s.cutLengthMm == 0.0 ==> a == 0.0
  {
    (s.openWidthMm * s.cutLengthMm) / 1000000.0
  }

  /** The client's switch on the pouch type; zipper and side-gusset pouches take the default branch. */
  function PouchOpenSize(req: ProductRequirements): (s: OpenSize)
    ensures req.pouchType in {StandUpZipper, SideGusset} ==> s.cutLengthMm == req.heightMm
    ensures req.pouchType !in {StandUpZipper, SideGusset} ==> s.cutLengthMm == req.heightMm + 2.0 * SEAL_WIDTH
    ensures req.gussetMm >= 0.0 ==> s.openWidthMm >= 2.0 * req.widthMm
    ensures req.pouchType == CenterSeal ==> s.openWidthMm == 2.0 * req.widthMm + 2.0 * req.gussetMm + 20.0
    ensures req.pouchType == StandUpPouch ==> s.openWidthMm == 2.0 * req.widthMm + 2.0 * req.gussetMm + 60.0
    ensures req.pouchType !in {CenterSeal, StandUpPouch} ==> s.openWidthMm == 2.0 * req.widthMm
  {
    match req.pouchType
    case CenterSeal =>
      OpenSize(2.0 * req.widthMm + 2.0 * req.gussetMm + CENTER_SEAL_OVERLAP, req.heightMm + 2.0 * SEAL_WIDTH)
    case ThreeSideSeal =>
      OpenSize(2.0 * req.widthMm, req.heightMm + 2.0 * SEAL_WIDTH)
    case StandUpPouch =>
      OpenSize(2.0 * req.widthMm + req.gussetMm * 2.0 + STAND_UP_BOTTOM_ALLOWANCE, req.heightMm + 20.0)
    case _ =>
      OpenSize(2.0 * req.widthMm, req.heightMm)
  }

  /** The server's if/elif chain on the pouch type, ending in the same default branch. */
  function ServerPouchOpenSize(req: ProductRequirements): (s: OpenSize)
    ensures s.cutLengthMm > req.heightMm <==> req.pouchType in {CenterSeal, ThreeSideSeal, StandUpPouch}
    ensures req.pouchType == CenterSeal ==> s.openWidthMm == 2.0 * req.widthMm + 2.0 * req.gussetMm + 20.0
    ensures req.pouchType == StandUpPouch ==> s.openWidthMm == 2.0 * req.widthMm + 2.0 * req.gussetMm + 60.0
    ensures req.pouchType !in {CenterSeal, StandUpPouch} ==> s.openWidthMm == 2.0 * req.widthMm
  {
    if req.pouchType == CenterSeal then
      OpenSize(2.0 * req.widthMm + 2.0 * req.gussetMm + CENTER_SEAL_OVERLAP, req.heightMm + 2.0 * SEAL_WIDTH)
    else if req.pouchType == ThreeSideSeal then
      OpenSize(2.0 * req.widthMm, req.heightMm + 2.0 * SEAL_WIDTH)
    else if req.pouchType == StandUpPouch then
      OpenSize(2.0 * req.widthMm + req.gussetMm * 2.0 + STAND_UP_BOTTOM_ALLOWANCE, req.heightMm + 20.0)
    else
      OpenSize(2.0 * req.widthMm, req.heightMm)
  }

  /** Both engines resolve the same open size for every requirement. */
  lemma GeometryAgrees(req: ProductRequirements)
    ensures PouchOpenSize(req) == ServerPouchOpenSize(req)
  {
  }

  /** Positive width and height and a non-negative gusset give a positive film area. */
  lemma AreaPositive(req: ProductRequirements)
    requires WithinBounds(req)
    ensures PouchOpenSize(req).openWidthMm > 0.0 && PouchOpenSize(req).cutLengthMm > 0.0
    ensures AreaSqm(PouchOpenSize(req)) > 0.0
  {
    var s := PouchOpenSize(req);
    assert s.openWidthMm * s.cutLengthMm > 0.0;
  }
}
