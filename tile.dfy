/**
 * The tile entity: a positioned, sized content block on a grid layout, with
 * its geometry accessors, validation, the layout record the grid client reads,
 * the positional update the grid client writes, and the view/edit decisions.
 */
module Tiles {
  import opened Wrappers
  import opened PhpStrings
  import opened Framework

  /** `CanViewType`; ViewUnset is an empty column value. */
  datatype ViewType = ViewUnset | ViewAnyone | ViewLoggedInUsers | ViewOnlyTheseUsers | ViewInherit

  /** `CanEditType`; there is no "Anyone" for editing. EditUnset is an empty column value. */
  datatype EditType = EditUnset | EditLoggedInUsers | EditOnlyTheseUsers | EditInherit

  datatype Ability = View | Edit

  /** Messages of a validation result: the two geometry checks, or one added before them. */
  datatype ValidationError = HeightExceeded | WidthExceeded | Reported(message: string)

  /** The static limits of the Tile class itself (`$maxwidth`, `$maxheight`). */
  const TILE_MAX_WIDTH := 2
  const TILE_MAX_HEIGHT := 2

  /** Characters of content shown in the grid preview. */
  const PREVIEW_LIMIT: nat := 150

  /**
   * The run-time class of a tile: its singular name and the static limits it
   * declares (a subclass may redeclare `$maxwidth` and `$maxheight`).
   */
  datatype TileClass = TileClass(singularName: string, maxWidth: int, maxHeight: int)

  const GENERIC_TILE := TileClass("Generic Tile", TILE_MAX_WIDTH, TILE_MAX_HEIGHT)

  datatype Geometry = Geometry(row: int, col: int, width: int, height: int)

  /** The positional update sent by the grid client: any of x, y, w and h may be absent. */
  datatype RawPatch = RawPatch(x: Option<int>, y: Option<int>, w: Option<int>, h: Option<int>)

  /** The result of a positional update on geometry `g`: present keys overwrite, absent keys keep. */
  function ApplyPatch(g: Geometry, p: RawPatch): (r: Geometry)
    ensures p.x.None? ==> r.row == g.row
    ensures p.y.None? ==> r.col == g.col
    ensures p.w.None? ==> r.width == g.width
    ensures p.h.None? ==> r.height == g.height
    ensures p.x.Some? ==> r.row == p.x.value
    ensures p.y.Some? ==> r.col == p.y.value
    ensures p.w.Some? ==> r.width == p.w.value
    ensures p.h.Some? ==> r.height == p.h.value
  {
    Geometry(p.x.GetOr(g.row), p.y.GetOr(g.col), p.w.GetOr(g.width), p.h.GetOr(g.height))
  }

  datatype ImageRef = ImageRef(id: int)

  /** The flat record the grid client reads, keys i, n, x, y, w, h, maxW, maxH, c, p, img, disabled. */
  datatype LayoutRecord = LayoutRecord(
    i: int, n: string, x: int, y: int, w: int, h: int, maxW: int, maxH: int,
    c: string, p: string, img: Option<ImageRef>, disabled: bool)
  {
    /** The update the grid client sends back with the four position keys of this record. */
    function EchoPatch(): RawPatch {
      RawPatch(Some(x), Some(y), Some(w), Some(h))
    }
  }

  /**
   * The member `canView` acts for: anything that is not a truthy member object
   * that passes `is_a($member, 'Member')` is replaced by the current user's ID.
   */
  function ViewActor(env: Services, member: MemberArg): (m: MemberArg)
    ensures m == member || m == MemberId(env.currentUserID)
    ensures m.MemberObject? <==> member.MemberObject? && env.memberNameResolves
    ensures !(member.MemberObject? && env.memberNameResolves) ==> m == MemberId(env.currentUserID)
  {
    if !Truthy(member) || !(member.MemberObject? && env.memberNameResolves) || IsNumeric(member)
    then MemberId(env.currentUserID)
    else member
  }

  /** The ID `canEdit` uses for its admin and extension checks. */
  function EditActorID(env: Services, member: MemberArg): (id: int)
    ensures member.MemberObject? || member.MemberId? ==> id == member.id
    ensures member == NullArg || member == FalseArg ==> id == env.currentUserID
  {
    match member
    case MemberObject(id) => id
    case MemberId(id) => id
    case _ => env.currentUserID
  }

  /** An actor holding ADMIN or SITETREE_VIEW_ALL. */
  predicate ViewOverride(env: Services, member: MemberArg)
    ensures ViewOverride(env, member) ==> Truthy(ViewActor(env, member))
    ensures ViewOverride(env, member) <==> Truthy(ViewActor(env, member)) && env.checkMember(ViewActor(env, member), VIEW_ALL_CODES)
    ensures !env.memberNameResolves ==> (ViewOverride(env, member) <==> env.currentUserID != 0 && env.checkMember(MemberId(env.currentUserID), VIEW_ALL_CODES))
  {
    var m := ViewActor(env, member);
    Truthy(m) && env.checkMember(m, VIEW_ALL_CODES)
  }

  /** An actor holding ADMIN or SITETREE_EDIT_ALL, always asked by ID. */
  predicate EditOverride(env: Services, member: MemberArg)
    ensures member.MemberObject? ==> (EditOverride(env, member) <==> member.id != 0 && env.checkMember(MemberId(member.id), EDIT_ALL_CODES))
    ensures member == NullArg || member == FalseArg ==> (EditOverride(env, member) <==> env.currentUserID != 0 && env.checkMember(MemberId(env.currentUserID), EDIT_ALL_CODES))
    ensures member.MemberId? ==> (EditOverride(env, member) <==> member.id != 0 && env.checkMember(member, EDIT_ALL_CODES))
  {
    var id := EditActorID(env, member);
    id != 0 && env.checkMember(MemberId(id), EDIT_ALL_CODES)
  }

  /** The extensions' answer for canView, asked about the resolved actor. */
  function ViewExtension(env: Services, member: MemberArg): (r: Option<bool>)
    ensures !(member.MemberObject? && env.memberNameResolves) ==> r == env.extendedCan("canView", MemberId(env.currentUserID))
    ensures member.MemberObject? && env.memberNameResolves ==> r == env.extendedCan("canView", member)
  {
    env.extendedCan("canView", ViewActor(env, member))
  }

  /** The extensions' answer for canEdit, asked about an ID, never a member object. */
  function EditExtension(env: Services, member: MemberArg): (r: Option<bool>)
    ensures member.MemberObject? ==> r == env.extendedCan("canEdit", MemberId(member.id))
    ensures member.MemberId? ==> r == env.extendedCan("canEdit", member)
    ensures member == NullArg || member == FalseArg ==> r == env.extendedCan("canEdit", MemberId(env.currentUserID))
  {
    env.extendedCan("canEdit", MemberId(EditActorID(env, member)))
  }

  /**
   * The group test that ends both decision chains: a truthy numeric member is
   * first loaded by ID (a missing record fails), then asked `inGroups`.
   */
  function GroupCheck(env: Services, member: MemberArg, groups: set<int>): (r: bool)
    ensures r ==> Truthy(member) && (member.MemberId? ==> env.memberExists(member.id)) && env.inGroups(member.id, groups)
    ensures member.MemberObject? ==> r == env.inGroups(member.id, groups)
    ensures member.MemberId? && member.id != 0 && env.memberExists(member.id) ==> r == env.inGroups(member.id, groups)
  {
    match member
    case MemberObject(id) => env.inGroups(id, groups)
    case MemberId(id) => id != 0 && env.memberExists(id) && env.inGroups(id, groups)
    case _ => false
  }

  class Tile {
    const tileClass: TileClass
    var ID: int
    var Color: string
    var Content: string
    var Row: int
    var Col: int
    var Sort: int
    var Width: int
    var Height: int
    var Disabled: bool
    var CanViewType: ViewType
    var CanEditType: EditType
    var ViewerGroups: set<int>
    var EditorGroups: set<int>
    // has_one Parent: the parent's ID (0 for none) and declared class name ("" for none)
    var ParentID: int
    var ParentClassName: string

    /** A new tile of class `tileClass` with the column defaults: both directives Inherit. */
    constructor (tileClass: TileClass, id: int)
      ensures this.tileClass == tileClass && ID == id
      ensures CanViewType == ViewInherit && CanEditType == EditInherit
      ensures Color == "" && Content == "" && !Disabled
      ensures Row == 0 && Col == 0 && Sort == 0 && Width == 0 && Height == 0
      ensures ViewerGroups == {} && EditorGroups == {}
      ensures ParentID == 0 && ParentClassName == ""
    {
      this.tileClass := tileClass;
      ID := id;
      Color, Content := "", "";
      Row, Col, Sort, Width, Height := 0, 0, 0, 0, 0;
      Disabled := false;
      CanViewType, CanEditType := ViewInherit, EditInherit;
      ViewerGroups, EditorGroups := {}, {};
      ParentID, ParentClassName := 0, "";
    }

    /** The four stored geometry fields as a value. */
    function CurrentGeometry(): Geometry
      reads this
    {
      Geometry(Row, Col, Width, Height)
    }

    /** The effective width: the stored width, floored at 1. */
    function GetWidth(): (w: int)
      reads this
      ensures w >= 1
      ensures Width >= 1 ==> w == Width
      ensures Width < 1 ==> w == 1
    {
      if Width >= 1 then Width else 1
    }

    /** The effective height: the stored height, floored at 1. */
    function GetHeight(): (h: int)
      reads this
      ensures h >= 1
      ensures Height >= 1 ==> h == Height
      ensures Height < 1 ==> h == 1
    {
      if Height >= 1 then Height else 1
    }

    /** The advertised limits: always those of the Tile class (`self::`). */
    function GetMaxWidth(): (m: int)
      ensures m == GENERIC_TILE.maxWidth
    {
      TILE_MAX_WIDTH
    }

    function GetMaxHeight(): (m: int)
      ensures m == GENERIC_TILE.maxHeight
    {
      TILE_MAX_HEIGHT
    }

    /** "W-H" from the RAW stored width and height, not the floored ones. */
    function GetSize(): (size: string)
      reads this
      ensures ParseSizeLabel(size) == Some((Width, Height))
    {
      SizeLabelRoundTrip(Width, Height);
      SizeLabel(Width, Height)
    }

    /** The stored colour when PHP reads it as true, else "transparent". */
    function GetTileColor(): (c: string)
      reads this
      ensures TruthyString(c)
      ensures TruthyString(Color) ==> c == Color
      ensures !TruthyString(Color) ==> c == "transparent"
    {
      if TruthyString(Color) then Color else "transparent"
    }

    /** A plain Tile has no preview image. */
    function GetPreviewImage(): (img: Option<ImageRef>)
      ensures img == None
    {
      None
    }

    /** The preview text: the framework's character limit applied to the content. */
    function GetPreviewContent(limitCharacters: (string, nat) -> string): (p: string)
      reads this
      ensures p == limitCharacters(Content, PREVIEW_LIMIT)
    {
      limitCharacters(Content, PREVIEW_LIMIT)
    }

    /**
     * The layout record. Positions are raw, sizes effective, limits those of the
     * Tile class whatever the run-time class enforces.
     */
    function GenerateRawArray(limitCharacters: (string, nat) -> string): (rec: LayoutRecord)
      reads this
      ensures rec.i == ID && rec.n == tileClass.singularName && rec.disabled == Disabled
      ensures rec.x == Row && rec.y == Col
      ensures rec.w >= 1 && (Width >= 1 ==> rec.w == Width)
      ensures rec.h >= 1 && (Height >= 1 ==> rec.h == Height)
      ensures rec.w == GetWidth() && rec.h == GetHeight() && rec.c == GetTileColor()
      ensures rec.maxW == TILE_MAX_WIDTH && rec.maxH == TILE_MAX_HEIGHT
      ensures TruthyString(rec.c) && rec.img == None
      ensures rec.p == limitCharacters(Content, PREVIEW_LIMIT)
    {
      LayoutRecord(
        ID, tileClass.singularName, Row, Col, GetWidth(), GetHeight(),
        GetMaxWidth(), GetMaxHeight(), GetTileColor(), GetPreviewContent(limitCharacters),
        GetPreviewImage(), Disabled)
    }

    /**
     * Runs the height check and then the width check against the limits of the
     * run-time class, appending one message per violation to those `inherited`
     * from the parent validation. Nothing is modified.
     */
    method Validate(inherited: seq<ValidationError>) returns (errors: seq<ValidationError>)
      ensures |errors| >= |inherited| && errors[..|inherited|] == inherited
      ensures HeightExceeded in errors[|inherited|..] <==> Height > tileClass.maxHeight
      ensures WidthExceeded in errors[|inherited|..] <==> Width > tileClass.maxWidth
      ensures forall e :: e in errors[|inherited|..] ==> e == HeightExceeded || e == WidthExceeded
      ensures |errors| == |inherited| + (if Height > tileClass.maxHeight then 1 else 0)
                                      + (if Width > tileClass.maxWidth then 1 else 0)
      ensures |errors| == |inherited| + 2 ==> errors[|inherited|..] == [HeightExceeded, WidthExceeded]
    {
      var added: seq<ValidationError> := [];
      if Height > tileClass.maxHeight {
        added := added + [HeightExceeded];
      }
      if Width > tileClass.maxWidth {
        added := added + [WidthExceeded];
      }
      errors := inherited + added;
      assert errors[|inherited|..] == added;
    }

    /**
     * The positional update: x sets Row, y sets Col, w sets Width and h sets
     * Height, each only when present. No other field may change.
     */
    method WriteRawArray(data: RawPatch)
      modifies this`Row, this`Col, this`Width, this`Height
      ensures CurrentGeometry() == ApplyPatch(old(CurrentGeometry()), data)
    {
      if data.x.Some? {
        Row := data.x.value;
      }
      if data.y.Some? {
        Col := data.y.value;
      }
      if data.w.Some? {
        Width := data.w.value;
      }
      if data.h.Some? {
        Height := data.h.value;
      }
    }

    /**
     * The Inherit branch: no parent grants; a page parent is asked without a
     * member; otherwise a missing or unresolvable class grants, and a resolvable
     * one is asked through its singleton with `member`.
     */
    function ParentDecision(env: Services, ability: Ability, member: MemberArg): (r: bool)
      reads this
      ensures ParentID == 0 ==> r
      ensures ParentClassName !in env.siteTreeClasses && (ParentClassName == "" || !env.singletonResolves(ParentClassName)) ==> r
      ensures !r ==> ParentID != 0 && ParentClassName != ""
      ensures !r && ParentClassName in env.siteTreeClasses ==>
                !(if ability == View then env.pageCanView(ParentID) else env.pageCanEdit(ParentID))
      ensures !r && ParentClassName !in env.siteTreeClasses ==>
                (env.singletonResolves(ParentClassName) &&
                 !(if ability == View then env.singletonCanView(ParentClassName, member) else env.singletonCanEdit(ParentClassName, member)))
    {
      if ParentID == 0 then true
      // no class is named by the empty string, so in_array cannot match a missing name
      else if ParentClassName != "" && ParentClassName in env.siteTreeClasses then
        if ability == View then env.pageCanView(ParentID) else env.pageCanEdit(ParentID)
      else if ParentClassName == "" || !env.singletonResolves(ParentClassName) then true
      else if ability == View then env.singletonCanView(ParentClassName, member)
      else env.singletonCanEdit(ParentClassName, member)
    }

    /**
     * The view chain. A denial always has one of the documented reasons: an
     * extension said no, the parent said no under Inherit, nobody is logged in
     * under LoggedInUsers, or the actor is in no viewer group under OnlyTheseUsers.
     */
    function CanView(env: Services, member: MemberArg): (r: bool)
      reads this
      ensures !r ==> !ViewOverride(env, member)
      ensures !r ==>
        (ViewExtension(env, member) == Some(false) ||
         (ViewExtension(env, member).None? &&
          ((CanViewType == ViewInherit && !ParentDecision(env, View, ViewActor(env, member))) ||
           (CanViewType == ViewLoggedInUsers && !Truthy(ViewActor(env, member))) ||
           (CanViewType == ViewOnlyTheseUsers && !GroupCheck(env, ViewActor(env, member), ViewerGroups)))))
      ensures r && !ViewOverride(env, member) && ViewExtension(env, member).None? && CanViewType == ViewOnlyTheseUsers ==>
        GroupCheck(env, ViewActor(env, member), ViewerGroups)
    {
      var m := ViewActor(env, member);
      if ViewOverride(env, member) then true
      else if ViewExtension(env, member).Some? then ViewExtension(env, member).value
      else if CanViewType == ViewUnset || CanViewType == ViewAnyone then true
      else if CanViewType == ViewInherit then ParentDecision(env, View, m)
      else if CanViewType == ViewLoggedInUsers && Truthy(m) then true
      else CanViewType == ViewOnlyTheseUsers && GroupCheck(env, m, ViewerGroups)
    }

    /**
     * The edit chain. The LoggedInUsers and group tests use the original
     * `member` argument, and the group test reads ViewerGroups.
     */
    function CanEdit(env: Services, member: MemberArg): (r: bool)
      reads this
      ensures !r ==> !EditOverride(env, member)
      ensures !r ==>
        (EditExtension(env, member) == Some(false) ||
         (EditExtension(env, member).None? &&
          (CanEditType == EditUnset ||
           (CanEditType == EditInherit && !ParentDecision(env, Edit, member)) ||
           (CanEditType == EditLoggedInUsers && !Truthy(member)) ||
           (CanEditType == EditOnlyTheseUsers && !GroupCheck(env, member, ViewerGroups)))))
      ensures r && !EditOverride(env, member) && EditExtension(env, member).None? && CanEditType == EditOnlyTheseUsers ==>
        GroupCheck(env, member, ViewerGroups)
    {
      if EditOverride(env, member) then true
      else if EditExtension(env, member).Some? then EditExtension(env, member).value
      else if CanEditType == EditInherit then ParentDecision(env, Edit, member)
      else if CanEditType == EditLoggedInUsers && Truthy(member) then true
      else CanEditType == EditOnlyTheseUsers && GroupCheck(env, member, ViewerGroups)
    }
  }
}
