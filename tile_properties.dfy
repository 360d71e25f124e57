/**
 * Properties of the tile model: the layout round trip, the positional update,
 * the advertised and enforced limits, and the order of the view and edit
 * decision chains, including the places where the two chains differ.
 */
module TileProperties {
  import opened Wrappers
  import opened PhpStrings
  import opened Framework
  import opened Tiles

  // ---- Geometry and layout ----

  /** Sending the same update twice has the effect of sending it once. */
  lemma PatchIdempotent(g: Geometry, p: RawPatch)
    ensures ApplyPatch(ApplyPatch(g, p), p) == ApplyPatch(g, p)
  {
  }

  /** x=5, h=3 on row 1, col 1, 2 by 2 gives row 5, col 1, width 2, height 3. */
  lemma PatchExample()
    ensures ApplyPatch(Geometry(1, 1, 2, 2), RawPatch(Some(5), None, None, Some(3))) == Geometry(5, 1, 2, 3)
  {
  }

  /**
   * Writing back the layout record's positions keeps Row and Col, and sets
   * Width and Height to their effective values.
   */
  lemma LayoutRoundTrip(t: Tile, limitCharacters: (string, nat) -> string)
    ensures ApplyPatch(t.CurrentGeometry(), t.GenerateRawArray(limitCharacters).EchoPatch())
         == Geometry(t.Row, t.Col, t.GetWidth(), t.GetHeight())
  {
  }

  /** The round trip leaves the geometry unchanged exactly when both sizes are at least 1. */
  lemma LayoutRoundTripIsIdentity(t: Tile, limitCharacters: (string, nat) -> string)
    ensures ApplyPatch(t.CurrentGeometry(), t.GenerateRawArray(limitCharacters).EchoPatch()) == t.CurrentGeometry()
        <==> t.Width >= 1 && t.Height >= 1
  {
  }

  /** A stored 0 by 0 tile is laid out 1 by 1 but labelled "0-0". */
  lemma ZeroSizeLayoutAndLabel(t: Tile, limitCharacters: (string, nat) -> string)
    requires t.Width == 0 && t.Height == 0
    ensures t.GenerateRawArray(limitCharacters).w == 1 && t.GenerateRawArray(limitCharacters).h == 1
    ensures t.GetSize() == "0-0"
  {
  }

  /**
   * The limits in the layout record are the Tile class's, whatever the run-time
   * class is; they agree with the limits Validate enforces only when the
   * run-time class declares the same values.
   */
  lemma AdvertisedLimits(t: Tile, limitCharacters: (string, nat) -> string)
    ensures t.GetMaxWidth() == GENERIC_TILE.maxWidth && t.GetMaxHeight() == GENERIC_TILE.maxHeight
    ensures t.GenerateRawArray(limitCharacters).maxW == t.tileClass.maxWidth <==> t.tileClass.maxWidth == TILE_MAX_WIDTH
    ensures t.GenerateRawArray(limitCharacters).maxH == t.tileClass.maxHeight <==> t.tileClass.maxHeight == TILE_MAX_HEIGHT
  {
  }

  // ---- canView ----

  /** An actor with ADMIN or SITETREE_VIEW_ALL may view, before any directive is read. */
  lemma ViewOverrideGrants(t: Tile, env: Services, member: MemberArg)
    requires ViewOverride(env, member)
    ensures t.CanView(env, member)
  {
  }

  /** Otherwise a definite answer from an extension is the decision. */
  lemma ViewExtensionDecides(t: Tile, env: Services, member: MemberArg)
    requires !ViewOverride(env, member) && ViewExtension(env, member).Some?
    ensures t.CanView(env, member) == ViewExtension(env, member).value
  {
  }

  /** Otherwise an empty or Anyone directive grants. */
  lemma ViewOpenDirectiveGrants(t: Tile, env: Services, member: MemberArg)
    requires !ViewOverride(env, member) && ViewExtension(env, member).None?
    requires t.CanViewType == ViewUnset || t.CanViewType == ViewAnyone
    ensures t.CanView(env, member)
  {
  }

  /** Inherit with no parent grants to anyone, including nobody logged in. */
  lemma ViewInheritWithoutParentGrants(t: Tile, env: Services, member: MemberArg)
    requires !ViewOverride(env, member) && ViewExtension(env, member).None?
    requires t.CanViewType == ViewInherit && t.ParentID == 0
    ensures t.CanView(env, member)
  {
  }

  /** Inherit with a parent whose class is not a page class and is missing or unresolvable grants. */
  lemma ViewInheritUnresolvableParentGrants(t: Tile, env: Services, member: MemberArg)
    requires !ViewOverride(env, member) && ViewExtension(env, member).None?
    requires t.CanViewType == ViewInherit && t.ParentID != 0
    requires t.ParentClassName !in env.siteTreeClasses
    requires t.ParentClassName == "" || !env.singletonResolves(t.ParentClassName)
    ensures t.CanView(env, member)
  {
  }

  /** Inherit with a page parent returns the page's answer, asked without a member. */
  lemma ViewInheritFromPage(t: Tile, env: Services, member: MemberArg)
    requires !ViewOverride(env, member) && ViewExtension(env, member).None?
    requires t.CanViewType == ViewInherit && t.ParentID != 0
    requires t.ParentClassName != "" && t.ParentClassName in env.siteTreeClasses
    ensures t.CanView(env, member) == env.pageCanView(t.ParentID)
  {
  }

  /** Inherit with a resolvable non-page parent asks its singleton with the resolved actor. */
  lemma ViewInheritFromSingleton(t: Tile, env: Services, member: MemberArg)
    requires !ViewOverride(env, member) && ViewExtension(env, member).None?
    requires t.CanViewType == ViewInherit && t.ParentID != 0
    requires t.ParentClassName != "" && t.ParentClassName !in env.siteTreeClasses
    requires env.singletonResolves(t.ParentClassName)
    ensures t.CanView(env, member) == env.singletonCanView(t.ParentClassName, ViewActor(env, member))
  {
  }

  /** LoggedInUsers grants exactly when the resolved actor is present. */
  lemma ViewLoggedInUsersNeedsActor(t: Tile, env: Services, member: MemberArg)
    requires !ViewOverride(env, member) && ViewExtension(env, member).None?
    requires t.CanViewType == ViewLoggedInUsers
    ensures t.CanView(env, member) <==> Truthy(ViewActor(env, member))
  {
  }

  /** OnlyTheseUsers grants exactly when the resolved actor is in ViewerGroups. */
  lemma ViewOnlyTheseUsersChecksGroups(t: Tile, env: Services, member: MemberArg)
    requires !ViewOverride(env, member) && ViewExtension(env, member).None?
    requires t.CanViewType == ViewOnlyTheseUsers
    ensures t.CanView(env, member) <==> GroupCheck(env, ViewActor(env, member), t.ViewerGroups)
  {
  }

  /**
   * When the global name 'Member' does not denote the member class, canView
   * discards its argument: every argument gets the current user's answer.
   */
  lemma ViewIgnoresArgument(t: Tile, env: Services, a: MemberArg, b: MemberArg)
    requires !env.memberNameResolves
    ensures t.CanView(env, a) == t.CanView(env, b)
  {
  }

  /** A member ID passed to canView is never used: the current user's is. */
  lemma ViewReplacesMemberID(env: Services, id: int)
    ensures ViewActor(env, MemberId(id)) == MemberId(env.currentUserID)
  {
  }

  // ---- canEdit ----

  /** An actor with ADMIN or SITETREE_EDIT_ALL may edit, before any directive is read. */
  lemma EditOverrideGrants(t: Tile, env: Services, member: MemberArg)
    requires EditOverride(env, member)
    ensures t.CanEdit(env, member)
  {
  }

  /** Otherwise a definite answer from an extension is the decision. */
  lemma EditExtensionDecides(t: Tile, env: Services, member: MemberArg)
    requires !EditOverride(env, member) && EditExtension(env, member).Some?
    ensures t.CanEdit(env, member) == EditExtension(env, member).value
  {
  }

  /** There is no open shortcut for editing: an empty directive denies. */
  lemma EditUnsetDenies(t: Tile, env: Services, member: MemberArg)
    requires !EditOverride(env, member) && EditExtension(env, member).None?
    requires t.CanEditType == EditUnset
    ensures !t.CanEdit(env, member)
  {
  }

  /** Inherit with no parent grants. */
  lemma EditInheritWithoutParentGrants(t: Tile, env: Services, member: MemberArg)
    requires !EditOverride(env, member) && EditExtension(env, member).None?
    requires t.CanEditType == EditInherit && t.ParentID == 0
    ensures t.CanEdit(env, member)
  {
  }

  /** Inherit with a parent whose class is not a page class and is missing or unresolvable grants. */
  lemma EditInheritUnresolvableParentGrants(t: Tile, env: Services, member: MemberArg)
    requires !EditOverride(env, member) && EditExtension(env, member).None?
    requires t.CanEditType == EditInherit && t.ParentID != 0
    requires t.ParentClassName !in env.siteTreeClasses
    requires t.ParentClassName == "" || !env.singletonResolves(t.ParentClassName)
    ensures t.CanEdit(env, member)
  {
  }

  /** Inherit with a page parent returns the page's answer, asked without a member. */
  lemma EditInheritFromPage(t: Tile, env: Services, member: MemberArg)
    requires !EditOverride(env, member) && EditExtension(env, member).None?
    requires t.CanEditType == EditInherit && t.ParentID != 0
    requires t.ParentClassName != "" && t.ParentClassName in env.siteTreeClasses
    ensures t.CanEdit(env, member) == env.pageCanEdit(t.ParentID)
  {
  }

  /** Inherit with a resolvable non-page parent asks its singleton with the original argument. */
  lemma EditInheritFromSingleton(t: Tile, env: Services, member: MemberArg)
    requires !EditOverride(env, member) && EditExtension(env, member).None?
    requires t.CanEditType == EditInherit && t.ParentID != 0
    requires t.ParentClassName != "" && t.ParentClassName !in env.siteTreeClasses
    requires env.singletonResolves(t.ParentClassName)
    ensures t.CanEdit(env, member) == env.singletonCanEdit(t.ParentClassName, member)
  {
  }

  /**
   * LoggedInUsers tests the original argument, not the resolved ID: a call
   * with no argument is denied even when a user is logged in.
   */
  lemma EditLoggedInUsersTestsArgument(t: Tile, env: Services, member: MemberArg)
    requires !EditOverride(env, member) && EditExtension(env, member).None?
    requires t.CanEditType == EditLoggedInUsers
    ensures t.CanEdit(env, member) <==> Truthy(member)
    ensures member == NullArg ==> !t.CanEdit(env, member)
  {
  }

  /** OnlyTheseUsers grants exactly when the argument's member is in ViewerGroups. */
  lemma EditOnlyTheseUsersReadsViewerGroups(t: Tile, env: Services, member: MemberArg)
    requires !EditOverride(env, member) && EditExtension(env, member).None?
    requires t.CanEditType == EditOnlyTheseUsers
    ensures t.CanEdit(env, member) <==> GroupCheck(env, member, t.ViewerGroups)
  {
  }

  /** A member of EditorGroups who is in no viewer group is denied editing. */
  lemma EditorGroupMemberDenied(t: Tile, env: Services, id: int)
    requires !EditOverride(env, MemberObject(id)) && EditExtension(env, MemberObject(id)).None?
    requires t.CanEditType == EditOnlyTheseUsers
    requires env.inGroups(id, t.EditorGroups) && !env.inGroups(id, t.ViewerGroups)
    ensures !t.CanEdit(env, MemberObject(id))
  {
  }

  /**
   * canEdit does not consult canView: with nobody logged in, a root tile whose
   * view directive is LoggedInUsers and whose edit directive is Inherit cannot
   * be viewed but can be edited.
   */
  lemma EditWithoutView(t: Tile, env: Services)
    requires env.currentUserID == 0
    requires ViewExtension(env, NullArg).None? && EditExtension(env, NullArg).None?
    requires t.CanViewType == ViewLoggedInUsers && t.CanEditType == EditInherit && t.ParentID == 0
    ensures !t.CanView(env, NullArg) && t.CanEdit(env, NullArg)
  {
  }

  /** The edit decision never depends on EditorGroups, Row, Col, size, colour or content. */
  lemma EditIgnoresEditorGroups(t1: Tile, t2: Tile, env: Services, member: MemberArg)
    requires t1.CanEditType == t2.CanEditType && t1.ViewerGroups == t2.ViewerGroups
    requires t1.ParentID == t2.ParentID && t1.ParentClassName == t2.ParentClassName
    ensures t1.CanEdit(env, member) == t2.CanEdit(env, member)
  {
  }
}
