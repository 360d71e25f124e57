# Tile model

A Dafny model of `Tile`, the grid-layout content block of a SilverStripe CMS
module (`src/Models/Tile.php`). A tile has a position (`Row`, `Col`), a stored
size (`Width`, `Height`), a colour, rich-text content, a `Disabled` flag and
two access directives, `CanViewType` and `CanEditType`, with viewer and editor
group lists and an optional parent element.

The model has five modules:

- `Wrappers`: the `Option` used for PHP `null`-or-value results.
- `PhpStrings`: PHP's decimal rendering of integers (used by the size label),
  PHP truthiness of strings, and a parser that inverts the size label.
- `Framework`: the framework calls the access checks make, as oracle fields of
  `Services` (current user, permission codes, extensions, group membership,
  record lookup, parent class resolution and the parent's own answers), and the
  `$member` argument as `MemberArg`.
- `Tiles`: the `Tile` class with the stored fields, the accessors, the layout
  record, `Validate`, `WriteRawArray` and the two decision chains
  `CanView` and `CanEdit`.
- `TileProperties`: lemmas on the round trip, the positional update, the
  limits and the order and quirks of the decision chains.

Choices made when reading the code:

- `GetSize` uses the RAW stored `Width` and `Height`, not the floored ones, so
  a 0 by 0 tile is labelled "0-0" while its layout record says 1 by 1.
- The layout record advertises the Tile class's limits (`self::`), while
  `Validate` enforces the run-time class's (`$this::`). A tile's run-time class
  is the `tileClass` constant; `GENERIC_TILE` is Tile itself.
- `canView` replaces every argument that is falsy, numeric or not
  `is_a($member, 'Member')` with the current user's ID. The class name is
  unqualified in a namespaced file, so whether a member object passes is the
  flag `Services.memberNameResolves`; when it is false, `canView` ignores its
  argument altogether.
- `canEdit` uses the resolved ID for its admin and extension checks, but the
  original argument for `LoggedInUsers`, the parent singleton and the group
  check, and the group check reads `ViewerGroups`, not `EditorGroups`.
- `canEdit` has no shortcut for an empty directive: it denies.
- The `canEdit` doc comment (lines 277-282) says editing is denied when
  `canView()` is false, and under LoggedInUsers when the member lacks the
  CMS_Access_CMSMain code. The code does neither: `canEdit` never calls
  `canView` and checks no permission code under LoggedInUsers. The model
  follows the code; `EditWithoutView` shows a tile nobody logged out may view
  but may edit.
- Writing the layout record's positions back gives the original geometry only
  when both stored sizes are at least 1; otherwise the size becomes 1.
- `Inherit` asks a page parent with no member argument, and a non-page parent
  through the singleton of its class (not the parent record) with the member.
  A missing or unresolvable parent class grants. With the non-polymorphic
  `has_one` the parent class name is normally empty, which grants.

## Model

| member | source | states |
|---|---|---|
| `Tiles.Tile.constructor` | src/Models/Tile.php:35-58 | a new tile has both directives Inherit, empty groups, no parent and zeroed geometry |
| `Tiles.Tile.GetWidth` | src/Models/Tile.php:344-346 | the effective width is at least 1 and equals the stored width whenever that is at least 1 |
| `Tiles.Tile.GetHeight` | src/Models/Tile.php:352-354 | the effective height is at least 1 and equals the stored height whenever that is at least 1 |
| `Tiles.Tile.GetSize` | src/Models/Tile.php:101-103 | the size label decodes back to the raw stored width and height, negative values included |
| `PhpStrings.IntToString` | src/Models/Tile.php:102 | an integer renders as a '-' exactly when negative, followed by decimal digits |
| `PhpStrings.NatToDecimal` | src/Models/Tile.php:102 | a non-negative integer renders as a non-empty digit string with a leading '0' only for zero |
| `PhpStrings.DecimalRoundTrip` | src/Models/Tile.php:102 | reading the rendered digits gives back the number |
| `PhpStrings.IntRoundTrip` | src/Models/Tile.php:102 | parsing a rendered integer gives back the integer |
| `PhpStrings.SizeLabelRoundTrip` | src/Models/Tile.php:102 | the "W-H" label determines W and H: the first '-' after a leading sign separates them |
| `Tiles.Tile.GetTileColor` | src/Models/Tile.php:401-403 | the colour is the stored one when PHP reads it as true, else "transparent"; never empty |
| `Tiles.Tile.GetPreviewImage` | src/Models/Tile.php:417-419 | a plain tile has no preview image |
| `Tiles.Tile.GetMaxWidth` | src/Models/Tile.php:85-87 | the advertised width limit is the Tile class's own, whatever the run-time class |
| `Tiles.Tile.GetMaxHeight` | src/Models/Tile.php:93-95 | the advertised height limit is the Tile class's own, whatever the run-time class |
| `Tiles.Tile.GetPreviewContent` | src/Models/Tile.php:409-411 | the preview is the framework's character limiter applied to the content with limit 150 |
| `Tiles.Tile.GenerateRawArray` | src/Models/Tile.php:380-395 | the layout record carries the raw position, the effective width and height, Tile's limits, the display colour, the preview and no image |
| `Tiles.Tile.Validate` | src/Models/Tile.php:192-204 | keeps the inherited messages and adds a height error iff Height exceeds the run-time class's limit and a width error iff Width does, height first, nothing else added, no field changed |
| `Tiles.ApplyPatch` | src/Models/Tile.php:361-372 | each geometry field takes its key's value when the key is present and keeps its value when absent |
| `Tiles.Tile.WriteRawArray` | src/Models/Tile.php:360-374 | Row, Col, Width and Height take the present x, y, w, h; absent keys and every other field stay unchanged |
| `TileProperties.PatchIdempotent` | src/Models/Tile.php:360-374 | applying the same positional update twice equals applying it once |
| `TileProperties.PatchExample` | src/Models/Tile.php:360-374 | x=5, h=3 on (1, 1, 2, 2) gives (5, 1, 2, 3) |
| `TileProperties.LayoutRoundTrip` | src/Models/Tile.php:380-395 | writing back the record's x, y, w, h keeps Row and Col and sets the sizes to their effective values |
| `TileProperties.LayoutRoundTripIsIdentity` | src/Models/Tile.php:360-395 | that round trip leaves the geometry unchanged iff both stored sizes are at least 1 |
| `TileProperties.ZeroSizeLayoutAndLabel` | src/Models/Tile.php:101-103 | a stored 0 by 0 tile is laid out 1 by 1 and labelled "0-0" |
| `TileProperties.AdvertisedLimits` | src/Models/Tile.php:85-95 | the advertised limits are Tile's 2 by 2 for every run-time class and match the enforced ones iff that class declares the same |
| `Tiles.ViewActor` | src/Models/Tile.php:224-226 | canView acts for the argument when it is a member object passing the is_a test, and for the current user's ID in every other case |
| `Tiles.EditActorID` | src/Models/Tile.php:292-298 | canEdit's ID is the object's or the numeric argument's, otherwise the current user's |
| `Tiles.GroupCheck` | src/Models/Tile.php:262-267 | the group test passes only for a present member in the groups; a numeric ID whose record does not load fails |
| `Tiles.ViewOverride` | src/Models/Tile.php:229 | the view override needs a present actor holding ADMIN or SITETREE_VIEW_ALL; without the 'Member' name it is the current user's |
| `Tiles.EditOverride` | src/Models/Tile.php:299 | the edit override asks by ID, with a non-zero ID holding ADMIN or SITETREE_EDIT_ALL |
| `Tiles.ViewExtension` | src/Models/Tile.php:233 | extensions are asked about the resolved actor, the current user's ID unless a member object passes the is_a test |
| `Tiles.EditExtension` | src/Models/Tile.php:304 | extensions are asked about an ID: a member object's own, a numeric argument, or the current user's |
| `Tiles.Tile.ParentDecision` | src/Models/Tile.php:242-254 | Inherit grants without a parent or with a missing or unresolvable parent class; a denial always comes from the page's or the singleton's own answer |
| `Tiles.Tile.CanView` | src/Models/Tile.php:223-270 | every denial has one of the documented reasons: no override and an extension's no, or the parent's no under Inherit, nobody under LoggedInUsers, no viewer group under OnlyTheseUsers |
| `Tiles.Tile.CanEdit` | src/Models/Tile.php:291-338 | every denial has a reason: no override and an extension's no, or an empty directive, the parent's no under Inherit, a falsy argument under LoggedInUsers, no viewer group under OnlyTheseUsers |
| `TileProperties.ViewOverrideGrants` | src/Models/Tile.php:229-230 | an actor with ADMIN or SITETREE_VIEW_ALL may view whatever the directive |
| `TileProperties.ViewExtensionDecides` | src/Models/Tile.php:233-235 | otherwise an extension's definite answer is the decision |
| `TileProperties.ViewOpenDirectiveGrants` | src/Models/Tile.php:238-239 | otherwise an empty or Anyone directive grants |
| `TileProperties.ViewInheritWithoutParentGrants` | src/Models/Tile.php:242-245 | Inherit without a parent grants, also to nobody |
| `TileProperties.ViewInheritFromPage` | src/Models/Tile.php:246-247 | Inherit with a page parent returns the page's answer |
| `TileProperties.ViewInheritUnresolvableParentGrants` | src/Models/Tile.php:248-251 | Inherit with a missing or unresolvable parent class grants |
| `TileProperties.ViewInheritFromSingleton` | src/Models/Tile.php:252 | Inherit with a resolvable class asks its singleton for the resolved actor |
| `TileProperties.ViewLoggedInUsersNeedsActor` | src/Models/Tile.php:257-259 | LoggedInUsers grants iff the resolved actor is present |
| `TileProperties.ViewOnlyTheseUsersChecksGroups` | src/Models/Tile.php:262-269 | OnlyTheseUsers grants iff the resolved actor is in ViewerGroups; anything else denies |
| `TileProperties.ViewIgnoresArgument` | src/Models/Tile.php:224-226 | when 'Member' does not name the member class, every argument gets the same answer |
| `TileProperties.ViewReplacesMemberID` | src/Models/Tile.php:224-226 | a numeric argument is replaced by the current user's ID |
| `TileProperties.EditOverrideGrants` | src/Models/Tile.php:299-301 | an actor with ADMIN or SITETREE_EDIT_ALL may edit whatever the directive |
| `TileProperties.EditExtensionDecides` | src/Models/Tile.php:304-307 | otherwise an extension's definite answer is the decision |
| `TileProperties.EditUnsetDenies` | src/Models/Tile.php:309-337 | otherwise an empty directive denies: no open shortcut for editing |
| `TileProperties.EditInheritWithoutParentGrants` | src/Models/Tile.php:310-313 | Inherit without a parent grants |
| `TileProperties.EditInheritFromPage` | src/Models/Tile.php:314-315 | Inherit with a page parent returns the page's edit answer |
| `TileProperties.EditInheritUnresolvableParentGrants` | src/Models/Tile.php:316-319 | Inherit with a missing or unresolvable parent class grants |
| `TileProperties.EditInheritFromSingleton` | src/Models/Tile.php:320 | Inherit with a resolvable class asks its singleton with the original argument |
| `TileProperties.EditLoggedInUsersTestsArgument` | src/Models/Tile.php:325-327 | LoggedInUsers grants iff the original argument is truthy, so a call without one is denied |
| `TileProperties.EditOnlyTheseUsersReadsViewerGroups` | src/Models/Tile.php:330-337 | OnlyTheseUsers grants iff the argument's member is in ViewerGroups |
| `TileProperties.EditorGroupMemberDenied` | src/Models/Tile.php:333 | a member of EditorGroups in no viewer group is denied editing |
| `TileProperties.EditWithoutView` | src/Models/Tile.php:277-338 | with nobody logged in, a root tile with LoggedInUsers viewing and Inherit editing cannot be viewed but can be edited: canEdit does not consult canView |
| `TileProperties.EditIgnoresEditorGroups` | src/Models/Tile.php:291-338 | the edit decision depends only on the edit directive, ViewerGroups and the parent, never on EditorGroups |

## Left out

- `getCMSFields`, `getSettingsFields`: admin form construction, localised labels and group listings.
- `forTemplate`, `CSSName`: template rendering and class-name reflection.
- `getPreviewContent`: the framework's HTML character limit is a parameter `limitCharacters` applied to the content with the limit 150; its stripping and ellipsis rules are not modelled.
- Persistence: `write()` in `writeRawArray`, versioning, and the ID a first write assigns; the update is field assignment only.
- Input coercion: patch values are optional integers; PHP's `(int)` of other input and `isset` treating `null` as absent are not modelled.
- Integer width: stored integers are unbounded; the database column width is not modelled.
- Tiles.Tile.GetSize: reads the raw stored Width and Height; this is the reading chosen here. In the framework, `$this->Width` goes through `getWidth()` first (which is why line 345 uses `getField`), and on that reading a 0 by 0 tile is labelled "1-1", not "0-0"; an unset field of a fresh record is null and the raw reading would print it as "", which the integer fields here do not model.
- Tiles.Tile.Validate: compares the raw stored Width and Height with the limits, the same chosen reading. On the framework reading it compares the floored values, which differs only when a run-time class declares a limit below 1.
- Validation messages are tags; their text (the width message names `$maxheight`) is not modelled.
- `singular_name()` and `ID` in the layout record are given values of the tile.
- Framework services (`Member::currentUserID`, `Permission::checkMember`, `extendedCan`, `inGroups`, `DataObject::get_by_id`, `singleton`, `ClassInfo::getValidSubClasses`) and the parent's own `canView`/`canEdit` are oracles of `Services`; the parent element class is not part of this model, so there is no recursion up the parent chain.
- A page parent whose record is missing (a call on `null`) is not modelled; the page oracle always answers.
- Member arguments other than a member object, an ID, `null` or `false` (e.g. a non-numeric string, which would reach `->inGroups` on a non-object) are not modelled.
- Idempotence of the access checks: `CanView` and `CanEdit` are functions, so repeated calls on the same state agree; no separate lemma states it.
