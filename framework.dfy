/**
 * What a tile asks of the CMS framework when it decides access. Every framework
 * call is an oracle field of `Services`; none of them is implemented here.
 */
module Framework {
  import opened Wrappers

  /**
   * A value passed as `$member`: nothing (the default `null`), `false`, a member
   * object, or a member ID.
   */
  datatype MemberArg = NullArg | FalseArg | MemberObject(id: int) | MemberId(id: int)

  /** PHP truthiness of a member argument: objects are true, an ID is true unless 0. */
  predicate Truthy(m: MemberArg) {
    match m
    case NullArg => false
    case FalseArg => false
    case MemberObject(_) => true
    case MemberId(id) => id != 0
  }

  /** `is_numeric($member)`. */
  predicate IsNumeric(m: MemberArg) {
    m.MemberId?
  }

  /** Permission codes that let a member view, or edit, every tile. */
  const VIEW_ALL_CODES: seq<string> := ["ADMIN", "SITETREE_VIEW_ALL"]
  const EDIT_ALL_CODES: seq<string> := ["ADMIN", "SITETREE_EDIT_ALL"]

  datatype Services = Services(
    // Member::currentUserID(): the logged-in member's ID, 0 when nobody is logged in
    currentUserID: int,
    // whether the global class name 'Member' denotes the member class, i.e. whether
    // is_a($member, 'Member') can hold of a member object
    memberNameResolves: bool,
    // Permission::checkMember($member, $codes): the member holds one of the codes
    checkMember: (MemberArg, seq<string>) -> bool,
    // $this->extendedCan($method, $member): an extension's definite answer, or None
    extendedCan: (string, MemberArg) -> Option<bool>,
    // DataObject::get_by_id('Member', $id) finds a record
    memberExists: int -> bool,
    // $member->inGroups($groups) for the member with this ID
    inGroups: (int, set<int>) -> bool,
    // ClassInfo::getValidSubClasses(): the page classes
    siteTreeClasses: set<string>,
    // DataObject::get_by_id('SiteTree', $id)->canView() and ->canEdit(), no member passed
    pageCanView: int -> bool,
    pageCanEdit: int -> bool,
    // singleton($class) is truthy
    singletonResolves: string -> bool,
    // singleton($class)->canView($member) and ->canEdit($member)
    singletonCanView: (string, MemberArg) -> bool,
    singletonCanEdit: (string, MemberArg) -> bool
  )
}
