/** The parts of a LoopBack model that the mixin reads or changes. */
module Host {
  import opened Wrappers

  /** One entry of `Model.sharedClass.methods()`. */
  datatype SharedMethod = SharedMethod(name: string, isStatic: bool)

  /** The value held in an ACL entry's `property` field. */
  datatype Property =
    | Missing                    // undefined, null or another falsy non-string value
    | Name(name: string)         // a single string ("" is falsy)
    | Names(names: seq<string>)  // an array of names (always truthy)

  /** A permission string that is none of the LoopBack constants. */
  type OtherPermission = s: string | s != "ALLOW" && s != "DENY" && s != "DEFAULT" witness "allow"

  /** The string in an ACL entry's `permission` field: the LoopBack constants "ALLOW",
      "DENY" and "DEFAULT", or `Other` for any other string (such as "allow"). */
  datatype Permission = Allow | Deny | Default | Other(text: OtherPermission)

  /** The permission a string stands for: each string has exactly one, and only "ALLOW" is `Allow`. */
  function PermissionOf(s: string): (p: Permission)
    ensures (p == Allow) == (s == "ALLOW")
    ensures p.Other? == (s != "ALLOW" && s != "DENY" && s != "DEFAULT")
    ensures p.Other? ==> p.text == s
  {
    if s == "ALLOW" then Allow else if s == "DENY" then Deny else if s == "DEFAULT" then Default else Other(s)
  }

  /** The contents of one ACL entry at one moment. */
  datatype AclRecord = AclRecord(permission: Permission, property: Property)

  /** One object of `Model.settings.acls`; its fields can be rewritten in place. */
  class AclEntry {
    var permission: Permission
    var property: Property

    constructor (r: AclRecord)
      ensures Record() == r
    {
      permission, property := r.permission, r.property;
    }

    function Record(): AclRecord
      reads this
    {
      AclRecord(permission, property)
    }
  }

  /** The current contents of a list of ACL entries (an entry may occur more than once). */
  function Records(entries: seq<AclEntry>): (r: seq<AclRecord>)
    reads entries
    ensures |r| == |entries|
    ensures forall k :: 0 <= k < |entries| ==> r[k] == entries[k].Record()
  {
    seq(|entries|, k requires 0 <= k < |entries| reads entries => entries[k].Record())
  }

  /** A LoopBack model. `disabled` records, in call order, every name passed to
      `disableRemoteMethodByName`. */
  class Model {
    const hasSharedClass: bool
    var methods: seq<SharedMethod>
    var acls: Option<seq<AclEntry>>
    var disabled: seq<string>

    constructor (hasSharedClass: bool, methods: seq<SharedMethod>, acls: Option<seq<AclEntry>>)
      ensures this.hasSharedClass == hasSharedClass && this.methods == methods && this.acls == acls
      ensures disabled == []
    {
      this.hasSharedClass := hasSharedClass;
      this.methods := methods;
      this.acls := acls;
      disabled := [];
    }

    /** Records one call of the host's `disableRemoteMethodByName`. */
    method DisableRemoteMethodByName(name: string)
      modifies this`disabled
      ensures disabled == old(disabled) + [name]
    {
      disabled := disabled + [name];
    }
  }
}
