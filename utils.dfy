/** lib/utils.js: collecting the method names that ALLOW entries of a model's ACL name. */
module Utils {
  import opened Wrappers
  import opened Host

  /** JavaScript truthiness of an ACL entry's `property`. */
  predicate IsTruthy(p: Property)
  {
    match p
    case Missing => false
    case Name(s) => s != ""
    case Names(_) => true
  }

  /** The entry passes the test `acl.permission === 'ALLOW' && acl.property`. */
  predicate Authorizes(r: AclRecord)
  {
    r.permission == Allow && IsTruthy(r.property)
  }

  /** In terms of the permission string itself: an entry authorises exactly when its
      permission is the string "ALLOW" and its property is truthy. */
  lemma AuthorizesExactlyAllowString(s: string, p: Property)
    ensures Authorizes(AclRecord(PermissionOf(s), p)) <==> s == "ALLOW" && IsTruthy(p)
  {
  }

  /** The names `concat` adds for a property: a single name counts as a one-element list. */
  function PropertyList(p: Property): seq<string>
  {
    match p
    case Missing => []
    case Name(s) => [s]
    case Names(ns) => ns
  }

  /** What one entry adds to the authorised names. */
  function Contribution(r: AclRecord): seq<string>
  {
    if Authorizes(r) then PropertyList(r.property) else []
  }

  /** The entry after the scan: an authorising entry whose `property` is not an array
      gets it wrapped into a one-element array; nothing else changes. */
  function Normalized(r: AclRecord): (n: AclRecord)
    ensures Contribution(n) == Contribution(r)
  {
    if Authorizes(r) && !r.property.Names? then r.(property := Names(PropertyList(r.property))) else r
  }

  /** The names authorised by a list of entries, in entry order, duplicates kept. */
  function AuthorizedNames(acls: seq<AclRecord>): seq<string>
  {
    if acls == [] then []
    else AuthorizedNames(acls[..|acls| - 1]) + Contribution(acls[|acls| - 1])
  }

  /** The number of names the authorising entries list, counted front to back. */
  function AuthorizedCount(acls: seq<AclRecord>): nat
  {
    if acls == [] then 0
    else (if Authorizes(acls[0]) then |PropertyList(acls[0].property)| else 0) + AuthorizedCount(acls[1..])
  }

  /** `Model.settings.acls || []`. */
  function Acls(model: Model): (entries: seq<AclEntry>)
    reads model
    ensures model.acls == None ==> entries == []
  {
    if model.acls.Some? then model.acls.value else []
  }

  /** The `forEach` callback of getAuthorizedAclMethods for one entry: returns what the entry
      adds to the result, after rewriting a single-name `property` of an ALLOW entry into an array. */
  method VisitEntry(acl: AclEntry) returns (names: seq<string>)
    modifies acl
    ensures acl.Record() == Normalized(old(acl.Record()))
    ensures names == Contribution(old(acl.Record()))
  {
    names := [];
    if acl.permission == Allow && IsTruthy(acl.property) {
      if !acl.property.Names? {
        acl.property := Names(PropertyList(acl.property));
      }
      names := acl.property.names;
    }
  }

  /** getAuthorizedAclMethods: returns the names listed by the ALLOW entries and
      rewrites each such entry's single-name `property` into an array in place. */
  method GetAuthorizedAclMethods(model: Model) returns (authorizedMethods: seq<string>)
    modifies Acls(model)
    ensures authorizedMethods == AuthorizedNames(old(Records(Acls(model))))
    ensures forall k :: 0 <= k < |Acls(model)| ==>
      Acls(model)[k].Record() == Normalized(old(Acls(model)[k].Record()))
  {
    authorizedMethods := [];
    var acls := Acls(model);
    ghost var before := Records(acls);
    var i := 0;
    while i < |acls|
      invariant 0 <= i <= |acls|
      invariant forall k :: 0 <= k < |acls| ==>
        acls[k].Record() == Normalized(before[k]) || (i <= k && acls[k].Record() == before[k])
      invariant authorizedMethods == AuthorizedNames(before[..i])
    {
      var acl := acls[i];
      NormalizedIdempotent(before[i]);
      var names := VisitEntry(acl);
      AuthorizedNamesStep(before, i);
      authorizedMethods := authorizedMethods + names;
      i := i + 1;
    }
    assert before[..i] == before;
  }

  /** One more entry adds its contribution at the end. */
  lemma AuthorizedNamesStep(acls: seq<AclRecord>, i: nat)
    requires i < |acls|
    ensures AuthorizedNames(acls[..i + 1]) == AuthorizedNames(acls[..i]) + Contribution(acls[i])
  {
    assert acls[..i + 1][..i] == acls[..i];
  }

  /** Entries are read one after another: the names of a concatenation are the concatenation of the names. */
  lemma {:induction false} AuthorizedNamesAppend(a: seq<AclRecord>, b: seq<AclRecord>)
    ensures AuthorizedNames(a + b) == AuthorizedNames(a) + AuthorizedNames(b)
    decreases |b|
  {
    if b == [] {
      assert a + b == a;
    } else {
      var b' := b[..|b| - 1];
      assert (a + b)[..|a + b| - 1] == a + b';
      assert (a + b)[|a + b| - 1] == b[|b| - 1];
      AuthorizedNamesAppend(a, b');
    }
  }

  /** A name is authorised exactly when some ALLOW entry with a truthy property lists it. */
  lemma {:induction false} AuthorizedNamesMembership(acls: seq<AclRecord>, x: string)
    ensures x in AuthorizedNames(acls) <==>
      exists k :: 0 <= k < |acls| && Authorizes(acls[k]) && x in PropertyList(acls[k].property)
    decreases |acls|
  {
    if acls != [] {
      var init := acls[..|acls| - 1];
      AuthorizedNamesMembership(init, x);
      if x in AuthorizedNames(acls) && x !in AuthorizedNames(init) {
        assert Authorizes(acls[|acls| - 1]) && x in PropertyList(acls[|acls| - 1].property);
      }
      if exists k :: 0 <= k < |acls| && Authorizes(acls[k]) && x in PropertyList(acls[k].property) {
        var k :| 0 <= k < |acls| && Authorizes(acls[k]) && x in PropertyList(acls[k].property);
        if k < |acls| - 1 {
          assert init[k] == acls[k];
        }
      }
    }
  }

  /** A DENY entry, or one with a falsy property, contributes nothing wherever it stands. */
  lemma NonAuthorizingEntryIgnored(a: seq<AclRecord>, r: AclRecord, b: seq<AclRecord>)
    requires !Authorizes(r)
    ensures AuthorizedNames(a + [r] + b) == AuthorizedNames(a + b)
  {
    AuthorizedNamesAppend(a + [r], b);
    AuthorizedNamesAppend(a, [r]);
    AuthorizedNamesAppend(a, b);
    assert [r][..0] == [];
    assert AuthorizedNames([r]) == [];
    assert AuthorizedNames(a + [r]) == AuthorizedNames(a);
  }

  /** No names are lost or merged: the result is as long as all authorising entries' lists together. */
  lemma {:induction false} AuthorizedNamesLength(acls: seq<AclRecord>)
    ensures |AuthorizedNames(acls)| == AuthorizedCount(acls)
    decreases |acls|
  {
    if acls != [] {
      assert acls == [acls[0]] + acls[1..];
      AuthorizedNamesAppend([acls[0]], acls[1..]);
      assert [acls[0]][..0] == [];
      AuthorizedNamesLength(acls[1..]);
    }
  }

  /** The rewrite touches only `property`, and only of authorising entries, which end up
      holding an array of the same names. */
  lemma NormalizedChangesOnlyProperty(r: AclRecord)
    ensures Normalized(r).(property := r.property) == r
    ensures Authorizes(Normalized(r)) == Authorizes(r)
    ensures Authorizes(r) ==> Normalized(r).property == Names(PropertyList(r.property))
    ensures !Authorizes(r) ==> Normalized(r) == r
  {
  }

  /** Normalizing is done once: a normalized entry is left as it is. */
  lemma NormalizedIdempotent(r: AclRecord)
    ensures Normalized(Normalized(r)) == Normalized(r)
  {
  }

  /** The in-place rewrite does not change the answer: scanning the rewritten entries again
      yields the same names. */
  lemma {:induction false} NormalizedKeepsNames(acls: seq<AclRecord>, normalized: seq<AclRecord>)
    requires |normalized| == |acls|
    requires forall k :: 0 <= k < |acls| ==> normalized[k] == Normalized(acls[k])
    ensures AuthorizedNames(normalized) == AuthorizedNames(acls)
    decreases |acls|
  {
    if acls != [] {
      NormalizedKeepsNames(acls[..|acls| - 1], normalized[..|acls| - 1]);
    }
  }
}
