/** Client code: the situations exercised by the mixin's tests, proved by calling
    `SetupRemoteMethods.Setup` and `Utils.GetAuthorizedAclMethods` and using their contracts alone. */
module Scenarios {
  import opened Wrappers
  import opened Host
  import opened Utils
  import opened SetupRemoteMethods

  /** A catalogue of eight methods; `five` and `six` are instance methods, and so is `three`
      unless `threeIsStatic`. */
  function Catalogue(threeIsStatic: bool): seq<SharedMethod>
  {
    [SharedMethod("create", true), SharedMethod("findById", true), SharedMethod("one", true),
     SharedMethod("two", true), SharedMethod("three", threeIsStatic), SharedMethod("four", true),
     SharedMethod("five", false), SharedMethod("six", false)]
  }

  function AllowRecord(p: Property): AclRecord { AclRecord(Allow, p) }
  function DenyRecord(p: Property): AclRecord { AclRecord(Deny, p) }

  /** ALLOW one and two, ALLOW three (a single name), DENY four and five, DENY six. */
  function AclSettings(): seq<AclRecord>
  {
    [AllowRecord(Names(["one", "two"])), AllowRecord(Name("three")),
     DenyRecord(Names(["four", "five"])), DenyRecord(Name("six"))]
  }

  /** A model with one new ACL entry per element of `settings`, holding that element. */
  method NewModel(hasSharedClass: bool, methods: seq<SharedMethod>, settings: seq<AclRecord>) returns (model: Model)
    ensures fresh(model) && fresh(Acls(model))
    ensures model.hasSharedClass == hasSharedClass && model.methods == methods
    ensures Records(Acls(model)) == settings && model.disabled == []
  {
    var entries: seq<AclEntry> := [];
    var i := 0;
    while i < |settings|
      invariant 0 <= i <= |settings| && |entries| == i
      invariant fresh(entries)
      invariant forall k :: 0 <= k < i ==> entries[k].Record() == settings[k]
    {
      var entry := new AclEntry(settings[i]);
      entries := entries + [entry];
      i := i + 1;
    }
    model := new Model(hasSharedClass, methods, Some(entries));
    assert Acls(model) == entries;
  }

  lemma AclSettingsAuthorize()
    ensures AuthorizedNames(AclSettings()) == ["one", "two", "three"]
  {
    var acls := AclSettings();
    assert acls[..0] == [];
    AuthorizedNamesStep(acls, 0);
    assert AuthorizedNames(acls[..1]) == ["one", "two"];
    AuthorizedNamesStep(acls, 1);
    assert AuthorizedNames(acls[..2]) == ["one", "two", "three"];
    AuthorizedNamesStep(acls, 2);
    AuthorizedNamesStep(acls, 3);
    assert acls[..4] == acls;
  }

  lemma CatalogueQualified(threeIsStatic: bool)
    ensures QualifiedNames(Catalogue(threeIsStatic)) ==
      ["create", "findById", "one", "two", if threeIsStatic then "three" else "prototype.three",
       "four", "prototype.five", "prototype.six"]
  {
    var c := Catalogue(threeIsStatic);
    assert QualifiedName(c[6]) == "prototype.five";
    assert QualifiedName(c[7]) == "prototype.six";
    assert threeIsStatic || QualifiedName(c[4]) == "prototype.three";
  }

  /** The qualified catalogue minus the kept names `create`, `one` and `prototype.five`. */
  lemma KeptRemoved(threeIsStatic: bool)
    ensures Lists.Difference(QualifiedNames(Catalogue(threeIsStatic)), ["create", "one", "prototype.five"]) ==
      ["findById", "two", if threeIsStatic then "three" else "prototype.three", "four", "prototype.six"]
  {
    CatalogueQualified(threeIsStatic);
    KeptRemovedFrom(if threeIsStatic then "three" else "prototype.three");
  }

  lemma KeptRemovedFrom(three: string)
    requires three == "three" || three == "prototype.three"
    ensures Lists.Difference(["create", "findById", "one", "two", three, "four", "prototype.five", "prototype.six"],
                             ["create", "one", "prototype.five"]) ==
      ["findById", "two", three, "four", "prototype.six"]
  {
    var keep := ["create", "one", "prototype.five"];
    KeptRemovedFromTail(three);
    KeepStep("two", [three, "four", "prototype.five", "prototype.six"], keep);
    DropStep("one", ["two", three, "four", "prototype.five", "prototype.six"], keep);
    KeepStep("findById", ["one", "two", three, "four", "prototype.five", "prototype.six"], keep);
    DropStep("create", ["findById", "one", "two", three, "four", "prototype.five", "prototype.six"], keep);
  }

  lemma KeptRemovedFromTail(three: string)
    requires three == "three" || three == "prototype.three"
    ensures Lists.Difference([three, "four", "prototype.five", "prototype.six"], ["create", "one", "prototype.five"]) ==
      [three, "four", "prototype.six"]
  {
    var keep := ["create", "one", "prototype.five"];
    KeepStep("prototype.six", [], keep);
    DropStep("prototype.five", ["prototype.six"], keep);
    KeepStep("four", ["prototype.five", "prototype.six"], keep);
    KeepStep(three, ["four", "prototype.five", "prototype.six"], keep);
  }

  /** One unfolding of `Difference` on a list whose head `x` is removed. */
  lemma DropStep(x: string, rest: seq<string>, b: seq<string>)
    requires x in b
    ensures Lists.Difference([x] + rest, b) == Lists.Difference(rest, b)
  {
    assert ([x] + rest)[1..] == rest;
  }

  /** One unfolding of `Difference` on a list whose head `x` is kept. */
  lemma KeepStep(x: string, rest: seq<string>, b: seq<string>)
    requires x !in b
    ensures Lists.Difference([x] + rest, b) == [x] + Lists.Difference(rest, b)
  {
    assert ([x] + rest)[1..] == rest;
  }

  /** The `disable` list of the tests minus the authorised names. */
  lemma DisableMinusAcl()
    ensures Lists.Difference(["create", "findById", "one", "prototype.five"], ["one", "two", "three"]) ==
      ["create", "findById", "prototype.five"]
  {
    var acl := ["one", "two", "three"];
    KeepStep("prototype.five", [], acl);
    DropStep("one", ["prototype.five"], acl);
    KeepStep("findById", ["one", "prototype.five"], acl);
    KeepStep("create", ["findById", "one", "prototype.five"], acl);
  }

  /** The `disableAllExcept` candidates minus the authorised names: a bare `three` is removed,
      `prototype.three` is not. */
  lemma KeptMinusAcl(three: string)
    requires three == "three" || three == "prototype.three"
    ensures three == "three" ==>
      Lists.Difference(["findById", "two", three, "four", "prototype.six"], ["one", "two", "three"]) ==
      ["findById", "four", "prototype.six"]
    ensures three == "prototype.three" ==>
      Lists.Difference(["findById", "two", three, "four", "prototype.six"], ["one", "two", "three"]) ==
      ["findById", three, "four", "prototype.six"]
  {
    var acl := ["one", "two", "three"];
    KeepStep("prototype.six", [], acl);
    KeepStep("four", ["prototype.six"], acl);
    if three == "three" {
      DropStep(three, ["four", "prototype.six"], acl);
    } else {
      KeepStep(three, ["four", "prototype.six"], acl);
    }
    DropStep("two", [three, "four", "prototype.six"], acl);
    KeepStep("findById", ["two", three, "four", "prototype.six"], acl);
  }

  /** What the handler disables for `disableAllExcept: [create, one, prototype.five]` when the
      ACL step runs and `three` is static: the ACL spares `two` and `three`. */
  lemma AllExceptWithAclStatic(ignoreACL: Flag)
    requires !IgnoresAcl(ignoreACL)
    ensures MethodsToDisable(Catalogue(true), Options(None, Some(["create", "one", "prototype.five"]), ignoreACL),
                             AuthorizedNames(AclSettings())) ==
      ["findById", "four", "prototype.six"]
  {
    var options := Options(None, Some(["create", "one", "prototype.five"]), ignoreACL);
    var candidates := ["findById", "two", "three", "four", "prototype.six"];
    var authorized := AuthorizedNames(AclSettings());
    assert CandidateNames(Catalogue(true), options) == candidates by { KeptRemoved(true); }
    assert authorized == ["one", "two", "three"] by { AclSettingsAuthorize(); }
    assert Lists.Difference(candidates, authorized) == ["findById", "four", "prototype.six"] by { KeptMinusAcl("three"); }
  }

  /** The same with `three` an instance method: the ACL's bare `three` no longer matches. */
  lemma AllExceptWithAclInstance(ignoreACL: Flag)
    requires !IgnoresAcl(ignoreACL)
    ensures MethodsToDisable(Catalogue(false), Options(None, Some(["create", "one", "prototype.five"]), ignoreACL),
                             AuthorizedNames(AclSettings())) ==
      ["findById", "prototype.three", "four", "prototype.six"]
  {
    var options := Options(None, Some(["create", "one", "prototype.five"]), ignoreACL);
    var candidates := ["findById", "two", "prototype.three", "four", "prototype.six"];
    var authorized := AuthorizedNames(AclSettings());
    assert CandidateNames(Catalogue(false), options) == candidates by { KeptRemoved(false); }
    assert authorized == ["one", "two", "three"] by { AclSettingsAuthorize(); }
    assert Lists.Difference(candidates, authorized) == ["findById", "prototype.three", "four", "prototype.six"] by { KeptMinusAcl("prototype.three"); }
  }

  /** The names the ALLOW entries list come back in order, and the single-name entry
      is rewritten into an array. */
  method AuthorizedOfSettings() returns (names: seq<string>, threeProperty: Property)
    ensures names == ["one", "two", "three"]
    ensures threeProperty == Names(["three"])
  {
    var model := NewModel(true, Catalogue(true), AclSettings());
    names := GetAuthorizedAclMethods(model);
    AclSettingsAuthorize();
    threeProperty := Acls(model)[1].property;
  }

  /** `disable` with `ignoreACL: true`: all four names are disabled. */
  method DisableIgnoringAcl() returns (calls: seq<string>)
    ensures calls == ["create", "findById", "one", "prototype.five"]
  {
    var model := NewModel(true, Catalogue(true), AclSettings());
    Setup(model, Options(Some(["create", "findById", "one", "prototype.five"]), None, Bool(true)));
    calls := model.disabled;
  }

  /** `disable` with `ignoreACL` false or undefined: `one` is spared by the ACL. */
  method DisableWithAcl(ignoreACL: Flag) returns (calls: seq<string>)
    requires ignoreACL == Bool(false) || ignoreACL == Undefined
    ensures calls == ["create", "findById", "prototype.five"]
  {
    var model := NewModel(true, Catalogue(true), AclSettings());
    var options := Options(Some(["create", "findById", "one", "prototype.five"]), None, ignoreACL);
    Setup(model, options);
    assert model.disabled == MethodsToDisable(Catalogue(true), options, AuthorizedNames(AclSettings()));
    AclSettingsAuthorize();
    DisableMinusAcl();
    calls := model.disabled;
  }

  /** `disableAllExcept` with `ignoreACL: true`: everything but the three kept names. */
  method AllExceptIgnoringAcl() returns (calls: seq<string>)
    ensures calls == ["findById", "two", "three", "four", "prototype.six"]
  {
    var model := NewModel(true, Catalogue(true), AclSettings());
    var options := Options(None, Some(["create", "one", "prototype.five"]), Bool(true));
    Setup(model, options);
    assert model.disabled == MethodsToDisable(Catalogue(true), options, AuthorizedNames(AclSettings()));
    KeptRemoved(true);
    calls := model.disabled;
  }

  /** `disableAllExcept` with `ignoreACL` false or undefined: `two` and `three` are spared by the ACL too. */
  method AllExceptWithAcl(ignoreACL: Flag) returns (calls: seq<string>)
    requires ignoreACL == Bool(false) || ignoreACL == Undefined
    ensures calls == ["findById", "four", "prototype.six"]
  {
    var model := NewModel(true, Catalogue(true), AclSettings());
    var options := Options(None, Some(["create", "one", "prototype.five"]), ignoreACL);
    Setup(model, options);
    AllExceptWithAclStatic(ignoreACL);
    calls := model.disabled;
    assert calls == MethodsToDisable(Catalogue(true), options, AuthorizedNames(AclSettings()));
  }

  /** With `three` an instance method, the ACL's bare `three` does not spare `prototype.three`. */
  method AllExceptWithAclInstanceThree() returns (calls: seq<string>)
    ensures calls == ["findById", "prototype.three", "four", "prototype.six"]
  {
    var model := NewModel(true, Catalogue(false), AclSettings());
    var options := Options(None, Some(["create", "one", "prototype.five"]), Bool(false));
    Setup(model, options);
    AllExceptWithAclInstance(Bool(false));
    calls := model.disabled;
    assert calls == MethodsToDisable(Catalogue(false), options, AuthorizedNames(AclSettings()));
  }

  /** A model without a shared class is left alone, whatever the options. */
  method WithoutSharedClass() returns (calls: seq<string>)
    ensures calls == []
  {
    var model := NewModel(false, Catalogue(true), AclSettings());
    Setup(model, Options(Some(["create"]), Some([]), Bool(false)));
    calls := model.disabled;
  }
}
