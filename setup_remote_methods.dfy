/** setup-remote-methods.js: the mixin that decides, once all models are attached,
    which remote methods of a model to disable, and disables them. */
module SetupRemoteMethods {
  import opened Wrappers
  import opened Lists
  import opened Host
  import opened Utils

  /** A JavaScript value as it may appear in `options.ignoreACL`. */
  datatype Flag = Undefined | Bool(b: bool) | Text(s: string) | Number(n: int)

  /** The mixin options. `None` stands for a missing or falsy option; any array is truthy. */
  datatype Options = Options(
    disable: Option<seq<string>>,
    disableAllExcept: Option<seq<string>>,
    ignoreACL: Flag)

  /** The test `options.ignoreACL !== true` fails only for the boolean `true` itself. */
  predicate IgnoresAcl(f: Flag)
  {
    f == Bool(true)
  }

  /** A shared method's name as `disableRemoteMethodByName` expects it. */
  function QualifiedName(m: SharedMethod): string
  {
    if m.isStatic then m.name else "prototype." + m.name
  }

  /** `Model.sharedClass.methods().map(...)`: every method of the catalogue, qualified. */
  function QualifiedNames(methods: seq<SharedMethod>): (r: seq<string>)
    ensures |r| == |methods|
    ensures forall i :: 0 <= i < |methods| ==> r[i] == QualifiedName(methods[i])
  {
    if methods == [] then []
    else [QualifiedName(methods[0])] + QualifiedNames(methods[1..])
  }

  /** The list of names to disable before the ACL step. */
  function CandidateNames(methods: seq<SharedMethod>, options: Options): seq<string>
  {
    if options.disableAllExcept.Some? then Difference(QualifiedNames(methods), options.disableAllExcept.value)
    else if options.disable.Some? then options.disable.value
    else []
  }

  /** The list of names the handler disables, given the names the ACL authorises. */
  function MethodsToDisable(methods: seq<SharedMethod>, options: Options, authorized: seq<string>): seq<string>
  {
    var candidates := CandidateNames(methods, options);
    if IgnoresAcl(options.ignoreACL) then candidates else Difference(candidates, authorized)
  }

  /** The body of the `started` handler. */
  method OnServerStarted(model: Model, options: Options)
    modifies model`disabled, Acls(model)
    ensures model.disabled ==
      old(model.disabled) + MethodsToDisable(model.methods, options, AuthorizedNames(old(Records(Acls(model)))))
    ensures forall k :: 0 <= k < |Acls(model)| ==>
      Acls(model)[k].Record() ==
        if IgnoresAcl(options.ignoreACL) then old(Acls(model)[k].Record()) else Normalized(old(Acls(model)[k].Record()))
  {
    var methodsToDisable: seq<string> := [];
    if options.disable.Some? {
      methodsToDisable := options.disable.value;
    }
    if options.disableAllExcept.Some? {
      var allMethods := QualifiedNames(model.methods);
      methodsToDisable := Difference(allMethods, options.disableAllExcept.value);
    }
    assert methodsToDisable == CandidateNames(model.methods, options);
    ghost var authorized := AuthorizedNames(Records(Acls(model)));
    if options.ignoreACL != Bool(true) {
      var authorizedAclMethods := GetAuthorizedAclMethods(model);
      methodsToDisable := Difference(methodsToDisable, authorizedAclMethods);
    }
    assert methodsToDisable == MethodsToDisable(model.methods, options, authorized);
    if |methodsToDisable| > 0 {
      DisableEach(model, methodsToDisable);
    }
  }

  /** `methodsToDisable.forEach(...)`: one `disableRemoteMethodByName` call per name, in list order. */
  method DisableEach(model: Model, methodsToDisable: seq<string>)
    modifies model`disabled
    ensures model.disabled == old(model.disabled) + methodsToDisable
  {
    var i := 0;
    while i < |methodsToDisable|
      invariant 0 <= i <= |methodsToDisable|
      invariant model.disabled == old(model.disabled) + methodsToDisable[..i]
    {
      model.DisableRemoteMethodByName(methodsToDisable[i]);
      assert methodsToDisable[..i + 1] == methodsToDisable[..i] + [methodsToDisable[i]];
      i := i + 1;
    }
    assert methodsToDisable[..i] == methodsToDisable;
  }

  /** The exported `(Model, options)` function, with the `attached` and `started` events
      taken to have fired: without a model or a shared class it does nothing. */
  method Setup(model: Model?, options: Options)
    modifies model, if model != null then Acls(model) else []
    ensures model == null || !model.hasSharedClass ==>
      (model != null ==> unchanged(model) && unchanged(Acls(model)))
    ensures model != null && model.hasSharedClass ==>
      model.methods == old(model.methods) && model.acls == old(model.acls) &&
      model.disabled ==
        old(model.disabled) + MethodsToDisable(model.methods, options, AuthorizedNames(old(Records(Acls(model)))))
    ensures model != null && model.hasSharedClass ==>
      forall k :: 0 <= k < |Acls(model)| ==>
        Acls(model)[k].Record() ==
          if IgnoresAcl(options.ignoreACL) then old(Acls(model)[k].Record()) else Normalized(old(Acls(model)[k].Record()))
  {
    if model == null || !model.hasSharedClass {
      return;
    }
    OnServerStarted(model, options);
  }

  /** With neither `disable` nor `disableAllExcept`, nothing is disabled. */
  lemma NothingConfiguredDisablesNothing(methods: seq<SharedMethod>, options: Options, authorized: seq<string>)
    requires options.disable == None && options.disableAllExcept == None
    ensures MethodsToDisable(methods, options, authorized) == []
  {
  }

  /** With only `disable` and `ignoreACL: true`, exactly the `disable` list is disabled, in its order. */
  lemma DisableListTakenAsIs(methods: seq<SharedMethod>, options: Options, authorized: seq<string>)
    requires options.disableAllExcept == None && options.disable.Some?
    requires IgnoresAcl(options.ignoreACL)
    ensures MethodsToDisable(methods, options, authorized) == options.disable.value
  {
  }

  /** Under `disableAllExcept`, the candidates are the qualified catalogue names not kept,
      in catalogue order, each as often as the catalogue lists it. */
  lemma DisableAllExceptCandidates(methods: seq<SharedMethod>, options: Options, x: string)
    requires options.disableAllExcept.Some?
    ensures IsSubsequence(CandidateNames(methods, options), QualifiedNames(methods))
    ensures x in CandidateNames(methods, options) <==>
      x !in options.disableAllExcept.value && exists i :: 0 <= i < |methods| && QualifiedName(methods[i]) == x
    ensures multiset(CandidateNames(methods, options))[x] ==
      if x in options.disableAllExcept.value then 0 else multiset(QualifiedNames(methods))[x]
  {
    var all := QualifiedNames(methods);
    DifferenceCount(all, options.disableAllExcept.value, x);
    DifferenceMembership(all, options.disableAllExcept.value);
    DifferenceIsSubsequence(all, options.disableAllExcept.value);
    if x in all {
      var i :| 0 <= i < |all| && all[i] == x;
      assert QualifiedName(methods[i]) == x;
    }
  }

  /** A name kept by `disableAllExcept` is never disabled. */
  lemma KeptNamesNeverDisabled(methods: seq<SharedMethod>, options: Options, authorized: seq<string>, x: string)
    requires options.disableAllExcept.Some? && x in options.disableAllExcept.value
    ensures x !in MethodsToDisable(methods, options, authorized)
  {
    var candidates := CandidateNames(methods, options);
    DifferenceMembership(QualifiedNames(methods), options.disableAllExcept.value);
    DifferenceMembership(candidates, authorized);
  }

  /** When `disableAllExcept` is set, the value of `disable` has no influence at all. */
  lemma DisableOverriddenByDisableAllExcept(
    methods: seq<SharedMethod>, options: Options, disable: Option<seq<string>>, authorized: seq<string>)
    requires options.disableAllExcept.Some?
    ensures MethodsToDisable(methods, options.(disable := disable), authorized) ==
            MethodsToDisable(methods, options, authorized)
  {
  }

  /** Every `ignoreACL` value other than `true` (`false` and `undefined` among them) gives
      the same result: the candidates minus every authorised name, by exact string equality. */
  lemma NonTrueIgnoreAclAppliesAcl(methods: seq<SharedMethod>, options: Options, authorized: seq<string>, x: string)
    requires !IgnoresAcl(options.ignoreACL)
    ensures MethodsToDisable(methods, options, authorized) ==
            MethodsToDisable(methods, options.(ignoreACL := Undefined), authorized)
    ensures MethodsToDisable(methods, options, authorized) ==
            MethodsToDisable(methods, options.(ignoreACL := Bool(false)), authorized)
    ensures x in MethodsToDisable(methods, options, authorized) <==>
            x in CandidateNames(methods, options) && x !in authorized
  {
    DifferenceMembership(CandidateNames(methods, options), authorized);
  }

  /** When the ACL authorises none of the candidates, the ACL step removes nothing:
      `ignoreACL` then makes no difference. */
  lemma AclWithoutOverlapRemovesNothing(methods: seq<SharedMethod>, options: Options, authorized: seq<string>)
    requires forall x :: x in CandidateNames(methods, options) ==> x !in authorized
    ensures MethodsToDisable(methods, options, authorized) == CandidateNames(methods, options)
  {
    DifferenceOfDisjoint(CandidateNames(methods, options), authorized);
  }

  /** The disabled names are the candidates with some removed, order kept; when the ACL
      step runs, no authorised name is left. */
  lemma DisabledWithinCandidates(methods: seq<SharedMethod>, options: Options, authorized: seq<string>)
    ensures IsSubsequence(MethodsToDisable(methods, options, authorized), CandidateNames(methods, options))
    ensures !IgnoresAcl(options.ignoreACL) ==>
      forall x :: x in authorized ==> x !in MethodsToDisable(methods, options, authorized)
  {
    var candidates := CandidateNames(methods, options);
    SubsequenceReflexive(candidates);
    DifferenceIsSubsequence(candidates, authorized);
    DifferenceMembership(candidates, authorized);
  }

  /** A bare ACL name does not protect the instance method of that name: `prototype.<name>`
      is still disabled unless the ACL lists `prototype.<name>` itself. */
  lemma BareAclNameDoesNotExemptInstanceMethod(
    methods: seq<SharedMethod>, options: Options, authorized: seq<string>, name: string)
    requires "prototype." + name in CandidateNames(methods, options)
    requires "prototype." + name !in authorized
    ensures "prototype." + name in MethodsToDisable(methods, options, authorized)
  {
    DifferenceMembership(CandidateNames(methods, options), authorized);
  }
}
