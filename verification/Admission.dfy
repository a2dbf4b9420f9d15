/** The InternalServicesConfig and the three allow lists that decide whether a request may run. */
module Admission {
  import opened Common
  import opened Requests
  import opened PipelineRuns

  datatype Config = Config(namespace: string, allowList: seq<string>, gitURLs: seq<string>,
                           serviceAccounts: seq<string>, debug: bool)

  /** getDefaultInternalServicesConfig. */
  function DefaultConfig(namespace: string): Config {
    Config(namespace, [], [], [], false)
  }

  /** The value of the first parameter named `url`, or the empty string. */
  function FirstURL(params: seq<Param>): string {
    if params == [] then ""
    else if params[0].name == "url" then params[0].value
    else FirstURL(params[1..])
  }

  predicate NamespaceAllowed(c: Config, namespace: string) { namespace in c.allowList }

  predicate URLAllowed(c: Config, spec: Spec) {
    spec.resolver != "git" || c.gitURLs == [] || FirstURL(spec.refParams) in c.gitURLs
  }

  predicate ServiceAccountAllowed(c: Config, spec: Spec) {
    c.serviceAccounts == [] || spec.serviceAccount == "" || spec.serviceAccount in c.serviceAccounts
  }

  predicate Admitted(c: Config, namespace: string, spec: Spec) {
    NamespaceAllowed(c, namespace) && URLAllowed(c, spec) && ServiceAccountAllowed(c, spec)
  }

  /** fmt's %v of a list of strings. */
  function Listed(items: seq<string>): string { "[" + Join(items, " ") + "]" }

  /** The message of the first check that fails. */
  function RejectionMessage(c: Config, namespace: string, spec: Spec): string {
    if !NamespaceAllowed(c, namespace) then
      "the internal request namespace (" + namespace + ") is not in the allow list"
    else if !URLAllowed(c, spec) then
      "the pipeline git resolver URL (" + FirstURL(spec.refParams) + ") is not in the allowed list: " + Listed(c.gitURLs)
    else
      "the ServiceAccount (" + spec.serviceAccount + ") is not in the allowed list: " + Listed(c.serviceAccounts)
  }

  /** The scan every check performs. */
  method Scan(items: seq<string>, wanted: string) returns (found: bool)
    ensures found <==> wanted in items
  {
    for i := 0 to |items|
      invariant wanted !in items[..i]
    {
      if items[i] == wanted { return true; }
    }
    return false;
  }

  method FindURL(params: seq<Param>) returns (url: string)
    ensures url == FirstURL(params)
  {
    url := "";
    for i := 0 to |params|
      invariant url == "" && FirstURL(params) == FirstURL(params[i..])
    {
      if params[i].name == "url" {
        url := params[i].value;
        return;
      }
    }
  }

  /** FirstURL is the value at the least index whose name is `url`. */
  lemma {:induction false} FirstURLIsFirst(params: seq<Param>)
    ensures (exists i :: 0 <= i < |params| && params[i].name == "url" && params[i].value == FirstURL(params)
                         && forall j :: 0 <= j < i ==> params[j].name != "url")
         || (FirstURL(params) == "" && forall j :: 0 <= j < |params| ==> params[j].name != "url")
  {
    if params != [] && params[0].name != "url" {
      var rest := params[1..];
      FirstURLIsFirst(rest);
      if i :| 0 <= i < |rest| && rest[i].name == "url" && rest[i].value == FirstURL(rest)
              && forall j :: 0 <= j < i ==> rest[j].name != "url" {
        assert params[i + 1] == rest[i];
        assert forall j :: 0 <= j < i + 1 ==> params[j].name != "url" by {
          assert forall j :: 0 < j < i + 1 ==> params[j] == rest[j - 1];
        }
      } else {
        assert forall j :: 0 < j < |params| ==> params[j] == rest[j - 1];
      }
    }
  }

  /** The comment on EnsureRequestIsAllowed promises the opposite: an empty allow list admits nothing. */
  lemma EmptyAllowListAdmitsNothing(c: Config, namespace: string, spec: Spec)
    requires c.allowList == []
    ensures !Admitted(c, namespace, spec)
  {
  }

  // ----- Admission read off the lists -----

  /** `url` is the value of the first parameter of that name, or empty if there is none. */
  predicate FirstURLIs(params: seq<Param>, url: string) {
    || (exists i :: 0 <= i < |params| && params[i].name == "url" && params[i].value == url
                    && forall j :: 0 <= j < i ==> params[j].name != "url")
    || (url == "" && forall j :: 0 <= j < |params| ==> params[j].name != "url")
  }

  lemma FirstURLIsUnique(params: seq<Param>, url: string)
    ensures FirstURLIs(params, url) <==> url == FirstURL(params)
  {
    FirstURLIsFirst(params);
  }

  /** The three checks that can turn a request down. */
  datatype Check = NamespaceCheck | URLCheck | AccountCheck

  /** The check has a ground: its list is in force and does not hold what the request brings. */
  predicate Objects(check: Check, c: Config, namespace: string, spec: Spec, url: string) {
    match check
    case NamespaceCheck => namespace !in c.allowList
    case URLCheck => spec.resolver == "git" && |c.gitURLs| > 0 && url !in c.gitURLs
    case AccountCheck => |c.serviceAccounts| > 0 && spec.serviceAccount != "" && spec.serviceAccount !in c.serviceAccounts
  }

  /** What each check says: it names itself, quotes what the request brought, and prints the list if it has one to show. */
  function Wording(check: Check, c: Config, namespace: string, spec: Spec, url: string): string {
    match check
    case NamespaceCheck => "the internal request namespace (" + namespace + ") is not in the allow list"
    case URLCheck => "the pipeline git resolver URL (" + url + ") is not in the allowed list: " + Listed(c.gitURLs)
    case AccountCheck =>
      "the ServiceAccount (" + spec.serviceAccount + ") is not in the allowed list: " + Listed(c.serviceAccounts)
  }

  /** The first of the three checks, in the order of the source, that objects. */
  predicate FirstObjection(check: Check, c: Config, namespace: string, spec: Spec, url: string) {
    && Objects(check, c, namespace, spec, url)
    && (!check.NamespaceCheck? ==> !Objects(NamespaceCheck, c, namespace, spec, url))
    && (check.AccountCheck? ==> !Objects(URLCheck, c, namespace, spec, url))
  }

  /** A request is admitted if and only if no check objects; an empty list of URLs or accounts never does. */
  lemma AdmittedIff(c: Config, namespace: string, spec: Spec, url: string)
    requires FirstURLIs(spec.refParams, url)
    ensures Admitted(c, namespace, spec) <==> forall check: Check :: !Objects(check, c, namespace, spec, url)
    ensures NamespaceAllowed(c, namespace) <==> !Objects(NamespaceCheck, c, namespace, spec, url)
    ensures URLAllowed(c, spec) <==> !Objects(URLCheck, c, namespace, spec, url)
    ensures ServiceAccountAllowed(c, spec) <==> !Objects(AccountCheck, c, namespace, spec, url)
  {
    FirstURLIsUnique(spec.refParams, url);
    assert Objects(NamespaceCheck, c, namespace, spec, url) <==> !NamespaceAllowed(c, namespace);
    assert Objects(URLCheck, c, namespace, spec, url) <==> !URLAllowed(c, spec);
    assert Objects(AccountCheck, c, namespace, spec, url) <==> !ServiceAccountAllowed(c, spec);
  }

  lemma FirstURLHolds(c: Config, spec: Spec)
    ensures FirstURL(spec.refParams) in c.gitURLs <==> forall url :: FirstURLIs(spec.refParams, url) ==> url in c.gitURLs
  {
    FirstURLIsUnique(spec.refParams, FirstURL(spec.refParams));
    forall url | FirstURLIs(spec.refParams, url) ensures url == FirstURL(spec.refParams) {
      FirstURLIsUnique(spec.refParams, url);
    }
  }

  /** The same with the URL left open. */
  lemma AdmittedUnlessObjected(c: Config, namespace: string, spec: Spec)
    ensures Admitted(c, namespace, spec) <==>
      forall check: Check, url :: FirstURLIs(spec.refParams, url) ==> !Objects(check, c, namespace, spec, url)
  {
    var first := FirstURL(spec.refParams);
    FirstURLIsUnique(spec.refParams, first);
    AdmittedIff(c, namespace, spec, first);
    forall url | FirstURLIs(spec.refParams, url) ensures url == first {
      FirstURLIsUnique(spec.refParams, url);
    }
  }

  /** The message of a rejection is that of the check that turned the request down first. */
  lemma MessageNamesCheck(c: Config, namespace: string, spec: Spec, url: string) returns (check: Check)
    requires !Admitted(c, namespace, spec) && FirstURLIs(spec.refParams, url)
    ensures FirstObjection(check, c, namespace, spec, url)
    ensures RejectionMessage(c, namespace, spec) == Wording(check, c, namespace, spec, url)
  {
    FirstURLIsUnique(spec.refParams, url);
    AdmittedIff(c, namespace, spec, url);
    check := if !NamespaceAllowed(c, namespace) then NamespaceCheck
             else if !URLAllowed(c, spec) then URLCheck else AccountCheck;
  }

  /** How a list is printed: its items in order, one space apart, in brackets. */
  lemma PrintedList(a: seq<string>, b: seq<string>, x: string)
    ensures Listed([]) == "[]" && Listed([x]) == "[" + x + "]"
    ensures a != [] && b != [] ==> Listed(a + b) == Listed(a)[..|Listed(a)| - 1] + " " + Listed(b)[1..]
  {
    if a != [] && b != [] {
      JoinConcat(a, b, " ");
      assert Listed(a)[..|Listed(a)| - 1] == "[" + Join(a, " ");
      assert Listed(b)[1..] == Join(b, " ") + "]";
    }
  }
}
