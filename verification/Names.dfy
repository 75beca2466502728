/**
 The service names of models.go and the two regular-expression tests of k8s/service.go that
 tell them apart again.
 */
module Names {

  function ServiceName(app: string): (name: string)
    ensures |name| == 3 + |app| && name[3..] == app
  {
    "cf-" + app
  }

  function HeadlessName(app: string): (name: string)
    ensures |name| == |app| + 12 && name[3..|app| + 3] == app
  {
    "cf-" + app + "-headless"
  }

  predicate StartsWith(s: string, prefix: string) {
    prefix <= s
  }

  predicate EndsWith(s: string, suffix: string) {
    |suffix| <= |s| && s[|s| - |suffix|..] == suffix
  }

  /** `(headless)$` */
  predicate IsHeadless(name: string) {
    EndsWith(name, "headless")
  }

  /** `^cf-.*$`: without flags the dot does not match a newline. */
  predicate IsCFService(name: string) {
    StartsWith(name, "cf-") && '\n' !in name[3..]
  }

  /** The names the route lister does not skip. */
  predicate IsAppService(name: string) {
    IsCFService(name) && !IsHeadless(name)
  }

  /** The naming hypothesis: app names are GUIDs, which neither end in `headless` nor hold a newline. */
  predicate ValidApp(app: string) {
    !EndsWith(app, "headless") && '\n' !in app
  }

  /** The headless names of valid apps. */
  predicate HeadlessService(s: string) {
    |s| >= 12 && s == HeadlessName(s[3..|s| - 9]) && ValidApp(s[3..|s| - 9])
  }

  /** A service name passes the lister's tests exactly when the app name is valid: the exact naming condition. */
  lemma ServiceNameIsListed(app: string)
    ensures IsAppService(ServiceName(app)) <==> ValidApp(app)
  {
    var name := ServiceName(app);
    assert name[..3] == "cf-";
    if |app| >= 8 {
      assert name[|name| - 8..] == app[|app| - 8..];
    } else if |app| >= 5 {
      assert name[|name| - 8..][7 - |app|] == name[2] == '-';
    }
  }

  lemma CFServiceExactly(name: string)
    ensures IsCFService(name) <==>
      && |name| >= 3 && name[0] == 'c' && name[1] == 'f' && name[2] == '-'
      && (forall i | 3 <= i < |name| :: name[i] != '\n')
  {
    if |name| >= 3 {
      assert name[..3] == [name[0], name[1], name[2]];
      assert "cf-" <= name <==> name[..3] == "cf-";
      assert forall i | 3 <= i < |name| :: name[i] == name[3..][i - 3];
    }
  }

  /** The listed names, letter by letter. */
  lemma ListedExactly(name: string)
    ensures IsAppService(name) <==>
      && |name| >= 3 && name[0] == 'c' && name[1] == 'f' && name[2] == '-'
      && (forall i | 3 <= i < |name| :: name[i] != '\n')
      && !(|name| >= 8 && name[|name| - 8..] == "headless")
  {
    hide IsCFService;
    CFServiceExactly(name);
  }

  /** Every listed name is the service name of exactly one valid app, the one behind its prefix. */
  lemma ListedNameHasApp(name: string)
    requires IsAppService(name)
    ensures name == ServiceName(name[3..]) && ValidApp(name[3..])
  {
    assert name == name[..3] + name[3..];
    ServiceNameIsListed(name[3..]);
  }

  lemma HeadlessNameIsSkipped(app: string)
    ensures IsHeadless(HeadlessName(app)) && !IsAppService(HeadlessName(app))
  {
    var name := HeadlessName(app);
    assert name[|name| - 8..] == "headless";
  }

  /** The two constructors collide exactly on app names that end in `-headless`. */
  lemma NamesCollideExactly(app: string, other: string)
    ensures ServiceName(app) == HeadlessName(other) <==> app == other + "-headless"
  {
    assert HeadlessName(other) == ServiceName(other + "-headless");
  }

  lemma HeadlessNameInjective(a: string, b: string)
    requires HeadlessName(a) == HeadlessName(b)
    ensures a == b
  {
    assert HeadlessName(a)[3..|a| + 3] == HeadlessName(b)[3..|b| + 3];
  }
}
