/**
 What it means for an Alert, an AIProvider or an AlertGroup to be ready, and the watch mappings that say
 which of them a change can affect (internal/controller/alert_controller.go:98-179,
 aiprovider_controller.go:120-190, alertgroup_controller.go:93-160).
 */
module Readiness {
  import opened Wrappers

  datatype Name = Name(namespace: string, name: string)

  /** A reference to a key of a Secret in the referrer's namespace. */
  datatype Selector = Selector(name: string, key: string)

  datatype FeishuSpec = FeishuSpec(url: Selector, signing: Option<Selector>)

  datatype Spec =
    | AlertOf(kind: string, webhook: Option<Selector>, feishu: Option<FeishuSpec>)
    | ProviderOf(kind: string, gemini: Option<Selector>, openAI: Option<Selector>)
    | GroupOf(alertNames: seq<string>)

  /** Why an object is not ready: the content of the Ready condition's message. */
  datatype Reason =
    | SpecMissing(kind: string)
    | UnsupportedType(kind: string)
    | SecretNotFound(name: string)
    | KeyNotFound(key: string, name: string)
    | MemberNotFound(name: string)
    | MemberNotReady(name: string)
    | Unreadable(name: string)   // a Get that failed for another reason than absence

  /** What a controller sees through its cache: the keys of each Secret, and each Alert's Ready condition. */
  datatype View = View(secrets: map<Name, set<string>>, alerts: map<Name, bool>)

  // ----- validation, branch by branch as the controllers do it -----

  /** None means valid. */
  function ValidateSecretRef(secrets: map<Name, set<string>>, namespace: string, ref: Selector): Option<Reason> {
    var name := Name(namespace, ref.name);
    if name !in secrets then Some(SecretNotFound(ref.name))
    else if ref.key !in secrets[name] then Some(KeyNotFound(ref.key, ref.name))
    else None
  }

  function ValidateAlert(secrets: map<Name, set<string>>, namespace: string, alert: Spec): Option<Reason>
    requires alert.AlertOf?
  {
    if alert.kind == "Webhook" then
      if alert.webhook.None? then Some(SpecMissing("Webhook"))
      else ValidateSecretRef(secrets, namespace, alert.webhook.value)
    else if alert.kind == "Feishu" then
      if alert.feishu.None? then Some(SpecMissing("Feishu"))
      else
        var url := ValidateSecretRef(secrets, namespace, alert.feishu.value.url);
        if url.Some? then url
        else if alert.feishu.value.signing.Some? then
          ValidateSecretRef(secrets, namespace, alert.feishu.value.signing.value)
        else None
    else Some(UnsupportedType(alert.kind))
  }

  function ValidateAIProvider(secrets: map<Name, set<string>>, namespace: string, provider: Spec): Option<Reason>
    requires provider.ProviderOf?
  {
    if provider.kind == "Gemini" then
      if provider.gemini.None? then Some(SpecMissing("Gemini"))
      else ValidateSecretRef(secrets, namespace, provider.gemini.value)
    else if provider.kind == "OpenAI" then
      if provider.openAI.None? then Some(SpecMissing("OpenAI"))
      else ValidateSecretRef(secrets, namespace, provider.openAI.value)
    else Some(UnsupportedType(provider.kind))
  }

  // ----- what it means to be valid -----

  /** The Secret is there and holds the key. */
  predicate Resolves(secrets: map<Name, set<string>>, namespace: string, ref: Selector) {
    Name(namespace, ref.name) in secrets && ref.key in secrets[Name(namespace, ref.name)]
  }

  /** A Webhook Alert's reference resolves, or a Feishu Alert's url and, if there is one, its signing secret. */
  predicate WellFormedAlert(secrets: map<Name, set<string>>, namespace: string, alert: Spec) {
    && alert.AlertOf?
    && (|| (alert.kind == "Webhook" && alert.webhook.Some? && Resolves(secrets, namespace, alert.webhook.value))
        || (&& alert.kind == "Feishu" && alert.feishu.Some?
            && Resolves(secrets, namespace, alert.feishu.value.url)
            && (alert.feishu.value.signing.Some? ==> Resolves(secrets, namespace, alert.feishu.value.signing.value))))
  }

  predicate WellFormedProvider(secrets: map<Name, set<string>>, namespace: string, provider: Spec) {
    && provider.ProviderOf?
    && (|| (provider.kind == "Gemini" && provider.gemini.Some? && Resolves(secrets, namespace, provider.gemini.value))
        || (provider.kind == "OpenAI" && provider.openAI.Some? && Resolves(secrets, namespace, provider.openAI.value)))
  }

  /** A reference is refused exactly if the Secret is missing, or is there without the key; and says which. */
  lemma SecretRefIsValidIff(secrets: map<Name, set<string>>, namespace: string, ref: Selector)
    ensures var r, name := ValidateSecretRef(secrets, namespace, ref), Name(namespace, ref.name);
            && (r.None? <==> name in secrets && ref.key in secrets[name])
            && (r == Some(SecretNotFound(ref.name)) <==> name !in secrets)
            && (r == Some(KeyNotFound(ref.key, ref.name)) <==> name in secrets && ref.key !in secrets[name])
            && (r.None? <==> Resolves(secrets, namespace, ref))
  {
  }

  /** The branching validation accepts the well-formed Alerts, and names what is wrong with the others. */
  lemma AlertIsValidIff(secrets: map<Name, set<string>>, namespace: string, alert: Spec)
    requires alert.AlertOf?
    ensures var r := ValidateAlert(secrets, namespace, alert);
            && (r.None? <==> WellFormedAlert(secrets, namespace, alert))
            && (r == Some(UnsupportedType(alert.kind)) <==> alert.kind != "Webhook" && alert.kind != "Feishu")
            && (r == Some(SpecMissing(alert.kind)) <==>
                  || (alert.kind == "Webhook" && alert.webhook.None?) || (alert.kind == "Feishu" && alert.feishu.None?))
  {
  }

  lemma ProviderIsValidIff(secrets: map<Name, set<string>>, namespace: string, provider: Spec)
    requires provider.ProviderOf?
    ensures var r := ValidateAIProvider(secrets, namespace, provider);
            && (r.None? <==> WellFormedProvider(secrets, namespace, provider))
            && (r == Some(UnsupportedType(provider.kind)) <==> provider.kind != "Gemini" && provider.kind != "OpenAI")
            && (r == Some(SpecMissing(provider.kind)) <==>
                  || (provider.kind == "Gemini" && provider.gemini.None?)
                  || (provider.kind == "OpenAI" && provider.openAI.None?))
  {
  }

  // ----- validation as a list of dependencies checked in order -----

  datatype Dep =
    | Defect(why: Reason)
    | NeedsSecret(ref: Selector)
    | NeedsAlert(alert: string)

  function Deps(spec: Spec): seq<Dep> {
    match spec
    case AlertOf(kind, webhook, feishu) =>
      if kind == "Webhook" then
        if webhook.None? then [Defect(SpecMissing("Webhook"))] else [NeedsSecret(webhook.value)]
      else if kind == "Feishu" then
        if feishu.None? then [Defect(SpecMissing("Feishu"))]
        else if feishu.value.signing.None? then [NeedsSecret(feishu.value.url)]
        else [NeedsSecret(feishu.value.url), NeedsSecret(feishu.value.signing.value)]
      else [Defect(UnsupportedType(kind))]
    case ProviderOf(kind, gemini, openAI) =>
      if kind == "Gemini" then
        if gemini.None? then [Defect(SpecMissing("Gemini"))] else [NeedsSecret(gemini.value)]
      else if kind == "OpenAI" then
        if openAI.None? then [Defect(SpecMissing("OpenAI"))] else [NeedsSecret(openAI.value)]
      else [Defect(UnsupportedType(kind))]
    case GroupOf(names) => seq(|names|, i requires 0 <= i < |names| => NeedsAlert(names[i]))
  }

  /** One dependency on its own: None if it is met. */
  function Probe(view: View, namespace: string, dep: Dep): Option<Reason> {
    match dep
    case Defect(why) => Some(why)
    case NeedsSecret(ref) => ValidateSecretRef(view.secrets, namespace, ref)
    case NeedsAlert(alert) =>
      var name := Name(namespace, alert);
      if name !in view.alerts then Some(MemberNotFound(alert))
      else if !view.alerts[name] then Some(MemberNotReady(alert))
      else None
  }

  /** How many leading dependencies are met. */
  function MetPrefix(view: View, namespace: string, deps: seq<Dep>): (k: nat)
    ensures k <= |deps|
    ensures forall i :: 0 <= i < k ==> Probe(view, namespace, deps[i]).None?
    ensures k < |deps| ==> Probe(view, namespace, deps[k]).Some?
  {
    if deps == [] || Probe(view, namespace, deps[0]).Some? then 0
    else 1 + MetPrefix(view, namespace, deps[1..])
  }

  /** The Ready condition, with the two counters of an AlertGroup's status (zero elsewhere). */
  datatype Verdict = Verdict(readyAlerts: nat, totalAlerts: nat, failure: Option<Reason>)

  function Summary(spec: Spec, met: nat, failure: Option<Reason>): Verdict {
    match spec
    case GroupOf(names) => Verdict(met, |names|, failure)
    case _ => Verdict(0, 0, failure)
  }

  /** The verdict on an object, all dependencies read from one view. */
  function Judge(view: View, namespace: string, spec: Spec): Verdict {
    var deps := Deps(spec);
    var k := MetPrefix(view, namespace, deps);
    Summary(spec, k, if k < |deps| then Probe(view, namespace, deps[k]) else None)
  }

  /** The prefix and its end determine the count. */
  lemma MetPrefixIs(view: View, namespace: string, deps: seq<Dep>, k: nat)
    requires k <= |deps|
    requires forall i :: 0 <= i < k ==> Probe(view, namespace, deps[i]).None?
    requires k < |deps| ==> Probe(view, namespace, deps[k]).Some?
    ensures MetPrefix(view, namespace, deps) == k
  {
    var m := MetPrefix(view, namespace, deps);
    if m < k {
      assert false;
    }
  }

  /** The dependency list is the branching validation, for alerts and providers alike. */
  lemma JudgeIsValidate(view: View, namespace: string, spec: Spec)
    ensures spec.AlertOf? ==> Judge(view, namespace, spec).failure == ValidateAlert(view.secrets, namespace, spec)
    ensures spec.ProviderOf? ==> Judge(view, namespace, spec).failure == ValidateAIProvider(view.secrets, namespace, spec)
  {
    var deps := Deps(spec);
    if !spec.GroupOf? {
      var k := if Probe(view, namespace, deps[0]).Some? then 0
               else if |deps| > 1 && Probe(view, namespace, deps[1]).Some? then 1 else |deps|;
      MetPrefixIs(view, namespace, deps, k);
    }
  }

  /** Ready is exactly: every dependency is met. */
  lemma PassesIffAllMet(view: View, namespace: string, spec: Spec)
    ensures Judge(view, namespace, spec).failure.None? <==>
            forall i :: 0 <= i < |Deps(spec)| ==> Probe(view, namespace, Deps(spec)[i]).None?
  {
  }

  // ----- the watch mappings -----

  /** The test findAlertsForSecret makes: any reference of either spec, whatever the type. */
  predicate AlertRefersTo(alert: Spec, secret: string)
    requires alert.AlertOf?
  {
    || (alert.webhook.Some? && alert.webhook.value.name == secret)
    || (alert.feishu.Some? && (alert.feishu.value.url.name == secret ||
                               (alert.feishu.value.signing.Some? && alert.feishu.value.signing.value.name == secret)))
  }

  /** The test findAIProvidersForSecret makes: the reference of the spec the type selects. */
  predicate ProviderRefersTo(provider: Spec, secret: string)
    requires provider.ProviderOf?
  {
    if provider.kind == "Gemini" then provider.gemini.Some? && provider.gemini.value.name == secret
    else if provider.kind == "OpenAI" then provider.openAI.Some? && provider.openAI.value.name == secret
    else false
  }

  predicate RefersToSecret(spec: Spec, secret: string) {
    match spec
    case AlertOf(_, _, _) => AlertRefersTo(spec, secret)
    case ProviderOf(_, _, _) => ProviderRefersTo(spec, secret)
    case GroupOf(_) => false
  }

  predicate RefersToAlert(spec: Spec, alert: string) {
    spec.GroupOf? && alert in spec.alertNames
  }

  /** Two views that differ at one Secret at most. */
  ghost predicate SameButSecret(v: View, v': View, secret: Name) {
    && v.alerts == v'.alerts
    && forall n :: n != secret ==> (n in v.secrets <==> n in v'.secrets) &&
                                   (n in v.secrets ==> v.secrets[n] == v'.secrets[n])
  }

  ghost predicate SameButAlert(v: View, v': View, alert: Name) {
    && v.secrets == v'.secrets
    && forall n :: n != alert ==> (n in v.alerts <==> n in v'.alerts) &&
                                  (n in v.alerts ==> v.alerts[n] == v'.alerts[n])
  }

  /** The Secret mappings are complete: whatever they leave out cannot be affected. */
  lemma SecretIndexIsComplete(v: View, v': View, secret: Name, namespace: string, spec: Spec)
    requires SameButSecret(v, v', secret)
    requires !(namespace == secret.namespace && RefersToSecret(spec, secret.name))
    ensures forall i :: 0 <= i < |Deps(spec)| ==>
                          Probe(v, namespace, Deps(spec)[i]) == Probe(v', namespace, Deps(spec)[i])
  {
    forall i | 0 <= i < |Deps(spec)|
      ensures Probe(v, namespace, Deps(spec)[i]) == Probe(v', namespace, Deps(spec)[i])
    {
      if Deps(spec)[i].NeedsSecret? {
        assert Name(namespace, Deps(spec)[i].ref.name) != secret;
      }
    }
  }

  lemma AlertIndexIsComplete(v: View, v': View, alert: Name, namespace: string, spec: Spec)
    requires SameButAlert(v, v', alert)
    requires !(namespace == alert.namespace && RefersToAlert(spec, alert.name))
    ensures forall i :: 0 <= i < |Deps(spec)| ==>
                          Probe(v, namespace, Deps(spec)[i]) == Probe(v', namespace, Deps(spec)[i])
  {
    forall i | 0 <= i < |Deps(spec)|
      ensures Probe(v, namespace, Deps(spec)[i]) == Probe(v', namespace, Deps(spec)[i])
    {
      if Deps(spec)[i].NeedsAlert? {
        assert Name(namespace, Deps(spec)[i].alert) != alert;
      }
    }
  }

  /** Same probes, same verdict. */
  lemma JudgeDependsOnProbes(v: View, v': View, namespace: string, spec: Spec)
    requires forall i :: 0 <= i < |Deps(spec)| ==>
                           Probe(v, namespace, Deps(spec)[i]) == Probe(v', namespace, Deps(spec)[i])
    ensures Judge(v, namespace, spec) == Judge(v', namespace, spec)
  {
    MetPrefixIs(v', namespace, Deps(spec), MetPrefix(v, namespace, Deps(spec)));
  }

  // ----- the controllers' loops -----

  /** An item of a list of alerts, groups or providers. */
  datatype Item = Item(name: Name, spec: Spec)

  /** The requests for the items that satisfy a mapping's test, in list order. */
  function Requests(items: seq<Item>, wanted: Item -> bool): seq<Name> {
    if items == [] then []
    else
      var n := |items| - 1;
      Requests(items[..n], wanted) + if wanted(items[n]) then [items[n].name] else []
  }

  lemma {:induction false} RequestsAreWanted(items: seq<Item>, wanted: Item -> bool)
    ensures forall n :: n in Requests(items, wanted) <==> exists i :: 0 <= i < |items| && items[i].name == n && wanted(items[i])
  {
    if items != [] {
      var k := |items| - 1;
      RequestsAreWanted(items[..k], wanted);
      assert forall i :: 0 <= i < k ==> items[..k][i] == items[i];
    }
  }

  function AffectedBySecret(secret: Name): Item -> bool {
    (item: Item) => item.name.namespace == secret.namespace && RefersToSecret(item.spec, secret.name)
  }

  function AffectedByAlert(alert: Name): Item -> bool {
    (item: Item) => item.name.namespace == alert.namespace && RefersToAlert(item.spec, alert.name)
  }

  /** findAlertsForSecret over the listed alerts of the Secret's namespace. */
  method FindAlertsForSecret(items: seq<Item>, secret: Name) returns (requests: seq<Name>)
    requires forall i :: 0 <= i < |items| ==> items[i].spec.AlertOf? && items[i].name.namespace == secret.namespace
    ensures requests == Requests(items, AffectedBySecret(secret))
    ensures forall n :: n in requests <==>
              exists i ::
                && 0 <= i < |items| && items[i].name == n
                && var webhook, feishu := items[i].spec.webhook, items[i].spec.feishu;
                   || (webhook.Some? && webhook.value.name == secret.name)
                   || (feishu.Some? && feishu.value.url.name == secret.name)
                   || (feishu.Some? && feishu.value.signing.Some? && feishu.value.signing.value.name == secret.name)
  {
    RequestsAreWanted(items, AffectedBySecret(secret));
    requests := [];
    for i := 0 to |items|
      invariant requests == Requests(items[..i], AffectedBySecret(secret))
    {
      assert items[..i + 1][..i] == items[..i];
      var webhook, feishu := items[i].spec.webhook, items[i].spec.feishu;
      var isWebhookRelated := webhook.Some? && webhook.value.name == secret.name;
      var isFeishuRelated := feishu.Some? && (feishu.value.url.name == secret.name ||
                                              (feishu.value.signing.Some? && feishu.value.signing.value.name == secret.name));
      if isWebhookRelated || isFeishuRelated {
        requests := requests + [items[i].name];
      }
    }
    assert items[..|items|] == items;
  }

  /** findAIProvidersForSecret over the listed providers of the Secret's namespace. */
  method FindAIProvidersForSecret(items: seq<Item>, secret: Name) returns (requests: seq<Name>)
    requires forall i :: 0 <= i < |items| ==> items[i].spec.ProviderOf? && items[i].name.namespace == secret.namespace
    ensures requests == Requests(items, AffectedBySecret(secret))
    ensures forall n :: n in requests <==>
              exists i ::
                && 0 <= i < |items| && items[i].name == n
                && var provider := items[i].spec;
                   || (provider.kind == "Gemini" && provider.gemini.Some? && provider.gemini.value.name == secret.name)
                   || (provider.kind == "OpenAI" && provider.openAI.Some? && provider.openAI.value.name == secret.name)
  {
    RequestsAreWanted(items, AffectedBySecret(secret));
    requests := [];
    for i := 0 to |items|
      invariant requests == Requests(items[..i], AffectedBySecret(secret))
    {
      assert items[..i + 1][..i] == items[..i];
      var provider, referenced := items[i].spec, false;
      if provider.kind == "Gemini" {
        if provider.gemini.Some? && provider.gemini.value.name == secret.name {
          referenced := true;
        }
      } else if provider.kind == "OpenAI" {
        if provider.openAI.Some? && provider.openAI.value.name == secret.name {
          referenced := true;
        }
      }
      if referenced {
        requests := requests + [items[i].name];
      }
    }
    assert items[..|items|] == items;
  }

  /** findAlertGroupsForAlert: at most one request per group, however often it names the alert. */
  method FindAlertGroupsForAlert(items: seq<Item>, alert: Name) returns (requests: seq<Name>)
    requires forall i :: 0 <= i < |items| ==> items[i].spec.GroupOf? && items[i].name.namespace == alert.namespace
    ensures requests == Requests(items, AffectedByAlert(alert))
    ensures forall n :: n in requests <==>
              exists i :: 0 <= i < |items| && items[i].name == n && alert.name in items[i].spec.alertNames
  {
    RequestsAreWanted(items, AffectedByAlert(alert));
    requests := [];
    for i := 0 to |items|
      invariant requests == Requests(items[..i], AffectedByAlert(alert))
    {
      assert items[..i + 1][..i] == items[..i];
      var names, before := items[i].spec.alertNames, requests;
      for j := 0 to |names|
        invariant requests == before
        invariant alert.name !in names[..j]
      {
        if names[j] == alert.name {
          requests := requests + [items[i].name];
          break;
        }
      }
      assert names[..|names|] == names;
    }
    assert items[..|items|] == items;
  }

  /**
   validateAlertGroupMembers: the counter stops at the first member that cannot be read (fails[i]: its Get
   fails for another reason than absence), is missing or not ready. Without an unreadable member up to
   there it is the verdict.
   */
  method ValidateAlertGroupMembers(alerts: map<Name, bool>, namespace: string, names: seq<string>, fails: seq<bool>)
    returns (readyCount: nat, failure: Option<Reason>)
    requires |fails| == |names|
    ensures readyCount <= |names| && (failure.None? <==> readyCount == |names|)
    ensures forall i :: 0 <= i < readyCount ==>
              !fails[i] && Name(namespace, names[i]) in alerts && alerts[Name(namespace, names[i])]
    ensures readyCount < |names| && fails[readyCount] ==> failure == Some(Unreadable(names[readyCount]))
    ensures readyCount < |names| && !fails[readyCount] ==>
              failure == if Name(namespace, names[readyCount]) !in alerts then Some(MemberNotFound(names[readyCount]))
                         else Some(MemberNotReady(names[readyCount]))
    ensures readyCount < |names| && !fails[readyCount] && Name(namespace, names[readyCount]) in alerts ==>
              !alerts[Name(namespace, names[readyCount])]
    ensures readyCount == |names| || !fails[readyCount] ==>
              Verdict(readyCount, |names|, failure) == Judge(View(map[], alerts), namespace, GroupOf(names))
  {
    ghost var view, deps := View(map[], alerts), Deps(GroupOf(names));
    readyCount, failure := 0, None;
    for i := 0 to |names|
      invariant readyCount == i && failure == None
      invariant forall j :: 0 <= j < i ==> !fails[j] && IsReady(alerts, Name(namespace, names[j]))
      invariant forall j :: 0 <= j < i ==> Probe(view, namespace, deps[j]).None?
    {
      var key := Name(namespace, names[i]);
      if fails[i] {
        return i, Some(Unreadable(names[i]));
      }
      if key !in alerts {
        MetPrefixIs(view, namespace, deps, i);
        return i, Some(MemberNotFound(names[i]));
      }
      if !alerts[key] {
        MetPrefixIs(view, namespace, deps, i);
        return i, Some(MemberNotReady(names[i]));
      }
      readyCount := readyCount + 1;
    }
    MetPrefixIs(view, namespace, deps, |names|);
  }

  // ----- group status against delivery -----

  predicate IsReady(alerts: map<Name, bool>, name: Name) {
    name in alerts && alerts[name]
  }

  /** The members an alert is delivered to: every ready one, in order, with repetitions. */
  function Deliverable(alerts: map<Name, bool>, namespace: string, names: seq<string>): (r: seq<Name>)
    ensures |r| <= |names|
  {
    if names == [] then []
    else
      var n := |names| - 1;
      Deliverable(alerts, namespace, names[..n]) +
      if IsReady(alerts, Name(namespace, names[n])) then [Name(namespace, names[n])] else []
  }

  /** The AlertGroup branch of getAlertsFromTarget (internal/controller/monitorpod_controller.go:847-862). */
  method GetAlertsFromGroup(alerts: map<Name, bool>, namespace: string, names: seq<string>)
    returns (readyAlerts: seq<Name>)
    ensures readyAlerts == Deliverable(alerts, namespace, names)
  {
    readyAlerts := [];
    for i := 0 to |names|
      invariant readyAlerts == Deliverable(alerts, namespace, names[..i])
    {
      assert names[..i + 1][..i] == names[..i];
      var key := Name(namespace, names[i]);
      if key !in alerts {
        continue;
      }
      if alerts[key] {
        readyAlerts := readyAlerts + [key];
      }
    }
    assert names[..|names|] == names;
  }

  lemma {:induction false} ReadyPrefixIsDelivered(alerts: map<Name, bool>, namespace: string, names: seq<string>, k: nat)
    requires k <= |names|
    requires forall i :: 0 <= i < k ==> IsReady(alerts, Name(namespace, names[i]))
    ensures |Deliverable(alerts, namespace, names)| >= k
    ensures |Deliverable(alerts, namespace, names)| == |names| <==>
            forall i :: 0 <= i < |names| ==> IsReady(alerts, Name(namespace, names[i]))
    ensures |Deliverable(alerts, namespace, names)| == k <==>
            forall i :: k <= i < |names| ==> !IsReady(alerts, Name(namespace, names[i]))
  {
    if names != [] {
      var n := |names| - 1;
      ReadyPrefixIsDelivered(alerts, namespace, names[..n], if k <= n then k else n);
      assert forall i :: 0 <= i < n ==> names[..n][i] == names[i];
    }
  }

  /**
   Status against delivery on one snapshot: ReadyAlerts <= targets delivered to <= TotalAlerts, and the
   group is valid exactly when all three agree.
   */
  lemma GroupStatusBoundsDelivery(alerts: map<Name, bool>, namespace: string, names: seq<string>)
    ensures var v := Judge(View(map[], alerts), namespace, GroupOf(names));
            var delivered := |Deliverable(alerts, namespace, names)|;
            && v.readyAlerts <= delivered <= v.totalAlerts == |names|
            && (v.failure.None? <==> v.readyAlerts == delivered == v.totalAlerts)
            && (v.failure.None? <==> delivered == v.totalAlerts)
  {
    var view, deps := View(map[], alerts), Deps(GroupOf(names));
    var k := MetPrefix(view, namespace, deps);
    assert forall i :: 0 <= i < |names| ==> (Probe(view, namespace, deps[i]).None? <==> IsReady(alerts, Name(namespace, names[i])));
    ReadyPrefixIsDelivered(alerts, namespace, names, k);
    assert k < |names| ==> !IsReady(alerts, Name(namespace, names[k]));
  }

  /**
   ReadyAlerts is documented as the number of ready members. It is that number exactly when no ready
   member comes after the first one that is not.
   */
  lemma ReadyAlertsCountsReadyIff(alerts: map<Name, bool>, namespace: string, names: seq<string>)
    ensures var v := Judge(View(map[], alerts), namespace, GroupOf(names));
            v.readyAlerts == |Deliverable(alerts, namespace, names)| <==>
            forall i, j :: 0 <= i <= j < |names| && IsReady(alerts, Name(namespace, names[j])) ==>
                             IsReady(alerts, Name(namespace, names[i]))
  {
    var view, deps := View(map[], alerts), Deps(GroupOf(names));
    var k := MetPrefix(view, namespace, deps);
    assert forall i :: 0 <= i < |names| ==> (Probe(view, namespace, deps[i]).None? <==> IsReady(alerts, Name(namespace, names[i])));
    ReadyPrefixIsDelivered(alerts, namespace, names, k);
    assert k < |names| ==> !IsReady(alerts, Name(namespace, names[k]));
  }

  /** One member that is not ready in front hides a ready one behind it. */
  lemma ReadyAlertsMayUndercount()
    ensures var alerts := map[Name("ns", "up") := true];
            && Judge(View(map[], alerts), "ns", GroupOf(["down", "up"])).readyAlerts == 0
            && |Deliverable(alerts, "ns", ["down", "up"])| == 1
  {
    var alerts, names := map[Name("ns", "up") := true], ["down", "up"];
    MetPrefixIs(View(map[], alerts), "ns", Deps(GroupOf(names)), 0);
    assert names[..1] == ["down"] && names[..1][..0] == [];
    assert Deliverable(alerts, "ns", names[..1]) == [];
  }

  datatype Target = Target(kind: string, name: string)

  /** getAlertsFromTarget: None is an error, and a single Alert that is not ready yields no target. */
  method GetAlertsFromTarget(alerts: map<Name, bool>, groups: map<Name, seq<string>>, target: Target, namespace: string)
    returns (readyAlerts: Option<seq<Name>>)
    ensures var name := Name(namespace, target.name);
            if target.kind == "Alert" && name in alerts then
              readyAlerts == Some(Deliverable(alerts, namespace, [target.name]))
            else if target.kind == "AlertGroup" && name in groups then
              readyAlerts == Some(Deliverable(alerts, namespace, groups[name]))
            else readyAlerts == None
  {
    var key := Name(namespace, target.name);
    if target.kind == "Alert" {
      if key !in alerts {
        return None;
      }
      ghost var names := [target.name];
      assert names[..0] == [] && Deliverable(alerts, namespace, []) == [];
      assert Deliverable(alerts, namespace, names) == if alerts[key] then [key] else [];
      return Some(if alerts[key] then [key] else []);
    } else if target.kind == "AlertGroup" {
      if key !in groups {
        return None;
      }
      var members := GetAlertsFromGroup(alerts, namespace, groups[key]);
      return Some(members);
    }
    return None;
  }
}
