/**
 The conversions between the two versions of the CheCluster resource. Each stores the whole spec it reads in
 an annotation, starts from the spec stored by the other one, and overlays the fields both versions share.

 The functions give the converted spec and annotations as values; the two methods at the end convert real
 objects field by field, sharing the annotation map between source and target as the original does.
 */
module Conversion {
  import opened Cluster

  const V1_STORAGE := "che.eclipse.org/cheClusterV1Spec"
  const V2_STORAGE := "che.eclipse.org/cheClusterV2alpha1Spec"
  const ROUTE_SUFFIX := "CHE_INFRA_OPENSHIFT_ROUTE_HOST_DOMAIN__SUFFIX"
  const INGRESS_CLASS := "kubernetes.io/ingress.class"
  const NGINX := "nginx"

  /** A v1 spec; `rest` is everything no conversion looks at: database, auth, storage, exposure type, ... */
  datatype V1Spec = V1Spec(
    devWorkspaceEnable: bool,
    cheHost: string,
    cheHostTlsSecret: string,
    serverExposureStrategy: string,
    gatewayImage: string,
    gatewaySidecarImage: string,
    gatewayLabels: Fields,
    customProperties: Fields,
    ingressDomain: string,
    ingressClass: string,
    ingressStrategy: string,
    k8sTlsSecret: string,
    rest: Fields)

  datatype V2Spec = V2Spec(
    enabled: Option<bool>,
    baseDomain: string,
    endpointsTlsSecret: string,
    gatewayEnabled: Option<bool>,
    gatewayHost: string,
    gatewayTlsSecret: string,
    gatewayImage: string,
    gatewayConfigurerImage: string,
    gatewayConfigLabels: Fields,
    ingressAnnotations: Fields)
  {
    predicate IsEnabled() { enabled.None? || enabled.value }

    predicate IsGatewayEnabled() { gatewayEnabled.None? || gatewayEnabled.value }
  }

  const EMPTY_V1 := V1Spec(false, "", "", "", "", "", map[], map[], "", "", "", "", map[])
  const EMPTY_V2 := V2Spec(None, "", "", None, "", "", "", "", map[], map[])

  /** An annotation value: the YAML text of a spec, which parses back to that spec, or any other text. */
  datatype Value = V1Yaml(v1: V1Spec) | V2Yaml(v2: V2Spec) | Text(text: string)

  type Annotations = map<string, Value>

  datatype Result<+T> = Success(value: T) | Failure

  function StoredV1(a: Annotations): Result<V1Spec> {
    if V1_STORAGE !in a then Success(EMPTY_V1)
    else
      match a[V1_STORAGE]
      case V1Yaml(spec) => Success(spec)
      case V2Yaml(_) => Failure
      case Text(t) => if t == "" then Success(EMPTY_V1) else Failure
  }

  function StoredV2(a: Annotations): Result<V2Spec> {
    if V2_STORAGE !in a then Success(EMPTY_V2)
    else
      match a[V2_STORAGE]
      case V2Yaml(spec) => Success(spec)
      case V1Yaml(_) => Failure
      case Text(t) => if t == "" then Success(EMPTY_V2) else Failure
  }

  function Get(m: Fields, k: string): string {
    if k in m then m[k] else ""
  }

  /** The exposure strategy in force: the configured one, or a default that depends on the platform. */
  function ServerExposureStrategy(v1: V1Spec, openShift: bool): string {
    if v1.serverExposureStrategy != "" then v1.serverExposureStrategy
    else if v1.devWorkspaceEnable then "single-host"
    else if openShift then "multi-host"
    else if v1.ingressStrategy != "" then v1.ingressStrategy
    else "multi-host"
  }

  // ---------- v1 to v2alpha1 ----------

  function OverlayV2(v1: V1Spec, v2: V2Spec, openShift: bool): V2Spec {
    var strategy := ServerExposureStrategy(v1, openShift);
    V2Spec(
      Some(v1.devWorkspaceEnable),
      if openShift then Get(v1.customProperties, ROUTE_SUFFIX) else v1.ingressDomain,
      if openShift then v2.endpointsTlsSecret else v1.k8sTlsSecret,
      Some(strategy == "single-host" || strategy == "default-host"),
      v1.cheHost,
      v1.cheHostTlsSecret,
      v1.gatewayImage,
      v1.gatewaySidecarImage,
      v1.gatewayLabels,
      if v1.ingressClass != "" && v1.ingressClass != NGINX
      then v2.ingressAnnotations[INGRESS_CLASS := v1.ingressClass] else v2.ingressAnnotations)
  }

  // ---------- v2alpha1 to v1 ----------

  /** How the gateway flag becomes a strategy again, given the v1 spec it was converted from: the smallest
      change of the two v1 strategy fields that makes them agree with the flag. */
  function WithGateway(v1: V1Spec, v2: V2Spec, openShift: bool): V1Spec {
    var v1Strategy := ServerExposureStrategy(v1, openShift);
    var v2Strategy := if v2.IsGatewayEnabled() then "single-host" else "multi-host";
    if v1.serverExposureStrategy == "" then
      if openShift then
        if v2Strategy != v1Strategy then v1.(serverExposureStrategy := v2Strategy) else v1
      else if v1.ingressStrategy != "" then
        if v1.ingressStrategy == "default-host" then
          if v2Strategy != "single-host" then v1.(ingressStrategy := v2Strategy) else v1
        else if v2Strategy != v1Strategy then v1.(ingressStrategy := v2Strategy)
        else v1
      else if v2Strategy != v1Strategy then v1.(serverExposureStrategy := v2Strategy)
      else v1
    else if v1Strategy != "default-host" || v2Strategy != "single-host" then v1.(serverExposureStrategy := v2Strategy)
    else v1
  }

  function WithIngressClass(v1: V1Spec, v2: V2Spec): V1Spec {
    var found := Get(v2.ingressAnnotations, INGRESS_CLASS);
    var ingressClass := if found == "" then NGINX else found;
    if v1.ingressClass != "" || ingressClass != NGINX then v1.(ingressClass := ingressClass) else v1
  }

  function OverlayV1(v1: V1Spec, v2: V2Spec, openShift: bool): V1Spec {
    var a := v1.(devWorkspaceEnable := v2.IsEnabled(), cheHost := v2.gatewayHost);
    var b := WithGateway(a, v2, openShift).(
      gatewayImage := v2.gatewayImage,
      gatewaySidecarImage := v2.gatewayConfigurerImage,
      cheHostTlsSecret := v2.gatewayTlsSecret,
      gatewayLabels := v2.gatewayConfigLabels);
    var c := if openShift then b.(customProperties := b.customProperties[ROUTE_SUFFIX := v2.baseDomain])
             else b.(ingressDomain := v2.baseDomain, k8sTlsSecret := v2.endpointsTlsSecret);
    WithIngressClass(c, v2)
  }

  // ---------- objects ----------

  datatype Cluster1 = Cluster1(annotations: Annotations, spec: V1Spec)
  datatype Cluster2 = Cluster2(annotations: Annotations, spec: V2Spec)

  function ToV2(c: Cluster1, openShift: bool): Result<Cluster2> {
    var stored := StoredV2(c.annotations);
    if stored.Failure? then Failure
    else Success(Cluster2(c.annotations[V1_STORAGE := V1Yaml(c.spec)], OverlayV2(c.spec, stored.value, openShift)))
  }

  function ToV1(c: Cluster2, openShift: bool): Result<Cluster1> {
    var stored := StoredV1(c.annotations);
    if stored.Failure? then Failure
    else Success(Cluster1(c.annotations[V2_STORAGE := V2Yaml(c.spec)], OverlayV1(stored.value, c.spec, openShift)))
  }

  // ---------- round trips ----------

  /** The same v2 spec with the two optional flags spelled out: a missing one means that it is on. */
  function Explicit(v2: V2Spec): V2Spec {
    v2.(enabled := Some(v2.enabled != Some(false)), gatewayEnabled := Some(v2.gatewayEnabled != Some(false)))
  }

  /** The one case a v1 spec cannot express: on Kubernetes, with dev workspaces enabled, the gateway can only be
      off if serverExposureStrategy says so, and it is left empty because ingressStrategy is set. */
  predicate GatewayCannotBeOff(v1: V1Spec, v2: V2Spec, openShift: bool) {
    && !openShift
    && v2.enabled != Some(false)
    && v2.gatewayEnabled == Some(false)
    && v1.serverExposureStrategy == ""
    && v1.ingressStrategy != ""
  }

  /** Whether a v1 spec asks for the gateway: by its server exposure strategy if that is given; else always with
      dev workspaces; else, on Kubernetes only, by its ingress strategy. */
  predicate AsksForGateway(v1: V1Spec, openShift: bool) {
    if v1.serverExposureStrategy != "" then
      v1.serverExposureStrategy == "single-host" || v1.serverExposureStrategy == "default-host"
    else
      v1.devWorkspaceEnable
      || (!openShift && (v1.ingressStrategy == "single-host" || v1.ingressStrategy == "default-host"))
  }

  lemma FlagIs(v1: V1Spec, v2: V2Spec, openShift: bool)
    ensures OverlayV2(v1, v2, openShift).gatewayEnabled == Some(AsksForGateway(v1, openShift))
  {
    assert "multi-host"[0] != "single-host"[0] && "multi-host"[0] != "default-host"[0];
  }

  /** The flags a conversion to v2 sets, on both platforms. */
  lemma FlagsAre(c: Cluster1, openShift: bool)
    requires StoredV2(c.annotations).Success?
    ensures var v2 := ToV2(c, openShift).value.spec;
            && v2.gatewayEnabled == Some(AsksForGateway(c.spec, openShift))
            && v2.enabled == Some(c.spec.devWorkspaceEnable)
  {
    FlagIs(c.spec, StoredV2(c.annotations).value, openShift);
  }

  /** The gateway is on unless the v2 spec says that it is not. */
  predicate GatewayIsOn(v2: V2Spec) {
    v2.gatewayEnabled != Some(false)
  }

  lemma GatewayReturns(v1: V1Spec, v2: V2Spec, openShift: bool)
    requires v1.devWorkspaceEnable == (v2.enabled != Some(false))
    ensures AsksForGateway(WithGateway(v1, v2, openShift), openShift) == GatewayIsOn(v2)
            <==> !GatewayCannotBeOff(v1, v2, openShift)
  {
    assert "multi-host"[0] != "single-host"[0] && "multi-host"[0] != "default-host"[0];
  }

  lemma {:induction false} OverlayGatewayReturns(stored: V1Spec, v2: V2Spec, openShift: bool)
    ensures AsksForGateway(OverlayV1(stored, v2, openShift), openShift) == GatewayIsOn(v2)
            <==> !GatewayCannotBeOff(stored, v2, openShift)
  {
    var a := stored.(devWorkspaceEnable := v2.IsEnabled(), cheHost := v2.gatewayHost);
    var b, c := WithGateway(a, v2, openShift), OverlayV1(stored, v2, openShift);
    GatewayReturns(a, v2, openShift);
    assert b.devWorkspaceEnable == c.devWorkspaceEnable;
    assert b.serverExposureStrategy == c.serverExposureStrategy;
    assert b.ingressStrategy == c.ingressStrategy;
  }

  lemma {:induction false} AllButGatewayReturns(stored: V1Spec, v2: V2Spec, openShift: bool)
    ensures OverlayV2(OverlayV1(stored, v2, openShift), v2, openShift).(gatewayEnabled := None)
            == Explicit(v2).(gatewayEnabled := None)
  {
    var a := stored.(devWorkspaceEnable := v2.IsEnabled(), cheHost := v2.gatewayHost);
    GatewayKeepsRest(a, v2, openShift);
    var back := OverlayV2(OverlayV1(stored, v2, openShift), v2, openShift);
    assert back.ingressAnnotations == v2.ingressAnnotations;
  }

  /** v2 to v1 and back: for any v2 object and whatever v1 spec its annotations carry, both conversions succeed
      and every field returns, exactly unless the gateway flag cannot be expressed. */
  lemma {:induction false} RoundTripV2(c: Cluster2, openShift: bool)
    requires StoredV1(c.annotations).Success?
    ensures var v1 := ToV1(c, openShift).value;
            && ToV2(v1, openShift).Success?
            && var back := ToV2(v1, openShift).value.spec;
               && (back == Explicit(c.spec) <==> !GatewayCannotBeOff(StoredV1(c.annotations).value, c.spec, openShift))
               && back.(gatewayEnabled := None) == Explicit(c.spec).(gatewayEnabled := None)
  {
    var stored := StoredV1(c.annotations).value;
    var v1 := ToV1(c, openShift).value;
    assert StoredV2(v1.annotations) == Success(c.spec);
    AllButGatewayReturns(stored, c.spec, openShift);
    FlagIs(v1.spec, c.spec, openShift);
    OverlayGatewayReturns(stored, c.spec, openShift);
  }

  /** The same v1 spec, with the route suffix property present on OpenShift. */
  function WithSuffix(v1: V1Spec, openShift: bool): V1Spec {
    if openShift then
      var suffix := Get(v1.customProperties, ROUTE_SUFFIX);
      v1.(customProperties := v1.customProperties[ROUTE_SUFFIX := suffix])
    else v1
  }

  function ClassInForce(ingressClass: string): string {
    if ingressClass == "" then NGINX else ingressClass
  }

  /** A v1 resource that uses nginx does not change the ingress class stored in the v2 spec. */
  predicate ClassStays(v1: V1Spec, v2: V2Spec) {
    ClassInForce(v1.ingressClass) == NGINX && ClassInForce(Get(v2.ingressAnnotations, INGRESS_CLASS)) != NGINX
  }

  predicate IsKnownStrategy(strategy: string) {
    strategy == "single-host" || strategy == "multi-host" || strategy == "default-host"
  }

  /** The strategy that counts, if one is given, is one v2 can tell apart: an ingress strategy counts on Kubernetes
      only, and neither beside a server exposure strategy nor with dev workspaces. */
  predicate StrategyIsKnown(v1: V1Spec, openShift: bool) {
    if v1.serverExposureStrategy != "" then IsKnownStrategy(v1.serverExposureStrategy)
    else v1.devWorkspaceEnable || openShift || v1.ingressStrategy == "" || IsKnownStrategy(v1.ingressStrategy)
  }

  /** The strategy in force is one v2 can tell apart, and the stored v2 spec does not name another ingress class
      than the v1 spec does. */
  predicate Expressible(v1: V1Spec, v2: V2Spec, openShift: bool) {
    StrategyIsKnown(v1, openShift) && !ClassStays(v1, v2)
  }

  lemma ClassReturns(v1: V1Spec, stored: V2Spec, openShift: bool)
    ensures WithIngressClass(v1, OverlayV2(v1, stored, openShift)) == v1 <==> !ClassStays(v1, stored)
  {
    var v2 := OverlayV2(v1, stored, openShift);
    assert Get(v2.ingressAnnotations, INGRESS_CLASS)
           == if ClassInForce(v1.ingressClass) != NGINX then v1.ingressClass
              else Get(stored.ingressAnnotations, INGRESS_CLASS);
  }

  lemma StrategyReturns(v1: V1Spec, v2: V2Spec, openShift: bool)
    requires GatewayIsOn(v2) == AsksForGateway(v1, openShift)
    ensures WithGateway(v1, v2, openShift) == v1 <==> StrategyIsKnown(v1, openShift)
  {
    assert "multi-host"[0] != "single-host"[0] && "multi-host"[0] != "default-host"[0]
        && "single-host"[0] != "default-host"[0];
  }

  /** The way back of a spec just converted touches its strategy, its route suffix and its ingress class only. */
  lemma BackIs(v1: V1Spec, stored: V2Spec, openShift: bool)
    ensures var v2 := OverlayV2(v1, stored, openShift);
            OverlayV1(v1, v2, openShift) == WithIngressClass(WithSuffix(WithGateway(v1, v2, openShift), openShift), v2)
  {
    var v2 := OverlayV2(v1, stored, openShift);
    assert v1.(devWorkspaceEnable := v2.IsEnabled(), cheHost := v2.gatewayHost) == v1;
    GatewayKeepsRest(v1, v2, openShift);
  }

  /** Which strategy field takes the gateway flag, and what it becomes: the server exposure strategy if it is given, or
      if there is nothing else to set; the ingress strategy if only that is given, on Kubernetes. A strategy that
      already says so stays, also default-host for a gateway that is on. */
  lemma StrategiesAfter(v1: V1Spec, v2: V2Spec, openShift: bool)
    ensures var t := WithGateway(v1, v2, openShift);
            var on := v2.gatewayEnabled != Some(false);
            var wanted := if on then "single-host" else "multi-host";
            if v1.serverExposureStrategy != "" then
              && t.serverExposureStrategy
                 == (if v1.serverExposureStrategy == "default-host" && on then "default-host" else wanted)
              && t.ingressStrategy == v1.ingressStrategy
            else if !openShift && v1.ingressStrategy != "" then
              && t.serverExposureStrategy == ""
              && t.ingressStrategy
                 == (if on && (v1.devWorkspaceEnable || v1.ingressStrategy == "default-host") then v1.ingressStrategy
                     else wanted)
            else
              && t.serverExposureStrategy == (if on == v1.devWorkspaceEnable then "" else wanted)
              && t.ingressStrategy == v1.ingressStrategy
  {
    assert "multi-host"[0] != "single-host"[0];
  }

  function WithoutStrategy(v1: V1Spec): V1Spec {
    v1.(serverExposureStrategy := "", ingressStrategy := "")
  }

  lemma GatewayKeepsRest(v1: V1Spec, v2: V2Spec, openShift: bool)
    ensures WithoutStrategy(WithGateway(v1, v2, openShift)) == WithoutStrategy(v1)
  {
  }

  /** v1 to v2 and back: for any v1 object and whatever v2 spec its annotations carry, both conversions succeed
      and the whole spec returns, exactly if it is expressible. */
  lemma {:induction false} RoundTripV1(c: Cluster1, openShift: bool)
    requires StoredV2(c.annotations).Success?
    ensures var v2 := ToV2(c, openShift).value;
            && ToV1(v2, openShift).Success?
            && (ToV1(v2, openShift).value.spec == WithSuffix(c.spec, openShift)
                <==> Expressible(c.spec, StoredV2(c.annotations).value, openShift))
  {
    var stored := StoredV2(c.annotations).value;
    var v2 := ToV2(c, openShift).value;
    assert StoredV1(v2.annotations) == Success(c.spec);
    BackIs(c.spec, stored, openShift);
    ClassReturns(c.spec, stored, openShift);
    FlagsAre(c, openShift);
    StrategyReturns(c.spec, v2.spec, openShift);
    GatewayKeepsRest(c.spec, v2.spec, openShift);
  }

  // ---------- both versions say the same ----------

  /** What a resource asks for, in terms of neither version. */
  datatype Meaning = Meaning(
    devWorkspace: bool, gateway: bool, host: string, hostTls: string, image: string, sidecar: string,
    labels: Fields, domain: string, endpointsTls: string, ingressClass: string)

  function Meaning1(v1: V1Spec, openShift: bool): Meaning {
    Meaning(v1.devWorkspaceEnable, AsksForGateway(v1, openShift), v1.cheHost, v1.cheHostTlsSecret,
            v1.gatewayImage, v1.gatewaySidecarImage, v1.gatewayLabels,
            if openShift then Get(v1.customProperties, ROUTE_SUFFIX) else v1.ingressDomain,
            if openShift then "" else v1.k8sTlsSecret, ClassInForce(v1.ingressClass))
  }

  function Meaning2(v2: V2Spec, openShift: bool): Meaning {
    Meaning(v2.enabled != Some(false), v2.gatewayEnabled != Some(false), v2.gatewayHost, v2.gatewayTlsSecret,
            v2.gatewayImage, v2.gatewayConfigurerImage, v2.gatewayConfigLabels, v2.baseDomain,
            if openShift then "" else v2.endpointsTlsSecret, ClassInForce(Get(v2.ingressAnnotations, INGRESS_CLASS)))
  }

  /** Converted to v2 a resource asks for the same, exactly unless an ingress class was stored that the v1 spec
      has gone back from. */
  lemma V2SaysTheSame(c: Cluster1, openShift: bool)
    requires StoredV2(c.annotations).Success?
    ensures Meaning2(ToV2(c, openShift).value.spec, openShift) == Meaning1(c.spec, openShift)
            <==> !ClassStays(c.spec, StoredV2(c.annotations).value)
  {
    var v2 := ToV2(c, openShift).value.spec;
    FlagsAre(c, openShift);
    assert Get(v2.ingressAnnotations, INGRESS_CLASS)
           == if ClassInForce(c.spec.ingressClass) != NGINX then c.spec.ingressClass
              else Get(StoredV2(c.annotations).value.ingressAnnotations, INGRESS_CLASS);
  }

  /** Converted to v1 a resource asks for the same, exactly unless the gateway cannot be off. */
  lemma V1SaysTheSame(c: Cluster2, openShift: bool)
    requires StoredV1(c.annotations).Success?
    ensures Meaning1(ToV1(c, openShift).value.spec, openShift) == Meaning2(c.spec, openShift)
            <==> !GatewayCannotBeOff(StoredV1(c.annotations).value, c.spec, openShift)
  {
    OverlayGatewayReturns(StoredV1(c.annotations).value, c.spec, openShift);
  }

  // ---------- where a conversion starts from ----------

  /** A conversion fails exactly if what the other version has stored is some other text than its spec. */
  lemma FailsIfUnreadable(c: Cluster1, d: Cluster2, openShift: bool)
    ensures ToV2(c, openShift).Failure? <==>
              V2_STORAGE in c.annotations && c.annotations[V2_STORAGE] != Text("") && !c.annotations[V2_STORAGE].V2Yaml?
    ensures ToV1(d, openShift).Failure? <==>
              V1_STORAGE in d.annotations && d.annotations[V1_STORAGE] != Text("") && !d.annotations[V1_STORAGE].V1Yaml?
  {
  }

  /** If the other version has stored nothing, all it does not share is empty. */
  lemma StartsEmpty(c: Cluster1, d: Cluster2, openShift: bool)
    requires V2_STORAGE in c.annotations ==> c.annotations[V2_STORAGE] == Text("")
    requires V1_STORAGE in d.annotations ==> d.annotations[V1_STORAGE] == Text("")
    ensures var v2 := ToV2(c, openShift).value.spec;
            && v2.ingressAnnotations - {INGRESS_CLASS} == map[]
            && (openShift ==> v2.endpointsTlsSecret == "")
    ensures var v1 := ToV1(d, openShift).value.spec;
            && v1.customProperties - {ROUTE_SUFFIX} == map[] && v1.rest == map[]
            && (!openShift ==> v1.customProperties == map[])
            && (openShift ==> v1.ingressDomain == "" && v1.k8sTlsSecret == "")
  {
  }

  // ---------- chains of conversions and edits ----------

  /** One resource, looked at in either version. */
  datatype View = AsV1(c1: Cluster1) | AsV2(c2: Cluster2)
  {
    function Annos(): Annotations {
      if AsV1? then c1.annotations else c2.annotations
    }
  }

  /** What happens to it: a conversion to the other version, an edit of the whole spec of the version it is
      in, or an edit of one annotation. */
  datatype Step = Convert | EditV1(s1: V1Spec) | EditV2(s2: V2Spec) | Annotate(key: string, value: Option<Value>)

  ghost predicate Applies(v: View, s: Step) {
    match s
    case Convert => true
    case EditV1(_) => v.AsV1?
    case EditV2(_) => v.AsV2?
    case Annotate(k, _) => k != V1_STORAGE && k != V2_STORAGE
  }

  function Annotated(a: Annotations, k: string, value: Option<Value>): Annotations {
    if value.Some? then a[k := value.value] else a - {k}
  }

  /** A resource whose stored counterpart, if any, can be read. */
  predicate Readable(v: View) {
    match v
    case AsV1(c) => StoredV2(c.annotations).Success?
    case AsV2(c) => StoredV1(c.annotations).Success?
  }

  function Next(v: View, s: Step, openShift: bool): View
    requires Readable(v)
  {
    match s
    case Convert => if v.AsV1? then AsV2(ToV2(v.c1, openShift).value) else AsV1(ToV1(v.c2, openShift).value)
    case EditV1(s1) => if v.AsV1? then AsV1(v.c1.(spec := s1)) else v
    case EditV2(s2) => if v.AsV2? then AsV2(v.c2.(spec := s2)) else v
    case Annotate(k, value) =>
      if v.AsV1? then AsV1(v.c1.(annotations := Annotated(v.c1.annotations, k, value)))
      else AsV2(v.c2.(annotations := Annotated(v.c2.annotations, k, value)))
  }

  ghost predicate IsChain(v: View, steps: seq<Step>, openShift: bool)
    decreases |steps|
  {
    && Readable(v)
    && (steps != [] ==> Applies(v, steps[0]) && IsChain(Next(v, steps[0], openShift), steps[1..], openShift))
  }

  function After(v: View, steps: seq<Step>, openShift: bool): View
    requires IsChain(v, steps, openShift)
    decreases |steps|
  {
    if steps == [] then v else After(Next(v, steps[0], openShift), steps[1..], openShift)
  }

  /** What of a v1 spec has no place in v2. */
  function V1Only(v1: V1Spec, openShift: bool): V1Spec {
    EMPTY_V1.(
      customProperties := if openShift then v1.customProperties - {ROUTE_SUFFIX} else v1.customProperties,
      ingressDomain := if openShift then v1.ingressDomain else "",
      k8sTlsSecret := if openShift then v1.k8sTlsSecret else "",
      rest := v1.rest)
  }

  /** What of a v2 spec has no place in v1. */
  function V2Only(v2: V2Spec, openShift: bool): V2Spec {
    EMPTY_V2.(
      endpointsTlsSecret := if openShift then v2.endpointsTlsSecret else "",
      ingressAnnotations := v2.ingressAnnotations - {INGRESS_CLASS})
  }

  function Complement1(v: View, openShift: bool): V1Spec
    requires Readable(v)
  {
    V1Only(if v.AsV1? then v.c1.spec else StoredV1(v.c2.annotations).value, openShift)
  }

  function Complement2(v: View, openShift: bool): V2Spec
    requires Readable(v)
  {
    V2Only(if v.AsV2? then v.c2.spec else StoredV2(v.c1.annotations).value, openShift)
  }

  function UserAnnotations(a: Annotations): Annotations {
    a - {V1_STORAGE, V2_STORAGE}
  }

  function UserEdits(a: Annotations, steps: seq<Step>): Annotations
    decreases |steps|
  {
    if steps == [] then a
    else UserEdits(if steps[0].Annotate? then Annotated(a, steps[0].key, steps[0].value) else a, steps[1..])
  }

  lemma OverlayKeepsV2Only(v1: V1Spec, stored: V2Spec, openShift: bool)
    ensures V2Only(OverlayV2(v1, stored, openShift), openShift) == V2Only(stored, openShift)
  {
    assert OverlayV2(v1, stored, openShift).ingressAnnotations - {INGRESS_CLASS}
           == stored.ingressAnnotations - {INGRESS_CLASS};
  }

  lemma OverlayKeepsV1Only(stored: V1Spec, v2: V2Spec, openShift: bool)
    ensures V1Only(OverlayV1(stored, v2, openShift), openShift) == V1Only(stored, openShift)
  {
    GatewayKeepsRest(stored.(devWorkspaceEnable := v2.IsEnabled(), cheHost := v2.gatewayHost), v2, openShift);
    assert stored.customProperties[ROUTE_SUFFIX := v2.baseDomain] - {ROUTE_SUFFIX}
           == stored.customProperties - {ROUTE_SUFFIX};
  }

  lemma {:induction false} StepKeepsComplements(v: View, s: Step, openShift: bool)
    requires Readable(v) && Applies(v, s)
    ensures Readable(Next(v, s, openShift))
    ensures !s.EditV1? ==> Complement1(Next(v, s, openShift), openShift) == Complement1(v, openShift)
    ensures !s.EditV2? ==> Complement2(Next(v, s, openShift), openShift) == Complement2(v, openShift)
  {
    match s
    case Convert =>
      if v.AsV1? {
        OverlayKeepsV2Only(v.c1.spec, StoredV2(v.c1.annotations).value, openShift);
      } else {
        OverlayKeepsV1Only(StoredV1(v.c2.annotations).value, v.c2.spec, openShift);
      }
    case EditV1(_) =>
    case EditV2(_) =>
    case Annotate(k, value) =>
  }

  lemma StepKeepsAnnotations(v: View, s: Step, openShift: bool)
    requires Readable(v) && Applies(v, s)
    ensures UserAnnotations(Next(v, s, openShift).Annos()) == UserEdits(UserAnnotations(v.Annos()), [s])
  {
    var a := v.Annos();
    assert [s][1..] == [];
    match s
    case Convert =>
      if v.AsV1? {
        assert UserAnnotations(a[V1_STORAGE := V1Yaml(v.c1.spec)]) == UserAnnotations(a);
      } else {
        assert UserAnnotations(a[V2_STORAGE := V2Yaml(v.c2.spec)]) == UserAnnotations(a);
      }
    case EditV1(_) =>
    case EditV2(_) =>
    case Annotate(k, value) =>
      assert UserAnnotations(Annotated(a, k, value)) == Annotated(UserAnnotations(a), k, value);
  }

  /** Over any chain of conversions and edits, on either platform: no conversion fails; what only v1 knows
      survives every edit of the v2 side, what only v2 knows survives every edit of the v1 side; and the
      annotations are the user's own plus at most the two storage keys. */
  lemma {:induction false} ComplementsSurvive(v: View, steps: seq<Step>, openShift: bool)
    requires IsChain(v, steps, openShift)
    ensures var last := After(v, steps, openShift);
            && Readable(last)
            && ((forall s | s in steps :: !s.EditV1?) ==> Complement1(last, openShift) == Complement1(v, openShift))
            && ((forall s | s in steps :: !s.EditV2?) ==> Complement2(last, openShift) == Complement2(v, openShift))
            && UserAnnotations(last.Annos()) == UserEdits(UserAnnotations(v.Annos()), steps)
    decreases |steps|
  {
    if steps != [] {
      var s := steps[0];
      StepKeepsComplements(v, s, openShift);
      StepKeepsAnnotations(v, s, openShift);
      assert [s][1..] == [];
      assert forall t | t in steps[1..] :: t in steps;
      ComplementsSurvive(Next(v, s, openShift), steps[1..], openShift);
    }
  }

  // ---------- the converters on objects ----------

  /** An annotation map, which the two versions of one resource share by reference. */
  class AnnotationMap {
    var m: Annotations

    constructor ()
      ensures m == map[]
    {
      m := map[];
    }
  }

  class V1Object {
    var annotations: AnnotationMap?
    var spec: V1Spec
    var status: Fields

    constructor (annotations: AnnotationMap?, spec: V1Spec, status: Fields)
      ensures this.annotations == annotations && this.spec == spec && this.status == status
    {
      this.annotations, this.spec, this.status := annotations, spec, status;
    }
  }

  class V2Object {
    var annotations: AnnotationMap?
    var spec: V2Spec

    constructor (annotations: AnnotationMap?, spec: V2Spec)
      ensures this.annotations == annotations && this.spec == spec
    {
      this.annotations, this.spec := annotations, spec;
    }
  }

  function Content(a: AnnotationMap?): Annotations
    reads a
  {
    if a == null then map[] else a.m
  }

  function Footprint(a: AnnotationMap?): set<object> {
    if a == null then {} else {a}
  }

  method V1ToV2alpha1(v1: V1Object, v2: V2Object, openShift: bool) returns (ok: bool)
    modifies v2, Footprint(v1.annotations)
    ensures v1.annotations == old(v1.annotations) && v1.spec == old(v1.spec) && v1.status == old(v1.status)
    ensures var r := ToV2(Cluster1(old(Content(v1.annotations)), v1.spec), openShift);
            && ok == r.Success?
            && (ok ==> v2.annotations != null && Cluster2(v2.annotations.m, v2.spec) == r.value)
            && (ok && v1.annotations != null ==> v2.annotations == v1.annotations)
            && (!ok ==> v2.annotations == old(v2.annotations) && v2.spec == old(v2.spec)
                        && Content(v1.annotations) == old(Content(v1.annotations)))
  {
    var stored := StoredV2(Content(v1.annotations));
    if stored.Failure? {
      return false;
    }
    v2.annotations := v1.annotations;
    v2.spec := stored.value;
    if v2.annotations == null {
      v2.annotations := new AnnotationMap();
    }
    v2.annotations.m := v2.annotations.m[V1_STORAGE := V1Yaml(v1.spec)];

    v2.spec := v2.spec.(enabled := Some(v1.spec.devWorkspaceEnable));
    v2.spec := v2.spec.(gatewayHost := v1.spec.cheHost);
    var exposureStrategy := ServerExposureStrategy(v1.spec, openShift);
    var val := exposureStrategy == "single-host" || exposureStrategy == "default-host";
    v2.spec := v2.spec.(gatewayEnabled := Some(val));
    v2.spec := v2.spec.(gatewayImage := v1.spec.gatewayImage);
    v2.spec := v2.spec.(gatewayConfigurerImage := v1.spec.gatewaySidecarImage);
    v2.spec := v2.spec.(gatewayTlsSecret := v1.spec.cheHostTlsSecret);
    v2.spec := v2.spec.(gatewayConfigLabels := v1.spec.gatewayLabels);
    if openShift {
      v2.spec := v2.spec.(baseDomain := Get(v1.spec.customProperties, ROUTE_SUFFIX));
    } else {
      v2.spec := v2.spec.(baseDomain := v1.spec.ingressDomain);
    }
    if !openShift {
      v2.spec := v2.spec.(endpointsTlsSecret := v1.spec.k8sTlsSecret);
    }
    if v1.spec.ingressClass != "" && v1.spec.ingressClass != NGINX {
      v2.spec := v2.spec.(ingressAnnotations := v2.spec.ingressAnnotations[INGRESS_CLASS := v1.spec.ingressClass]);
    }
    return true;
  }

  method V2alpha1ToV1GatewayEnabled(v1: V1Object, v2: V2Object, openShift: bool)
    modifies v1`spec
    ensures v1.spec == WithGateway(old(v1.spec), v2.spec, openShift)
  {
    var v1Strategy := ServerExposureStrategy(v1.spec, openShift);
    var v1IngressStrategy := v1.spec.ingressStrategy;
    var v2Strategy;
    if v2.spec.IsGatewayEnabled() {
      v2Strategy := "single-host";
    } else {
      v2Strategy := "multi-host";
    }
    if v1.spec.serverExposureStrategy == "" {
      if openShift {
        if v2Strategy != v1Strategy {
          v1.spec := v1.spec.(serverExposureStrategy := v2Strategy);
        }
      } else if v1IngressStrategy != "" {
        if v1IngressStrategy == "default-host" {
          if v2Strategy != "single-host" {
            v1.spec := v1.spec.(ingressStrategy := v2Strategy);
          }
        } else if v2Strategy != v1Strategy {
          v1.spec := v1.spec.(ingressStrategy := v2Strategy);
        }
      } else if v2Strategy != v1Strategy {
        v1.spec := v1.spec.(serverExposureStrategy := v2Strategy);
      }
    } else if v1Strategy != "default-host" || v2Strategy != "single-host" {
      v1.spec := v1.spec.(serverExposureStrategy := v2Strategy);
    }
  }

  method V2alpha1ToV1K8sIngressAnnotations(v1: V1Object, v2: V2Object)
    modifies v1`spec
    ensures v1.spec == WithIngressClass(old(v1.spec), v2.spec)
  {
    var ingressClass := Get(v2.spec.ingressAnnotations, INGRESS_CLASS);
    if ingressClass == "" {
      ingressClass := NGINX;
    }
    if v1.spec.ingressClass != "" || ingressClass != NGINX {
      v1.spec := v1.spec.(ingressClass := ingressClass);
    }
  }

  method V2alpha1ToV1(v2: V2Object, v1: V1Object, openShift: bool) returns (ok: bool)
    modifies v1, Footprint(v2.annotations)
    ensures v2.annotations == old(v2.annotations) && v2.spec == old(v2.spec)
    ensures var r := ToV1(Cluster2(old(Content(v2.annotations)), v2.spec), openShift);
            && ok == r.Success?
            && (ok ==> v1.annotations != null && Cluster1(v1.annotations.m, v1.spec) == r.value)
            && (ok && v2.annotations != null ==> v1.annotations == v2.annotations)
            && v1.status == (if ok then map[] else old(v1.status))
            && (!ok ==> v1.annotations == old(v1.annotations) && v1.spec == old(v1.spec)
                        && Content(v2.annotations) == old(Content(v2.annotations)))
  {
    var stored := StoredV1(Content(v2.annotations));
    if stored.Failure? {
      return false;
    }
    v1.annotations := v2.annotations;
    v1.spec := stored.value;
    v1.status := map[];
    if v1.annotations == null {
      v1.annotations := new AnnotationMap();
    }
    v1.annotations.m := v1.annotations.m[V2_STORAGE := V2Yaml(v2.spec)];

    v1.spec := v1.spec.(devWorkspaceEnable := v2.spec.IsEnabled());
    v1.spec := v1.spec.(cheHost := v2.spec.gatewayHost);
    V2alpha1ToV1GatewayEnabled(v1, v2, openShift);
    v1.spec := v1.spec.(gatewayImage := v2.spec.gatewayImage);
    v1.spec := v1.spec.(gatewaySidecarImage := v2.spec.gatewayConfigurerImage);
    v1.spec := v1.spec.(cheHostTlsSecret := v2.spec.gatewayTlsSecret);
    v1.spec := v1.spec.(gatewayLabels := v2.spec.gatewayConfigLabels);
    if openShift {
      v1.spec := v1.spec.(customProperties := v1.spec.customProperties[ROUTE_SUFFIX := v2.spec.baseDomain]);
    } else {
      v1.spec := v1.spec.(ingressDomain := v2.spec.baseDomain);
    }
    if !openShift {
      v1.spec := v1.spec.(k8sTlsSecret := v2.spec.endpointsTlsSecret);
    }
    V2alpha1ToV1K8sIngressAnnotations(v1, v2);
    return true;
  }
}
