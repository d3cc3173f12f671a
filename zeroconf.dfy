/**
 * The mDNS service record and the calls made on the zero-configuration provider.
 * The provider itself (its wire protocol, multicast and connection handling) is
 * foreign code: here it is only a sink that records which calls it received.
 */
module ZeroConf {
  import opened Wrappers

  /** The fields of a ZeroConfRecord that the Hoccer code reads or writes. */
  datatype Record = Record(
    port: int,
    domain: string,
    protocol: string,
    application: string,
    serviceType: string,
    clientKey: string,
    name: Option<string>,
    properties: map<string, string>)

  /** One call received by the provider, in the order it was made. */
  datatype ProviderCall =
    | RegisterListener
    | RegisterService(record: Record)
    | UnregisterService(clientKey: string)
    | ConnectToService
    | DisconnectFromService

  /** The DNS-SD service type "_<application>._<protocol>.<domain>." */
  function ServiceType(application: string, protocol: string, domain: string): (t: string)
    ensures |t| == |application| + |protocol| + |domain| + 5
    ensures t[0] == '_' && t[|t| - 1] == '.'
    ensures t[1..|application| + 1] == application
    ensures t[|application| + 1..|application| + 3] == "._"
    ensures t[|application| + 3..|application| + 3 + |protocol|] == protocol
    ensures t[|application| + 3 + |protocol|] == '.'
    ensures t[|application| + 4 + |protocol|..|t| - 1] == domain
  {
    "_" + application + "._" + protocol + "." + domain + "."
  }

  /** No character of `s` is a dot. */
  predicate NoDot(s: string)
  {
    forall i :: 0 <= i < |s| ==> s[i] != '.'
  }

  /** Position of the first dot of `s` at or after `from`, or |s| if there is none. */
  function FirstDot(s: string, from: nat): (k: nat)
    requires from <= |s|
    ensures from <= k <= |s|
    ensures forall i :: from <= i < k ==> s[i] != '.'
    ensures k < |s| ==> s[k] == '.'
    decreases |s| - from
  {
    if from == |s| then from
    else if s[from] == '.' then from
    else FirstDot(s, from + 1)
  }

  /** In a service type built from dot-free names, the first dot ends the application name. */
  lemma ServiceTypeApplicationEnd(application: string, protocol: string, domain: string)
    requires NoDot(application)
    ensures FirstDot(ServiceType(application, protocol, domain), 1) == 1 + |application|
  {
    ServiceTypeAroundApplication(application, protocol, domain);
    DotAfter("_", application, "._" + protocol + "." + domain + ".");
  }

  /** In a service type built from dot-free names, the second dot ends the protocol name. */
  lemma ServiceTypeProtocolEnd(application: string, protocol: string, domain: string)
    requires NoDot(protocol)
    ensures var t := ServiceType(application, protocol, domain);
            FirstDot(t, 3 + |application|) == 3 + |application| + |protocol|
  {
    ServiceTypeAroundProtocol(application, protocol, domain);
    DotAfter("_" + application + "._", protocol, "." + domain + ".");
  }

  lemma ServiceTypeAroundApplication(application: string, protocol: string, domain: string)
    ensures ServiceType(application, protocol, domain) == "_" + application + ("._" + protocol + "." + domain + ".")
  {
  }

  lemma ServiceTypeAroundProtocol(application: string, protocol: string, domain: string)
    ensures ServiceType(application, protocol, domain) == ("_" + application + "._") + protocol + ("." + domain + ".")
  {
  }

  /** The first dot after a prefix is the one that follows a dot-free middle part. */
  lemma DotAfter(pre: string, x: string, post: string)
    requires NoDot(x) && |post| > 0 && post[0] == '.'
    ensures FirstDot(pre + x + post, |pre|) == |pre| + |x|
  {
    var t := pre + x + post;
    forall i | |pre| <= i < |pre| + |x| ensures t[i] != '.' {
      assert t[i] == x[i - |pre|];
    }
    assert t[|pre| + |x|] == post[0];
    FirstDotIsFirst(t, |pre|, |pre| + |x|);
  }

  lemma {:induction false} FirstDotIsFirst(s: string, from: nat, k: nat)
    requires from <= k < |s|
    requires s[k] == '.'
    requires forall i :: from <= i < k ==> s[i] != '.'
    ensures FirstDot(s, from) == k
    decreases k - from
  {
    if from < k {
      FirstDotIsFirst(s, from + 1, k);
    }
  }

  /**
   * The service type string identifies its parts: two records whose application
   * and protocol names contain no dot have the same type exactly when they agree
   * on application, protocol and domain.
   */
  lemma {:induction false} ServiceTypeInjective(a: string, p: string, d: string, a': string, p': string, d': string)
    requires NoDot(a) && NoDot(p) && NoDot(a') && NoDot(p')
    ensures ServiceType(a, p, d) == ServiceType(a', p', d') <==> a == a' && p == p' && d == d'
  {
    var t, t' := ServiceType(a, p, d), ServiceType(a', p', d');
    if t == t' {
      ServiceTypeApplicationEnd(a, p, d);
      ServiceTypeApplicationEnd(a', p', d');
      assert |a| == |a'|;
      ServiceTypeProtocolEnd(a, p, d);
      ServiceTypeProtocolEnd(a', p', d');
      assert |p| == |p'|;
    }
  }

  /**
   * A fresh record as both Hoccer components prepare it: domain "local", protocol
   * "tcp", application "hoccer", the resulting service type, the given port and
   * client key, no name yet and no properties.
   */
  function NewRecord(port: int, clientKey: string): (r: Record)
    ensures r.domain == "local" && r.protocol == "tcp" && r.application == "hoccer"
    ensures r.serviceType == "_hoccer._tcp.local."
    ensures r.port == port && r.clientKey == clientKey
    ensures r.name == None && r.properties == map[]
  {
    var domain, protocol, application := "local", "tcp", "hoccer";
    Record(port, domain, protocol, application, ServiceType(application, protocol, domain),
           clientKey, None, map[])
  }

  /** `getPropertyString`: the value of a property, or null when the record has none. */
  function PropertyString(r: Record, key: string): (v: Option<string>)
    ensures v.Some? <==> key in r.properties
    ensures v.Some? ==> v.value == r.properties[key]
  {
    if key in r.properties then Some(r.properties[key]) else None
  }

  /** `setProperty`: set one property, keeping all others. */
  function SetProperty(r: Record, key: string, value: string): (r': Record)
    ensures PropertyString(r', key) == Some(value)
    ensures forall k :: k != key ==> PropertyString(r', k) == PropertyString(r, k)
    ensures r'.(properties := r.properties) == r
  {
    r.(properties := r.properties[key := value])
  }
}
