/** The deterministic name a Service's load balancer and firewall rule share. */
module Names {
  import opened Wrappers

  const MAX_NAME := 49
  const MIN_SERVICE_PART := 5
  const HASH_LENGTH := 8

  function Assemble(namespace: string, service: string, hash: string): string {
    namespace + "-" + service + "-" + hash
  }

  /** None is the "namespace is too long" error. hash is the hash of the Service's UID. */
  function ResourceName(namespace: string, service: string, hash: string): Option<string> {
    var name := Assemble(namespace, service, hash);
    if |name| < 50 then Some(name)
    else
      var room := MAX_NAME - |namespace| - |hash| - 2;
      if room < MIN_SERVICE_PART then None
      else Some(Assemble(namespace, if |service| > room then service[..room] else service, hash))
  }

  /** Always under 50 bytes, exactly 49 when shortened, and refused exactly when shortening is
      needed and the namespace is longer than 34. */
  lemma ResourceNameLength(namespace: string, service: string, hash: string)
    requires |hash| == HASH_LENGTH
    ensures var n := ResourceName(namespace, service, hash);
            var full := |Assemble(namespace, service, hash)|;
            && (n.None? <==> full >= 50 && |namespace| > 34)
            && (n.Some? ==> |n.value| == if full < 50 then full else 49)
  {
  }

  lemma NameEndsInHash(namespace: string, service: string, hash: string)
    requires ResourceName(namespace, service, hash).Some?
    ensures var n := ResourceName(namespace, service, hash).value;
            |n| >= |hash| && n[|n| - |hash|..] == hash
  {
  }

  /** Equal names come from equal hashes: a name belongs to one Service only. */
  lemma NameDeterminesHash(ns1: string, svc1: string, hash1: string, ns2: string, svc2: string, hash2: string)
    requires |hash1| == |hash2|
    requires ResourceName(ns1, svc1, hash1).Some?
    requires ResourceName(ns1, svc1, hash1) == ResourceName(ns2, svc2, hash2)
    ensures hash1 == hash2
  {
    NameEndsInHash(ns1, svc1, hash1);
    NameEndsInHash(ns2, svc2, hash2);
  }

  /** The name is namespace, service and hash with hyphens between; a service name that would make it 50 bytes or
      more is cut to what 49 leave for it. */
  lemma ResourceNameForm(namespace: string, service: string, hash: string)
    requires ResourceName(namespace, service, hash).Some?
    ensures var full := namespace + "-" + service + "-" + hash;
            var part := if |full| < 50 || |service| <= 47 - |namespace| - |hash| then service
                        else if |namespace| + |hash| <= 47 then service[..47 - |namespace| - |hash|] else "";
            ResourceName(namespace, service, hash).value == namespace + "-" + part + "-" + hash
  {
  }
}
