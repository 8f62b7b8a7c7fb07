/** The cluster state both control loops work on: persistent volume claims
    (PVCs), each with a label map and an optional storage class, and the
    label-level updates the Kubernetes client performs on them. */
module Claims {

  datatype Option<T> = None | Some(value: T)

  /** A claim is identified by its namespace and its name. */
  datatype ClaimId = ClaimId(namespace: string, name: string)

  datatype Claim = Claim(labels: map<string, string>, storageClass: Option<string>)

  /** The store the client talks to: every claim that currently exists. */
  type Store = map<ClaimId, Claim>

  /** One entry of a claim listing: the claim's identity and its labels as
      they were when the list was taken. */
  datatype Listed = Listed(id: ClaimId, labels: map<string, string>)

  /** The claims a listing names. */
  function ListedIds(pvcs: seq<Listed>): set<ClaimId>
  {
    if pvcs == [] then {} else {pvcs[0].id} + ListedIds(pvcs[1..])
  }

  /** Setting a label on a claim that exists; a claim that does not exist
      is left alone (the client's update fails). */
  function WithLabel(s: Store, id: ClaimId, key: string, value: string): (r: Store)
    ensures r.Keys == s.Keys
    ensures id in s ==> r[id].labels == s[id].labels[key := value]
    ensures forall other :: other in s && other != id ==> r[other] == s[other]
    ensures forall c :: c in s ==> r[c].storageClass == s[c].storageClass
  {
    if id in s then s[id := s[id].(labels := s[id].labels[key := value])] else s
  }

  /** Removing a label from a claim that exists. */
  function WithoutLabel(s: Store, id: ClaimId, key: string): (r: Store)
    ensures r.Keys == s.Keys
    ensures id in s ==> r[id].labels == s[id].labels - {key}
    ensures forall other :: other in s && other != id ==> r[other] == s[other]
    ensures forall c :: c in s ==> r[c].storageClass == s[c].storageClass
  {
    if id in s then s[id := s[id].(labels := s[id].labels - {key})] else s
  }

  /** The two stores agree on everything except, possibly, the labels
      `k1` and `k2` of the claims in `touched`. */
  ghost predicate OnlyLabelsChanged(s: Store, r: Store, touched: set<ClaimId>, k1: string, k2: string)
  {
    && r.Keys == s.Keys
    && (forall c :: c in s && c !in touched ==> r[c] == s[c])
    && (forall c :: c in s ==> r[c].storageClass == s[c].storageClass)
    && (forall c, k :: c in s && k != k1 && k != k2 ==>
          (k in r[c].labels <==> k in s[c].labels))
    && (forall c, k :: c in s && k != k1 && k != k2 && k in s[c].labels ==>
          r[c].labels[k] == s[c].labels[k])
  }

  /** The cluster as mutable state: the map of existing claims, updated in
      place by label writes and deletions. */
  class Cluster {
    var claims: Store

    constructor (initial: Store)
      ensures claims == initial
    {
      claims := initial;
    }

    method SetLabel(id: ClaimId, key: string, value: string)
      modifies this
      ensures claims == WithLabel(old(claims), id, key, value)
    {
      claims := WithLabel(claims, id, key, value);
    }

    method RemoveLabel(id: ClaimId, key: string)
      modifies this
      ensures claims == WithoutLabel(old(claims), id, key)
    {
      claims := WithoutLabel(claims, id, key);
    }

    method Delete(id: ClaimId)
      modifies this
      ensures claims == old(claims) - {id}
    {
      claims := claims - {id};
    }
  }
}
