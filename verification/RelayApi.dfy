/** Relay admission credentials and revocation updates (crates/relay-api/src/lib.rs). */
module RelayApi {
  import opened Base

  const PROTOCOL_VERSION: nat := 3

  datatype SubjectKind = Client | Edge

  datatype Credential = Credential(
    protocolVersion: nat,
    audience: string,
    controlId: Id,
    endpoint: Id,
    kind: SubjectKind,
    generation: nat,
    issuedAt: int,
    expiresAt: int)

  /** An ideal deterministic signature: it names its signer and binds the whole payload. */
  datatype Signature<+T> = Signature(signer: Id, payload: T)

  datatype SignedCredential = SignedCredential(credential: Credential, signature: Signature<Credential>)

  /** What a revocation says about one endpoint: every generation up to `generation` is dead. */
  datatype Tombstone = Tombstone(generation: nat, expiresAt: int, revision: nat)

  datatype Revocation = Revocation(endpoint: Id, tomb: Tombstone)

  datatype RevocationUpdate = RevocationUpdate(
    protocolVersion: nat,
    audience: string,
    version: nat,
    issuedAt: int,
    revocations: seq<Revocation>)

  datatype SignedUpdate = SignedUpdate(update: RevocationUpdate, signature: Signature<RevocationUpdate>)

  type Tombs = map<Id, Tombstone>

  function SignCredential(c: Credential, key: Id): SignedCredential {
    SignedCredential(c, Signature(key, c))
  }

  predicate CredentialVerifies(s: SignedCredential, authority: Id) {
    s.credential.controlId == authority && s.signature == Signature(authority, s.credential)
  }

  function SignUpdate(u: RevocationUpdate, key: Id): SignedUpdate {
    SignedUpdate(u, Signature(key, u))
  }

  predicate UpdateVerifies(s: SignedUpdate, authority: Id) {
    s.signature == Signature(authority, s.update)
  }

  predicate ValidCredential(c: Credential) {
    && c.protocolVersion == PROTOCOL_VERSION
    && c.audience != ""
    && c.generation > 0
    && c.expiresAt > c.issuedAt
  }

  /** The range check every revocation of an update must pass. */
  predicate InRange(t: Tombstone, version: nat) {
    t.generation > 0 && 0 < t.revision <= version
  }

  predicate ValidUpdate(u: RevocationUpdate) {
    && u.protocolVersion == PROTOCOL_VERSION
    && u.audience != ""
    && forall i | 0 <= i < |u.revocations| :: InRange(u.revocations[i].tomb, u.version)
  }

  /** The table a revocation list denotes; collecting into a map lets a later entry win. */
  function Table(rs: seq<Revocation>): Tombs {
    if rs == [] then map[]
    else Table(rs[..|rs| - 1])[rs[|rs| - 1].endpoint := rs[|rs| - 1].tomb]
  }

  predicate Distinct(rs: seq<Revocation>) {
    forall i, j | 0 <= i < j < |rs| :: rs[i].endpoint != rs[j].endpoint
  }

  /** `order` lists exactly the members of `keys`, each once. */
  predicate Enumerates(order: seq<Id>, keys: set<Id>) {
    && keys == (set k | k in order)
    && (forall i, j | 0 <= i < j < |order| :: order[i] != order[j])
  }

  lemma ListedOne(order: seq<Id>, keys: set<Id>, k: Id)
    requires Enumerates(order, keys) && k !in keys
    ensures Enumerates(order + [k], keys + {k})
  {
    assert (set e | e in order + [k]) == (set e | e in order) + {k};
  }

  /** The list form of a table, in a given order of its keys. */
  function Wire(order: seq<Id>, t: Tombs): seq<Revocation>
    requires Enumerates(order, t.Keys)
  {
    seq(|order|, i requires 0 <= i < |order| => Revocation(order[i], t[order[i]]))
  }

  /** Every table row comes from the list, and, when endpoints are distinct, every list entry is a row. */
  lemma {:induction false} TableRows(rs: seq<Revocation>)
    ensures forall k | k in Table(rs) :: Revocation(k, Table(rs)[k]) in rs
    ensures Table(rs).Keys == set r | r in rs :: r.endpoint
    ensures Distinct(rs) ==> forall i | 0 <= i < |rs| :: Table(rs)[rs[i].endpoint] == rs[i].tomb
  {
    if rs != [] {
      var init, last := rs[..|rs| - 1], rs[|rs| - 1];
      TableRows(init);
      assert rs == init + [last];
      assert forall r :: r in rs <==> r in init || r == last;
    }
  }

  lemma DistinctSnoc(init: seq<Revocation>, last: Revocation)
    ensures Distinct(init + [last]) <==> Distinct(init) && last.endpoint !in Table(init)
  {
    TableRows(init);
    var rs := init + [last];
    forall i | 0 <= i < |init| ensures rs[i] == init[i] && rs[i] in init {}
    if last.endpoint in Table(init) {
      var i :| 0 <= i < |init| && init[i].endpoint == last.endpoint;
      assert rs[i].endpoint == rs[|init|].endpoint;
    }
  }

  /** One more entry of a list with distinct endpoints is one more row, for a new endpoint. */
  lemma TablePrefix(rs: seq<Revocation>, i: nat)
    requires Distinct(rs) && i < |rs|
    ensures rs[i].endpoint !in Table(rs[..i])
    ensures Table(rs[..i + 1]) == Table(rs[..i])[rs[i].endpoint := rs[i].tomb]
    ensures rs[i].endpoint in Table(rs) && Table(rs)[rs[i].endpoint] == rs[i].tomb
  {
    assert rs[..i + 1] == rs[..i] + [rs[i]] && rs[..i + 1][..i] == rs[..i];
    assert Distinct(rs[..i + 1]);
    DistinctSnoc(rs[..i], rs[i]);
    TableRows(rs);
    assert rs[i] in rs;
  }

  /** The relay's duplicate test compares sizes; it detects duplicates exactly. */
  lemma {:induction false} SizeDetectsDuplicates(rs: seq<Revocation>)
    ensures |Table(rs)| <= |rs|
    ensures |Table(rs)| == |rs| <==> Distinct(rs)
  {
    if rs != [] {
      var init, last := rs[..|rs| - 1], rs[|rs| - 1];
      SizeDetectsDuplicates(init);
      assert rs == init + [last];
      DistinctSnoc(init, last);
      if last.endpoint in Table(init) {
        assert Table(rs).Keys == Table(init).Keys;
      } else {
        assert Table(rs).Keys == Table(init).Keys + {last.endpoint};
      }
    }
  }

  /** Listing a table and collecting it again gives the table back. */
  lemma TableOfWire(order: seq<Id>, t: Tombs)
    requires Enumerates(order, t.Keys)
    ensures Table(Wire(order, t)) == t && Distinct(Wire(order, t))
    ensures forall r | r in Wire(order, t) :: r.endpoint in t && r.tomb == t[r.endpoint]
  {
    var rs := Wire(order, t);
    TableRows(rs);
    assert forall k | k in t :: k in Table(rs) by {
      forall k | k in t ensures k in Table(rs) {
        var i :| 0 <= i < |order| && order[i] == k;
        assert rs[i] in rs && rs[i].endpoint == k;
      }
    }
  }
}
