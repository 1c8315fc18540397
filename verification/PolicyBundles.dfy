/** Signed policy bundles: what was published still verifies after it was stored as canonical JSON and read back. */
module PolicyBundles {
  import opened Canonical
  import opened JsonText
  import opened Outcomes

  /** `sign` and `check` of one key. */
  datatype Signer = Signer(keyId: string, sign: string -> string, check: (string, string) -> bool)
  {
    ghost predicate Valid() { forall payload: string :: check(payload, sign(payload)) }
  }

  datatype Bundle = Bundle(org: string, name: string, environment: string, version: string,
                           policy: Value, digest: string, signature: string, keyId: string)

  /** The digest, and the policy schema. */
  datatype Tools = Tools(sha: string -> string, acceptable: (string, Json) -> bool)

  datatype VerifyError = BadDigest | BadSignature | BadPolicy

  function Named(text: string): Key { Key("str", text) }

  function Envelope(org: string, name: string, environment: string, version: string, policy: Value): Value {
    Dict([Entry(Named("organization_id"), Str(org)), Entry(Named("name"), Str(name)),
          Entry(Named("environment"), Str(environment)), Entry(Named("version"), Str(version)),
          Entry(Named("policy"), policy)])
  }

  ghost function SigningPayload(b: Bundle): string {
    CanonicalJson(Envelope(b.org, b.name, b.environment, b.version, b.policy))
  }

  /** `normalized` is the value that the conversion of the given policy produced. */
  ghost predicate Creates(t: Tools, signer: Signer, policy: Value, normalized: Value, b: Bundle) {
    && t.acceptable(b.name, ToJson(policy)) && b.policy == normalized
    && var payload := CanonicalJson(Envelope(b.org, b.name, b.environment, b.version, normalized));
       b.digest == t.sha(payload) && b.signature == signer.sign(payload) && b.keyId == signer.keyId
  }

  ghost function Verify(t: Tools, signer: Signer, b: Bundle): Result<(), VerifyError> {
    var payload := SigningPayload(b);
    if t.sha(payload) != b.digest then Err(BadDigest)
    else if signer.keyId != b.keyId || !signer.check(payload, b.signature) then Err(BadSignature)
    else if !t.acceptable(b.name, ToJson(b.policy)) then Err(BadPolicy)
    else Ok(())
  }

  /** A bundle verifies exactly if digest, key, signature and policy are all in order; else the first fault is named. */
  lemma VerifyIff(t: Tools, signer: Signer, b: Bundle)
    ensures var payload := CanonicalJson(Envelope(b.org, b.name, b.environment, b.version, b.policy));
            var sound, signed := t.sha(payload) == b.digest,
                                 signer.keyId == b.keyId && signer.check(payload, b.signature);
            var accepted, r := t.acceptable(b.name, ToJson(b.policy)), Verify(t, signer, b);
            && (r == Ok(()) <==> sound && signed && accepted)
            && (r == Err(BadDigest) <==> !sound)
            && (r == Err(BadSignature) <==> sound && !signed)
            && (r == Err(BadPolicy) <==> sound && signed && !accepted)
  {
  }

  /** Policies with the same conversion make the same envelope. */
  lemma EnvelopeOf(org: string, name: string, environment: string, version: string, v: Value, w: Value)
    requires ToJson(v) == ToJson(w)
    ensures CanonicalJson(Envelope(org, name, environment, version, v))
            == CanonicalJson(Envelope(org, name, environment, version, w))
  {
    var a, b := Envelope(org, name, environment, version, v).entries,
        Envelope(org, name, environment, version, w).entries;
    assert DistinctTexts(a);
    FieldsMatched(a, b);
    ObjectOf(a);
    ObjectOf(b);
  }

  /** Reading a text gives a plain value of the JSON value that is printed so, in any insertion order. */
  ghost predicate Reads(text: string, v: Value) {
    exists j: Json :: Dumps(j) == text && StandsFor(v, j)
  }

  /** What was printed is read back as the same JSON value. */
  lemma ReadBack(v: Value, reloaded: Value)
    requires Reads(CanonicalJson(v), reloaded)
    ensures ToJson(reloaded) == ToJson(v)
  {
    var j: Json :| Dumps(j) == CanonicalJson(v) && StandsFor(reloaded, j);
    DumpsIsInjective(j, ToJson(v));
    ToJsonIsIdempotent(reloaded, j);
  }

  /** And there is such a value to be read. */
  lemma PrintedIsReadable(v: Value) returns (reloaded: Value)
    ensures Reads(CanonicalJson(v), reloaded)
  {
    reloaded := EveryJsonHasAValue(ToJson(v));
  }

  /**
   A created bundle verifies, as created and after its policy was stored as canonical JSON and read
   back as any dictionary that stands for the stored text.
   */
  lemma StoredBundleVerifies(t: Tools, signer: Signer, policy: Value, normalized: Value, b: Bundle, reloaded: Value)
    requires signer.Valid() && Creates(t, signer, policy, normalized, b)
    requires StandsFor(normalized, ToJson(policy))
    requires Reads(CanonicalJson(b.policy), reloaded)
    ensures Verify(t, signer, b) == Ok(()) && Verify(t, signer, b.(policy := reloaded)) == Ok(())
  {
    ToJsonIsIdempotent(normalized, ToJson(policy));
    ReadBack(normalized, reloaded);
    EnvelopeOf(b.org, b.name, b.environment, b.version, normalized, reloaded);
  }

  /** The five parts of an envelope can be told from its JSON form. */
  lemma EnvelopeDetermines(b: Bundle, c: Bundle)
    requires ToJson(EnvelopeOfBundle(b)) == ToJson(EnvelopeOfBundle(c))
    ensures b.org == c.org && b.name == c.name && b.environment == c.environment && b.version == c.version
    ensures ToJson(b.policy) == ToJson(c.policy)
  {
    SamePart(b, c, 0);
    SamePart(b, c, 1);
    SamePart(b, c, 2);
    SamePart(b, c, 3);
    SamePart(b, c, 4);
  }

  function EnvelopeOfBundle(b: Bundle): Value { Envelope(b.org, b.name, b.environment, b.version, b.policy) }

  lemma SamePart(b: Bundle, c: Bundle, i: nat)
    requires i < 5 && ToJson(EnvelopeOfBundle(b)) == ToJson(EnvelopeOfBundle(c))
    ensures ToJson(EnvelopeOfBundle(b).entries[i].child) == ToJson(EnvelopeOfBundle(c).entries[i].child)
  {
    SameKeys(b, c, i);
    EnvelopeField(b.org, b.name, b.environment, b.version, b.policy, i);
    EnvelopeField(c.org, c.name, c.environment, c.version, c.policy, i);
  }

  lemma SameKeys(b: Bundle, c: Bundle, i: nat)
    requires i < 5
    ensures EnvelopeOfBundle(b).entries[i].key == EnvelopeOfBundle(c).entries[i].key
  {
  }

  /** Under a digest without collisions a bundle that verifies has the very contents that were published. */
  lemma VerifiedContentsAreThePublished(t: Tools, signer: Signer, b: Bundle, tampered: Bundle)
    requires forall x: string, y: string :: t.sha(x) == t.sha(y) ==> x == y
    requires Verify(t, signer, b) == Ok(()) && Verify(t, signer, tampered) == Ok(()) && tampered.digest == b.digest
    ensures tampered.org == b.org && tampered.name == b.name && tampered.environment == b.environment
            && tampered.version == b.version
    ensures ToJson(tampered.policy) == ToJson(b.policy)
  {
    DumpsIsInjective(ToJson(EnvelopeOfBundle(b)), ToJson(EnvelopeOfBundle(tampered)));
    EnvelopeDetermines(tampered, b);
  }

  /** A part of the envelope can be read off its JSON form. */
  lemma EnvelopeField(org: string, name: string, environment: string, version: string, policy: Value, i: nat)
    requires i < 5
    ensures var v := Envelope(org, name, environment, version, policy);
            var j := ToJson(v);
            j.JObject? && v.entries[i].key.text in j.fields
                && j.fields[v.entries[i].key.text] == ToJson(v.entries[i].child)
  {
    var es := Envelope(org, name, environment, version, policy).entries;
    assert DistinctTexts(es);
    assert Consistent(es);
    FieldAt(es, i);
    ObjectOf(es);
  }
}
