/** Surrogate-key derivation: the key fields are joined with "-" in a
    fixed order and the joined text is hashed. SHA-256 with hex encoding
    is a foreign library, so the hash is a parameter of every key. */
module Keys {
  import opened Text

  /** The digest function (`hashlib.sha256(s.encode()).hexdigest()`). */
  type Hasher = string -> string

  const FieldDelimiter: char := '-'

  /** The text fed to the hash for a tuple of key fields. */
  function FieldString(fields: seq<string>): string {
    Join(fields, FieldDelimiter)
  }

  lemma JoinStep(fields: seq<string>)
    requires |fields| >= 2
    ensures FieldString(fields) == fields[0] + "-" + FieldString(fields[1..])
  {
  }

  lemma JoinThree(a: string, b: string, c: string)
    ensures FieldString([a, b, c]) == a + "-" + b + "-" + c
  {
    assert [a, b, c][1..] == [b, c];
    assert [b, c][1..] == [c];
    JoinStep([b, c]);
    JoinStep([a, b, c]);
    assert FieldString([a, b, c]) == a + "-" + (b + "-" + c);
  }

  /** `get_online_engagement_key`. */
  function OnlineEngagementKey(hash: Hasher, consumerKey: string, date: string, url: string): (r: string)
    ensures r == hash(consumerKey + "-" + date + "-" + url)
  {
    JoinThree(consumerKey, date, url);
    hash(FieldString([consumerKey, date, url]))
  }

  /** `get_affinity_key`. */
  function AffinityKey(hash: Hasher, consumerKey: string, category: string, subcategory: string): (r: string)
    ensures r == hash(consumerKey + "-" + category + "-" + subcategory)
  {
    JoinThree(consumerKey, category, subcategory);
    hash(FieldString([consumerKey, category, subcategory]))
  }

  /** `get_consent_event_key`. */
  function ConsentEventKey(
    hash: Hasher, consumerKey: string, consentDate: string, consentStatus: string,
    opco: string, subLevel: string): (r: string)
    ensures r == hash(consumerKey + "-" + consentDate + "-" + consentStatus + "-" + opco + "-" + subLevel)
  {
    var fields := [consumerKey, consentDate, consentStatus, opco, subLevel];
    assert fields[1..] == [consentDate, consentStatus, opco, subLevel];
    assert fields[1..][1..] == [consentStatus, opco, subLevel];
    JoinThree(consentStatus, opco, subLevel);
    JoinStep(fields[1..]);
    JoinStep(fields);
    assert FieldString(fields)
      == consumerKey + "-" + (consentDate + "-" + (consentStatus + "-" + opco + "-" + subLevel));
    assert consumerKey + "-" + (consentDate + "-" + (consentStatus + "-" + opco + "-" + subLevel))
      == consumerKey + "-" + consentDate + "-" + consentStatus + "-" + opco + "-" + subLevel;
    hash(FieldString(fields))
  }

  /** The joined field text does not determine the fields: two different
      argument tuples whose fields contain "-" give the same key under
      every hash, so keys are deterministic but not order- or
      boundary-sensitive. */
  lemma FieldStringNotInjective(hash: Hasher)
    ensures OnlineEngagementKey(hash, "a-b", "c", "d") == OnlineEngagementKey(hash, "a", "b-c", "d")
  {
    assert "a-b" + "-" + "c" + "-" + "d" == "a" + "-" + "b-c" + "-" + "d";
  }
}
