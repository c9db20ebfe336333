/** Idempotency keys and the Redis fast path of `webhooks/dedup.py`. */
module Dedup {

  const SEPARATOR := ":"
  const REDIS_PREFIX := "webhook:external_id:"

  predicate IdChar(c: char) {
    'A' <= c <= 'Z' || 'a' <= c <= 'z' || '0' <= c <= '9' || c == '.' || c == '_' || c == ':' || c == '-'
  }

  const UPPER := "ABCDEFGHIJKLMNOPQRSTUVWXYZ"
  const LOWER := "abcdefghijklmnopqrstuvwxyz"
  const DIGITS := "0123456789"

  lemma UpperIsListed(c: char)
    ensures 'A' <= c <= 'Z' <==> c in UPPER
  {
    if 'A' <= c <= 'Z' { assert UPPER[c as int - 'A' as int] == c; }
  }

  lemma LowerIsListed(c: char)
    ensures 'a' <= c <= 'z' <==> c in LOWER
  {
    if 'a' <= c <= 'z' { assert LOWER[c as int - 'a' as int] == c; }
  }

  lemma DigitsAreListed(c: char)
    ensures '0' <= c <= '9' <==> c in DIGITS
  {
    if '0' <= c <= '9' { assert DIGITS[c as int - '0' as int] == c; }
  }

  /** A webhook id is 1 to 256 letters, digits, dots, underscores, colons and hyphens. */
  lemma WebhookIdsAre(s: string)
    ensures ValidWebhookId(s) <==>
      1 <= |s| <= 256
      && forall c | c in s :: c in UPPER || c in LOWER || c in DIGITS || c == '.' || c == '_' || c == ':' || c == '-'
  {
    forall c: char ensures IdChar(c) <==>
      c in UPPER || c in LOWER || c in DIGITS || c == '.' || c == '_' || c == ':' || c == '-'
    {
      UpperIsListed(c);
      LowerIsListed(c);
      DigitsAreListed(c);
    }
    hide IdChar;
  }

  predicate IdText(s: string) { forall i | 0 <= i < |s| :: IdChar(s[i]) }

  /** `_ID_PATTERN`: 1 to 256 characters of the id alphabet. */
  predicate ValidWebhookId(s: string) { 1 <= |s| <= 256 && IdText(s) }

  function IdempotencyKey(vendor: string, webhookId: string): string {
    vendor + SEPARATOR + webhookId
  }

  function RedisKey(vendor: string, webhookId: string): string {
    REDIS_PREFIX + vendor + SEPARATOR + webhookId
  }

  /** Both keys carry the same information. */
  lemma RedisKeyIsPrefixed(vendor: string, webhookId: string)
    ensures RedisKey(vendor, webhookId) == REDIS_PREFIX + IdempotencyKey(vendor, webhookId)
    ensures IdempotencyKey(vendor, webhookId) == vendor + ":" + webhookId && REDIS_PREFIX == "webhook:external_id:"
  {
  }

  // ---------------------------------------------------------------- injectivity

  /** Text that can move from the vendor part of a key into the id part and still
      leave room there for a separator and one more character. */
  predicate Absorbable(t: string) { |t| <= 254 && IdText(t) }

  /** One vendor id is another one, the separator, and absorbable text. */
  predicate Extends(v: string, longer: string) {
    && |v| < |longer|
    && longer[..|v|] == v
    && longer[|v|] == ':'
    && Absorbable(longer[|v| + 1..])
  }

  ghost predicate KeysInjective(vendors: set<string>) {
    forall v, w, v', w' | v in vendors && v' in vendors && ValidWebhookId(w) && ValidWebhookId(w') ::
      IdempotencyKey(v, w) == IdempotencyKey(v', w') ==> v == v' && w == w'
  }

  lemma CollisionMeansExtension(v: string, w: string, v': string, w': string)
    requires ValidWebhookId(w) && ValidWebhookId(w')
    requires IdempotencyKey(v, w) == IdempotencyKey(v', w') && |v| < |v'|
    ensures Extends(v, v')
  {
    var k := IdempotencyKey(v, w);
    var n := |v'| - |v| - 1;
    assert forall i | 0 <= i < |v| :: v[i] == k[i] == v'[i];
    assert v'[|v|] == k[|v|] == ':';
    assert |w| == n + 1 + |w'|;
    var t := v'[|v| + 1..];
    forall i | 0 <= i < |t| ensures t[i] == w[i] {
      assert t[i] == v'[|v| + 1 + i] == k[|v| + 1 + i] == w[i];
    }
    assert forall i | 0 <= i < |w| :: IdChar(w[i]);
  }

  lemma SameVendorSameId(v: string, w: string, w': string)
    requires IdempotencyKey(v, w) == IdempotencyKey(v, w')
    ensures w == w'
  {
    assert w == IdempotencyKey(v, w)[|v| + 1..];
    assert w' == IdempotencyKey(v, w')[|v| + 1..];
  }

  /** An extension is enough for two events to share a key. */
  lemma ExtensionCollides(v: string, v': string)
    requires Extends(v, v')
    ensures exists w, w' :: ValidWebhookId(w) && ValidWebhookId(w')
                            && IdempotencyKey(v, w) == IdempotencyKey(v', w')
  {
    var t := v'[|v| + 1..];
    var w := t + ":0";
    assert v' == v + ":" + t;
    assert forall i | 0 <= i < |t| :: IdChar(t[i]);
    assert ValidWebhookId(w) && ValidWebhookId("0");
    assert IdempotencyKey(v, w) == IdempotencyKey(v', "0");
  }

  /** Keys identify events exactly when no vendor id extends another. */
  lemma KeysInjectiveIff(vendors: set<string>)
    ensures KeysInjective(vendors) <==> forall v, v' | v in vendors && v' in vendors :: !Extends(v, v')
  {
    if v, v' :| v in vendors && v' in vendors && Extends(v, v') {
      ExtensionCollides(v, v');
      assert v != v';
    } else {
      forall v, w, v', w' | v in vendors && v' in vendors && ValidWebhookId(w) && ValidWebhookId(w')
                            && IdempotencyKey(v, w) == IdempotencyKey(v', w')
        ensures v == v' && w == w'
      {
        if |v| < |v'| { CollisionMeansExtension(v, w, v', w'); }
        else if |v'| < |v| { CollisionMeansExtension(v', w', v, w); }
        else {
          var k := IdempotencyKey(v, w);
          assert v == k[..|v|] && v' == k[..|v|];
          SameVendorSameId(v, w, w');
        }
      }
    }
  }

  /** Vendor ids without a separator never collide. */
  lemma PlainVendorsAreInjective(vendors: set<string>)
    requires forall v | v in vendors :: ':' !in v
    ensures KeysInjective(vendors)
  {
    KeysInjectiveIff(vendors);
  }

  /** The key column holds 512 characters; only two parts of full length overflow it. */
  lemma KeyLength(vendor: string, webhookId: string)
    requires |vendor| <= 256 && ValidWebhookId(webhookId)
    ensures |IdempotencyKey(vendor, webhookId)| <= 513
    ensures |IdempotencyKey(vendor, webhookId)| > 512 <==> |vendor| == 256 && |webhookId| == 256
  {
  }

  // ----------------------------------------------------------------- the cache

  /** `check_duplicate`: the flag and the key to answer with. */
  function Lookup(cache: map<string, string>, vendor: string, webhookId: string): (bool, string) {
    var k := RedisKey(vendor, webhookId);
    if k in cache then (true, cache[k]) else (false, IdempotencyKey(vendor, webhookId))
  }

  /** What `mark_as_seen` stores is what `check_duplicate` finds, for this event and for no
      event with another key. */
  lemma SeenIsRemembered(cache: map<string, string>, vendor: string, webhookId: string, key: string, v: string, w: string)
    ensures var after := cache[RedisKey(vendor, webhookId) := key];
      && Lookup(after, vendor, webhookId) == (true, key)
      && (IdempotencyKey(v, w) != IdempotencyKey(vendor, webhookId) ==> Lookup(after, v, w) == Lookup(cache, v, w))
  {
    hide IdempotencyKey, RedisKey;
    RedisKeyIsPrefixed(vendor, webhookId);
    RedisKeyIsPrefixed(v, w);
    if RedisKey(v, w) == RedisKey(vendor, webhookId) {
      assert IdempotencyKey(v, w) == RedisKey(v, w)[|REDIS_PREFIX|..];
    }
  }

  /** The Redis client: entries may expire or be evicted at any time. */
  class RedisCache {
    var entries: map<string, string>

    constructor ()
      ensures entries == map[]
    {
      entries := map[];
    }

    method CheckDuplicate(vendor: string, webhookId: string) returns (duplicate: bool, key: string)
      ensures (duplicate, key) == Lookup(entries, vendor, webhookId)
    {
      key := IdempotencyKey(vendor, webhookId);
      duplicate := RedisKey(vendor, webhookId) in entries;
      if duplicate { key := entries[RedisKey(vendor, webhookId)]; }
    }

    method MarkAsSeen(key: string, vendor: string, webhookId: string)
      modifies this
      ensures entries == old(entries)[RedisKey(vendor, webhookId) := key]
    {
      entries := entries[RedisKey(vendor, webhookId) := key];
    }
  }
}
