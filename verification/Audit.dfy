/** Audit events and their hash chain. The hash is any injective function of an
    event's body to bare hex digests other than the genesis hash; the clock is an
    input of each creation. */
module Audit {
  import opened Wrappers

  /** A payload value: a text, a list, or anything else. */
  datatype Value = Str(text: string) | List(items: seq<Value>) | Other(tag: int)

  type Payload = map<string, Value>

  /** What the event hash commits to. */
  datatype Body = Body(
    id: string, actor: string, action: string, resourceType: string, resourceId: string,
    payload: Payload, previousHash: string, occurredAt: int)

  datatype AuditEvent = AuditEvent(body: Body, eventHash: string)

  datatype AuditError = EmptyField | SecretKey

  function Zeros(n: nat): (s: string)
    ensures |s| == n && forall i | 0 <= i < n :: s[i] == '0'
  {
    if n == 0 then "" else Zeros(n - 1) + "0"
  }

  const GENESIS_HASH := Zeros(64)
  const HASH_PREFIX := "sha256:"
  const SECRET_KEYS := {"password", "secret", "token", "authorization", "api_key", "cookie"}

  function Bare(hash: string): string {
    if HASH_PREFIX <= hash then hash[|HASH_PREFIX|..] else hash
  }

  function Prefixed(hash: string): (r: string)
    ensures Bare(r) == hash
  {
    HASH_PREFIX + hash
  }

  lemma PrefixedDiffers(a: string, b: string)
    requires Prefixed(a) == Prefixed(b)
    ensures a == b
  {
    assert Bare(Prefixed(a)) == a && Bare(Prefixed(b)) == b;
  }

  type Digest = Body -> string

  ghost predicate Tells(hash: Digest, a: Body, b: Body) {
    hash(a) == hash(b) ==> a == b
  }

  /** The hash is injective and yields neither the genesis hash nor a prefix. */
  ghost predicate Collisionless(hash: Digest) {
    && (forall a, b :: Tells(hash, a, b))
    && (forall a :: hash(a) != GENESIS_HASH && !(HASH_PREFIX <= hash(a)))
  }

  // ------------------------------------------------------------------- creation

  function LowerChar(c: char): char {
    if 'A' <= c <= 'Z' then c - 'A' + 'a' else c
  }

  function Lower(s: string): (r: string)
    ensures |r| == |s|
  {
    seq(|s|, i requires 0 <= i < |s| => LowerChar(s[i]))
  }

  predicate HasSecret(p: Payload) {
    exists k | k in p :: Lower(k) in SECRET_KEYS
  }

  function CreationError(b: Body): Option<AuditError> {
    if b.id == "" || b.actor == "" || b.action == "" || b.resourceType == "" || b.resourceId == ""
    then Some(EmptyField)
    else if HasSecret(b.payload) then Some(SecretKey)
    else None
  }

  function EventOf(hash: Digest, b: Body): AuditEvent {
    AuditEvent(b, Prefixed(hash(b)))
  }

  // --------------------------------------------------------------- verification

  function TailOf(hash: Digest, es: seq<AuditEvent>): string {
    if es == [] then GENESIS_HASH else hash(es[|es| - 1].body)
  }

  /** Every event carries the hash of its own body and of its predecessor's. */
  ghost predicate Chained(hash: Digest, es: seq<AuditEvent>) {
    forall i {:trigger LinkedTo(hash, TailOf(hash, es[..i]), es[i])} | 0 <= i < |es| ::
      LinkedTo(hash, TailOf(hash, es[..i]), es[i])
  }

  predicate LinkedTo(hash: Digest, tail: string, e: AuditEvent) {
    e.body.previousHash == tail && e.eventHash == Prefixed(hash(e.body))
  }

  /** One more event verifies exactly if it is linked to the tail so far. */
  lemma ChainedStep(hash: Digest, es: seq<AuditEvent>, i: nat)
    requires i < |es|
    ensures Chained(hash, es[..i + 1])
       <==> Chained(hash, es[..i]) && LinkedTo(hash, TailOf(hash, es[..i]), es[i])
    ensures TailOf(hash, es[..i + 1]) == hash(es[i].body)
    ensures Chained(hash, es) ==> Chained(hash, es[..i + 1])
  {
    hide LinkedTo, Chained;
    var next := es[..i + 1];
    assert next == es[..i] + [es[i]] && next[..i] == es[..i];
    if Chained(hash, es) {
      PrefixChained(hash, es, i + 1);
    }
    if Chained(hash, next) {
      PrefixChained(hash, next, i);
      LinkAt(hash, next, i);
    }
    if Chained(hash, es[..i]) && LinkedTo(hash, TailOf(hash, es[..i]), es[i]) {
      ChainedMore(hash, es[..i], es[i]);
    }
  }

  lemma LinkAt(hash: Digest, es: seq<AuditEvent>, i: nat)
    requires Chained(hash, es) && i < |es|
    ensures LinkedTo(hash, TailOf(hash, es[..i]), es[i])
  {
  }

  lemma NothingChained(hash: Digest, es: seq<AuditEvent>)
    ensures Chained(hash, es[..0]) && TailOf(hash, es[..0]) == GENESIS_HASH
  {
  }

  method VerifyChain(hash: Digest, es: seq<AuditEvent>) returns (ok: bool)
    requires Collisionless(hash)
    ensures ok <==> Chained(hash, es)
  {
    hide Collisionless, Zeros, Chained, TailOf;
    var previous := GENESIS_HASH;
    NothingChained(hash, es);
    for i := 0 to |es|
      invariant previous == TailOf(hash, es[..i]) && Chained(hash, es[..i])
    {
      var expected := if HASH_PREFIX <= previous then previous[|HASH_PREFIX|..] else previous;
      TailIsBare(hash, es[..i]);
      ChainedStep(hash, es, i);
      if es[i].body.previousHash != expected {
        return false;
      }
      var recomputed := Prefixed(hash(es[i].body));
      if recomputed != es[i].eventHash {
        return false;
      }
      previous := Bare(es[i].eventHash);
    }
    assert es[..|es|] == es;
    return true;
  }

  lemma TailIsBare(hash: Digest, es: seq<AuditEvent>)
    requires Collisionless(hash)
    ensures !(HASH_PREFIX <= TailOf(hash, es))
  {
    if es == [] {
      assert GENESIS_HASH[0] == '0' && HASH_PREFIX[0] == 's';
    }
  }

  lemma PrefixChained(hash: Digest, es: seq<AuditEvent>, n: nat)
    requires Chained(hash, es) && n <= |es|
    ensures Chained(hash, es[..n])
  {
    forall i | 0 <= i < n ensures LinkedTo(hash, TailOf(hash, es[..n][..i]), es[..n][i]) {
      assert es[..n][..i] == es[..i];
      assert LinkedTo(hash, TailOf(hash, es[..i]), es[i]);
    }
  }

  lemma ChainedMore(hash: Digest, es: seq<AuditEvent>, e: AuditEvent)
    requires Chained(hash, es) && LinkedTo(hash, TailOf(hash, es), e)
    ensures Chained(hash, es + [e])
  {
    forall i | 0 <= i <= |es|
      ensures LinkedTo(hash, TailOf(hash, (es + [e])[..i]), (es + [e])[i])
    {
      assert (es + [e])[..i] == es[..i];
      if i == |es| {
        assert es[..i] == es;
      } else {
        assert LinkedTo(hash, TailOf(hash, es[..i]), es[i]);
      }
    }
  }

  lemma SameHash(hash: Digest, a: Body, b: Body)
    requires Collisionless(hash) && hash(a) == hash(b)
    ensures a == b
  {
    assert Tells(hash, a, b);
  }

  lemma NotGenesis(hash: Digest, es: seq<AuditEvent>)
    requires Collisionless(hash)
    ensures TailOf(hash, es) == GENESIS_HASH <==> es == []
  {
  }

  lemma LastLinked(hash: Digest, es: seq<AuditEvent>)
    requires Chained(hash, es) && es != []
    ensures es == es[..|es| - 1] + [es[|es| - 1]] && Chained(hash, es[..|es| - 1])
    ensures LinkedTo(hash, TailOf(hash, es[..|es| - 1]), es[|es| - 1])
  {
    hide LinkedTo, TailOf;
    var n := |es| - 1;
    PrefixChained(hash, es, n);
    assert LinkedTo(hash, TailOf(hash, es[..n]), es[n]);
  }

  /** Tamper evidence: the tail hash of a verified list determines the whole list,
      its length included. Nothing can be changed, inserted, dropped or reordered
      without changing the tail. */
  lemma {:induction false} TailDeterminesHistory(hash: Digest, a: seq<AuditEvent>, b: seq<AuditEvent>)
    requires Collisionless(hash) && Chained(hash, a) && Chained(hash, b)
    requires TailOf(hash, a) == TailOf(hash, b)
    ensures a == b
  {
    hide Collisionless, Chained;
    NotGenesis(hash, a);
    NotGenesis(hash, b);
    if a != [] {
      LastLinked(hash, a);
      LastLinked(hash, b);
      SameHash(hash, a[|a| - 1].body, b[|b| - 1].body);
      TailDeterminesHistory(hash, a[..|a| - 1], b[..|b| - 1]);
    }
  }

  /** Verification alone does not see a cut: each proper prefix of a verified list
      is accepted too, and only its tail tells it from the whole. */
  lemma CutNeedsTheTail(hash: Digest, es: seq<AuditEvent>, n: nat)
    requires Collisionless(hash) && Chained(hash, es) && n < |es|
    ensures Chained(hash, es[..n]) && TailOf(hash, es[..n]) != TailOf(hash, es)
  {
    PrefixChained(hash, es, n);
    assert |es[..n]| == n;
    if TailOf(hash, es[..n]) == TailOf(hash, es) {
      TailDeterminesHistory(hash, es[..n], es);
      assert false;
    }
  }

  /** Events whose hash fields are kept but whose bodies may have been altered
      verify exactly if no body was. */
  lemma AlteredVerifies(hash: Digest, es: seq<AuditEvent>, altered: seq<AuditEvent>)
    requires Collisionless(hash) && Chained(hash, es) && |altered| == |es|
    requires forall i | 0 <= i < |es| :: altered[i].eventHash == es[i].eventHash
    ensures Chained(hash, altered) <==> altered == es
  {
    hide Collisionless;
    if Chained(hash, altered) {
      forall i | 0 <= i < |es| ensures altered[i] == es[i] {
        assert LinkedTo(hash, TailOf(hash, es[..i]), es[i]);
        assert LinkedTo(hash, TailOf(hash, altered[..i]), altered[i]);
        PrefixedDiffers(hash(es[i].body), hash(altered[i].body));
        SameHash(hash, es[i].body, altered[i].body);
      }
    }
  }
}
