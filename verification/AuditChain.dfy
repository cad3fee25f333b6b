/** The signed audit chain: recording, rotation, redaction, export and restart from
    its store. `Apply` says what a call does to the chain's state; the class does it
    to its fields and its store. */
module AuditChains {
  import opened Wrappers
  import opened Audit

  datatype SignedEvent = SignedEvent(event: AuditEvent, signature: string)

  /** What the chain is built over: the event hash, the signer, the text of a value
      and the sorting of keys. */
  datatype Tools = Tools(
    hash: Digest, sign: string -> string, verify: (string, string) -> bool,
    text: Value -> string, sorted: set<string> -> seq<string>)
  {
    ghost predicate Sound() {
      && Collisionless(hash)
      && (forall m :: verify(m, sign(m)))
      && (forall s :: text(Str(s)) == s)
      && (forall ks :: Members(sorted(ks)) == ks)
    }
  }

  function Members(s: seq<string>): set<string> {
    set x | x in s
  }

  datatype State = State(
    events: seq<SignedEvent>, tail: string, counter: nat, redactions: map<string, set<string>>)

  const EMPTY_CHAIN := State([], GENESIS_HASH, 0, map[])

  function Bodies(es: seq<SignedEvent>): (r: seq<AuditEvent>)
    ensures |r| == |es| && forall i | 0 <= i < |es| :: r[i] == es[i].event
  {
    seq(|es|, i requires 0 <= i < |es| => es[i].event)
  }

  // ------------------------------------------------------------------------ ids

  function Decimal(n: nat): (s: string)
    ensures |s| > 0
  {
    var digit := ['0' + (n % 10) as char];
    if n < 10 then digit else Decimal(n / 10) + digit
  }

  function EventId(n: nat): string {
    "evt-" + Decimal(n)
  }

  lemma {:induction false} DecimalsDiffer(a: nat, b: nat)
    requires Decimal(a) == Decimal(b)
    ensures a == b
    decreases a
  {
    var s, t := Decimal(a), Decimal(b);
    assert s[|s| - 1] == '0' + (a % 10) as char && t[|t| - 1] == '0' + (b % 10) as char;
    if a >= 10 && b >= 10 {
      assert s[..|s| - 1] == Decimal(a / 10) && t[..|t| - 1] == Decimal(b / 10);
      DecimalsDiffer(a / 10, b / 10);
    }
  }

  lemma EventIdsDiffer(a: nat, b: nat)
    requires EventId(a) == EventId(b)
    ensures a == b
  {
    assert EventId(a)[4..] == Decimal(a) && EventId(b)[4..] == Decimal(b);
    DecimalsDiffer(a, b);
  }

  // ---------------------------------------------------------------------- calls

  datatype Call =
    | Record(actor: string, action: string, resourceType: string, resourceId: string,
             payload: Payload, permitNonce: Option<string>, now: int)
    | Rotate(actor: string, now: int)
    | Redact(eventId: string, keys: set<string>, actor: string, now: int)

  function Texts(s: seq<string>): seq<Value> {
    seq(|s|, i requires 0 <= i < |s| => Str(s[i]))
  }

  /** The record call a rotation or redaction comes down to. */
  function AsRecord(c: Tools, s: State, call: Call): (r: Call)
    ensures r.Record?
  {
    match call
    case Record(_, _, _, _, _, _, _) => call
    case Rotate(actor, now) =>
      Record(actor, "audit.rotated", "audit_chain", "rotation",
             map["previous_chain_tail_hash" := Str(s.tail)], None, now)
    case Redact(eventId, keys, actor, now) =>
      Record(actor, "gdpr.redacted", "audit_event", eventId,
             map["redacted_event_id" := Str(eventId), "keys" := List(Texts(c.sorted(keys)))],
             None, now)
  }

  function BodyFor(s: State, r: Call): Body
    requires r.Record?
  {
    Body(EventId(s.counter + 1), r.actor, r.action, r.resourceType, r.resourceId,
         if r.permitNonce.Some? then r.payload["permit_nonce" := Str(r.permitNonce.value)]
         else r.payload,
         s.tail, r.now)
  }

  function SignedFor(c: Tools, b: Body): SignedEvent {
    SignedEvent(EventOf(c.hash, b), c.sign(EventOf(c.hash, b).eventHash))
  }

  /** The error of a call, or None if it is recorded. */
  function Refusal(c: Tools, s: State, call: Call): Option<AuditError> {
    CreationError(BodyFor(s, AsRecord(c, s, call)))
  }

  /** The state after a call. A refused call has already used up an event number,
      and a refused redaction has already changed what is masked. */
  function Apply(c: Tools, s: State, call: Call): State {
    var redactions := if call.Redact? then s.redactions[call.eventId := call.keys] else s.redactions;
    var b := BodyFor(s, AsRecord(c, s, call));
    if CreationError(b).Some? then State(s.events, s.tail, s.counter + 1, redactions)
    else State(s.events + [SignedFor(c, b)], c.hash(b), s.counter + 1, redactions)
  }

  function Run(c: Tools, s: State, calls: seq<Call>): State {
    if calls == [] then s
    else Apply(c, Run(c, s, calls[..|calls| - 1]), calls[|calls| - 1])
  }

  lemma RunTwo(c: Tools, s: State, a: Call, b: Call)
    ensures Run(c, s, [a, b]) == Apply(c, Apply(c, s, a), b)
  {
    hide Apply;
    assert [a, b][..1] == [a] && [a][..0] == [];
    assert Run(c, s, [a]) == Apply(c, s, a);
  }

  // -------------------------------------------------------------------- restart

  /** What an event asks to be masked when a chain is rebuilt from its store. */
  function RedactionIn(c: Tools, b: Body): Option<(string, set<string>)> {
    if b.action == "gdpr.redacted"
       && "redacted_event_id" in b.payload && b.payload["redacted_event_id"].Str?
       && "keys" in b.payload && b.payload["keys"].List?
    then Some((b.payload["redacted_event_id"].text, TextsOf(c, b.payload["keys"].items)))
    else None
  }

  function TextsOf(c: Tools, vs: seq<Value>): set<string> {
    set v | v in vs :: c.text(v)
  }

  function Redactions(c: Tools, es: seq<SignedEvent>): map<string, set<string>> {
    if es == [] then map[]
    else
      var before := Redactions(c, es[..|es| - 1]);
      var asked := RedactionIn(c, es[|es| - 1].event.body);
      if asked.Some? then before[asked.value.0 := asked.value.1] else before
  }

  function Loaded(c: Tools, es: seq<SignedEvent>): State {
    State(es, if es == [] then GENESIS_HASH else Bare(es[|es| - 1].event.eventHash), |es|,
          Redactions(c, es))
  }

  /** A chain rebuilt from the store would be this chain. */
  predicate SurvivesRestart(c: Tools, s: State) {
    s == Loaded(c, s.events)
  }

  /** A record whose redaction, read back after a restart, is not in force now. */
  predicate Forges(c: Tools, s: State, call: Call) {
    && call.Record?
    && var asked := RedactionIn(c, BodyFor(s, call));
       asked.Some?
       && !(asked.value.0 in s.redactions && s.redactions[asked.value.0] == asked.value.1)
  }

  lemma SortedTexts(c: Tools, keys: set<string>)
    requires c.Sound()
    ensures TextsOf(c, Texts(c.sorted(keys))) == keys
  {
    var s := c.sorted(keys);
    assert Members(s) == keys;
    forall k | k in keys ensures k in TextsOf(c, Texts(s)) {
      var i :| 0 <= i < |s| && s[i] == k;
      assert Texts(s)[i] == Str(k) && c.text(Str(k)) == k;
    }
    forall k | k in TextsOf(c, Texts(s)) ensures k in keys {
      var v :| v in Texts(s) && c.text(v) == k;
      assert v.Str? && v.text in s;
    }
  }

  lemma LoadedMore(c: Tools, es: seq<SignedEvent>, e: SignedEvent)
    ensures
      var before, asked := Redactions(c, es), RedactionIn(c, e.event.body);
      Loaded(c, es + [e])
        == State(es + [e], Bare(e.event.eventHash), |es| + 1,
                 if asked.Some? then before[asked.value.0 := asked.value.1] else before)
  {
    assert (es + [e])[..|es|] == es;
  }

  lemma RedactedBody(c: Tools, s: State, call: Call)
    requires c.Sound()
    ensures call.Redact? ==>
      RedactionIn(c, BodyFor(s, AsRecord(c, s, call))) == Some((call.eventId, call.keys))
    ensures call.Rotate? ==> RedactionIn(c, BodyFor(s, AsRecord(c, s, call))) == None
  {
    if call.Redact? {
      SortedTexts(c, call.keys);
    }
  }

  /** Restart agreement, call by call and exactly: it survives a call if and only if
      the call was recorded and was no forged redaction. */
  lemma CallSurvivesRestart(c: Tools, s: State, call: Call)
    requires c.Sound() && SurvivesRestart(c, s)
    ensures SurvivesRestart(c, Apply(c, s, call))
       <==> Refusal(c, s, call).None? && !Forges(c, s, call)
  {
    hide CreationError, RedactionIn, BodyFor, AsRecord, Redactions;
    var r := AsRecord(c, s, call);
    var b := BodyFor(s, r);
    RedactedBody(c, s, call);
    if CreationError(b).None? {
      LoadedMore(c, s.events, SignedFor(c, b));
      if call.Record? {
        RecordIsItself(c, s, call);
      }
    }
  }

  lemma RecordIsItself(c: Tools, s: State, call: Call)
    requires call.Record?
    ensures AsRecord(c, s, call) == call
  {
  }

  /** Every call is recorded and no record forges a redaction. */
  predicate AllRecorded(c: Tools, s: State, calls: seq<Call>) {
    calls != [] ==>
      var front, last := calls[..|calls| - 1], calls[|calls| - 1];
      && AllRecorded(c, s, front)
      && Refusal(c, Run(c, s, front), last).None? && !Forges(c, Run(c, s, front), last)
  }

  /** Restart refinement over whole histories: as long as nothing was refused and
      nothing forged, the rebuilt chain is the running one in every field. */
  lemma {:induction false} RestartRefines(c: Tools, s: State, calls: seq<Call>)
    requires c.Sound() && SurvivesRestart(c, s) && AllRecorded(c, s, calls)
    ensures SurvivesRestart(c, Run(c, s, calls))
  {
    hide SurvivesRestart, Apply, Refusal, Forges;
    if calls != [] {
      RestartRefines(c, s, calls[..|calls| - 1]);
      CallSurvivesRestart(c, Run(c, s, calls[..|calls| - 1]), calls[|calls| - 1]);
    }
  }

  lemma EmptySurvives(c: Tools)
    ensures SurvivesRestart(c, EMPTY_CHAIN)
  {
  }

  /** In particular any chain begun empty. */
  lemma RestartRefinesFromEmpty(c: Tools, calls: seq<Call>)
    requires c.Sound() && AllRecorded(c, EMPTY_CHAIN, calls)
    ensures SurvivesRestart(c, Run(c, EMPTY_CHAIN, calls))
  {
    EmptySurvives(c);
    RestartRefines(c, EMPTY_CHAIN, calls);
  }

  // --------------------------------------------------------------- what is stored

  /** The text reads as the word in some case of its ASCII letters. */
  predicate ReadsAs(text: string, word: string) {
    |text| == |word|
    && forall i | 0 <= i < |text| ::
         text[i] == word[i] || ('A' <= text[i] <= 'Z' && text[i] - 'A' + 'a' == word[i])
  }

  predicate NamesSecret(key: string) {
    || ReadsAs(key, "password") || ReadsAs(key, "secret") || ReadsAs(key, "token")
    || ReadsAs(key, "authorization") || ReadsAs(key, "api_key") || ReadsAs(key, "cookie")
  }

  lemma LowerReads(text: string, word: string)
    requires forall c | c in word :: !('A' <= c <= 'Z')
    ensures Lower(text) == word <==> ReadsAs(text, word)
  {
    if ReadsAs(text, word) {
      forall i | 0 <= i < |text| ensures Lower(text)[i] == word[i] {
        assert word[i] in word;
      }
    }
  }

  lemma SecretKeysRead(key: string)
    ensures Lower(key) in SECRET_KEYS <==> NamesSecret(key)
  {
    hide Lower, ReadsAs;
    LowerReads(key, "password");
    LowerReads(key, "secret");
    LowerReads(key, "token");
    LowerReads(key, "authorization");
    LowerReads(key, "api_key");
    LowerReads(key, "cookie");
  }

  lemma HasSecretReads(p: Payload)
    ensures HasSecret(p) <==> exists k | k in p :: NamesSecret(k)
  {
    hide Lower, NamesSecret, ReadsAs;
    forall k ensures Lower(k) in SECRET_KEYS <==> NamesSecret(k) {
      SecretKeysRead(k);
    }
  }

  lemma PlainKeys()
    ensures !NamesSecret("permit_nonce") && !NamesSecret("previous_chain_tail_hash")
    ensures !NamesSecret("redacted_event_id") && !NamesSecret("keys")
  {
    assert |"permit_nonce"| == 12 && |"previous_chain_tail_hash"| == 24 && |"redacted_event_id"| == 17;
    assert |"keys"| == 4;
  }

  /** Which calls are refused, call by call: one that leaves out who, what or on what,
      and a record with a payload key that names a secret. */
  lemma RefusedExactly(c: Tools, s: State, call: Call)
    ensures Refusal(c, s, call).Some? <==>
      match call
      case Record(actor, action, resourceType, resourceId, payload, _, _) =>
        actor == "" || action == "" || resourceType == "" || resourceId == ""
        || exists k | k in payload :: NamesSecret(k)
      case Rotate(actor, _) => actor == ""
      case Redact(eventId, _, actor, _) => actor == "" || eventId == ""
    ensures Refusal(c, s, call) == Some(SecretKey) <==>
      && call.Record? && call.actor != "" && call.action != ""
      && call.resourceType != "" && call.resourceId != ""
      && exists k | k in call.payload :: NamesSecret(k)
  {
    hide NamesSecret, HasSecret, EventId;
    var b := BodyFor(s, AsRecord(c, s, call));
    IdIsThere(s.counter + 1);
    HasSecretReads(b.payload);
    PlainKeys();
    if call.Record? {
      forall k | k in b.payload && NamesSecret(k) ensures k in call.payload {
      }
      forall k | k in call.payload ensures k in b.payload {
      }
    }
  }

  lemma IdIsThere(n: nat)
    ensures EventId(n) != ""
  {
  }

  /** Nothing is missing from a stored event and none of its payload keys names a
      secret. */
  ghost predicate Clean(b: Body) {
    && b.id != "" && b.actor != "" && b.action != "" && b.resourceType != "" && b.resourceId != ""
    && forall k | k in b.payload :: !NamesSecret(k)
  }

  lemma StoresClean(c: Tools, s: State, call: Call)
    ensures Refusal(c, s, call).Some? <==> !Clean(BodyFor(s, AsRecord(c, s, call)))
  {
    hide NamesSecret, HasSecret;
    HasSecretReads(BodyFor(s, AsRecord(c, s, call)).payload);
  }

  /** Whatever is called on a new chain, every event it stores is clean, and a call is
      refused exactly if its event would not be. */
  lemma {:induction false} StoredEventsAreClean(c: Tools, calls: seq<Call>)
    ensures forall e | e in Run(c, EMPTY_CHAIN, calls).events :: Clean(e.event.body)
    ensures forall call ::
      var s := Run(c, EMPTY_CHAIN, calls);
      Refusal(c, s, call).Some? <==> !Clean(BodyFor(s, AsRecord(c, s, call)))
  {
    hide Clean, BodyFor, AsRecord, Refusal, CreationError;
    var s := Run(c, EMPTY_CHAIN, calls);
    forall call ensures Refusal(c, s, call).Some? <==> !Clean(BodyFor(s, AsRecord(c, s, call))) {
      StoresClean(c, s, call);
    }
    if calls != [] {
      var front, last := calls[..|calls| - 1], calls[|calls| - 1];
      StoredEventsAreClean(c, front);
      AppliedEvents(c, Run(c, EMPTY_CHAIN, front), last);
    }
  }

  lemma AppliedEvents(c: Tools, s: State, call: Call)
    ensures Apply(c, s, call).events
         == if Refusal(c, s, call).Some? then s.events
            else s.events + [SignedFor(c, BodyFor(s, AsRecord(c, s, call)))]
    ensures forall b: Body :: SignedFor(c, b).event.body == b
  {
    hide CreationError, BodyFor, AsRecord;
  }

  // ------------------------------------------------------------------ invariant

  /** The events verify, the tail is theirs, and each refused call left a gap in
      the numbering. */
  ghost predicate Sealed(c: Tools, s: State) {
    && Chained(c.hash, Bodies(s.events))
    && (forall i | 0 <= i < |s.events| ::
          c.verify(s.events[i].event.eventHash, s.events[i].signature))
    && s.tail == TailOf(c.hash, Bodies(s.events))
    && |s.events| <= s.counter
  }

  function Refused(c: Tools, s: State, calls: seq<Call>): nat {
    if calls == [] then 0
    else
      var front, last := calls[..|calls| - 1], calls[|calls| - 1];
      Refused(c, s, front) + if Refusal(c, Run(c, s, front), last).Some? then 1 else 0
  }

  lemma BodiesMore(es: seq<SignedEvent>, e: SignedEvent)
    ensures Bodies(es + [e]) == Bodies(es) + [e.event]
  {
  }

  lemma CallKeepsSealed(c: Tools, s: State, call: Call)
    requires c.Sound() && Sealed(c, s)
    ensures Sealed(c, Apply(c, s, call))
  {
    hide CreationError, AsRecord, Chained, Tools.Sound;
    var r := AsRecord(c, s, call);
    var b := BodyFor(s, r);
    if CreationError(b).None? {
      BodiesMore(s.events, SignedFor(c, b));
      ChainedMore(c.hash, Bodies(s.events), EventOf(c.hash, b));
      SignatureVerifies(c, EventOf(c.hash, b).eventHash);
    }
  }

  lemma SignatureVerifies(c: Tools, m: string)
    requires c.Sound()
    ensures c.verify(m, c.sign(m))
  {
  }

  /** Every chain built by any calls, refused ones among them, verifies; refused
      calls are exactly the gaps between counter and events. */
  lemma {:induction false} EveryChainVerifies(c: Tools, s: State, calls: seq<Call>)
    requires c.Sound() && Sealed(c, s)
    ensures
      var s' := Run(c, s, calls);
      && Sealed(c, s') && s.events <= s'.events
      && s'.counter == s.counter + |calls|
      && |s'.events| + Refused(c, s, calls) == |s.events| + |calls|
  {
    hide Sealed;
    if calls != [] {
      EveryChainVerifies(c, s, calls[..|calls| - 1]);
      CallKeepsSealed(c, Run(c, s, calls[..|calls| - 1]), calls[|calls| - 1]);
    }
  }

  /** A chain rebuilt from a store that verifies verifies too. */
  lemma LoadedSealed(c: Tools, es: seq<SignedEvent>)
    requires c.Sound() && Chained(c.hash, Bodies(es))
    requires forall i | 0 <= i < |es| :: c.verify(es[i].event.eventHash, es[i].signature)
    ensures Sealed(c, Loaded(c, es))
  {
    hide Tools.Sound, Collisionless;
    if es != [] {
      LastLinked(c.hash, Bodies(es));
    }
  }

  lemma EmptySealed(c: Tools)
    ensures Sealed(c, EMPTY_CHAIN)
  {
  }

  lemma FirstLink(c: Tools, s: State)
    ensures Sealed(c, s) && s.events != [] ==>
      var first := s.events[0].event.body.previousHash;
      |first| == 64 && forall x | x in first :: x == '0'
  {
    if Sealed(c, s) && s.events != [] {
      LinkAt(c.hash, Bodies(s.events), 0);
      NothingChained(c.hash, Bodies(s.events));
    }
  }

  /** Any chain begun empty verifies, and so does the chain rebuilt from its store; its
      first event links to 64 zeros. */
  lemma BegunChainVerifies(c: Tools, calls: seq<Call>)
    requires c.Sound()
    ensures Sealed(c, Run(c, EMPTY_CHAIN, calls))
    ensures Sealed(c, Loaded(c, Run(c, EMPTY_CHAIN, calls).events))
    ensures
      var es := Run(c, EMPTY_CHAIN, calls).events;
      es != [] ==>
        |es[0].event.body.previousHash| == 64 && forall x | x in es[0].event.body.previousHash :: x == '0'
  {
    hide Run, Loaded, Chained;
    FirstLink(c, Run(c, EMPTY_CHAIN, calls));
    EmptySealed(c);
    EveryChainVerifies(c, EMPTY_CHAIN, calls);
    LoadedSealed(c, Run(c, EMPTY_CHAIN, calls).events);
  }

  /** Ids are never reused within a running chain, whatever is refused. */
  ghost predicate Numbered(s: State) {
    && (forall i, j | 0 <= i < j < |s.events| :: IdAt(s, i) != IdAt(s, j))
    && (forall i, n: nat | 0 <= i < |s.events| && IdAt(s, i) == EventId(n) :: n <= s.counter)
  }

  function IdAt(s: State, i: int): string
    requires 0 <= i < |s.events|
  {
    s.events[i].event.body.id
  }

  lemma CallKeepsNumbered(c: Tools, s: State, call: Call)
    requires Numbered(s)
    ensures Numbered(Apply(c, s, call))
  {
    hide CreationError, AsRecord, EventId;
    var s' := Apply(c, s, call);
    forall i | 0 <= i < |s.events| ensures IdAt(s', i) == IdAt(s, i) {
    }
    if |s'.events| > |s.events| {
      assert IdAt(s', |s.events|) == EventId(s.counter + 1);
      forall n: nat | EventId(n) == EventId(s.counter + 1) ensures n == s.counter + 1 {
        EventIdsDiffer(n, s.counter + 1);
      }
    }
  }

  lemma {:induction false} NumberedStays(c: Tools, s: State, calls: seq<Call>)
    requires Numbered(s)
    ensures Numbered(Run(c, s, calls))
  {
    hide Apply, Numbered;
    if calls != [] {
      NumberedStays(c, s, calls[..|calls| - 1]);
      CallKeepsNumbered(c, Run(c, s, calls[..|calls| - 1]), calls[|calls| - 1]);
    }
  }

  lemma IdsAreUnique(c: Tools, calls: seq<Call>)
    ensures UniqueIds(Run(c, EMPTY_CHAIN, calls))
  {
    EmptyNumbered();
    NumberedStays(c, EMPTY_CHAIN, calls);
  }

  ghost predicate UniqueIds(s: State) {
    forall i, j | 0 <= i < j < |s.events| :: IdAt(s, i) != IdAt(s, j)
  }

  lemma EmptyNumbered()
    ensures Numbered(EMPTY_CHAIN)
  {
  }

  /** Which of the calls were recorded, counted from one: the numbers in the ids. */
  function Numbers(c: Tools, calls: seq<Call>): seq<nat> {
    if calls == [] then []
    else
      var front, last := calls[..|calls| - 1], calls[|calls| - 1];
      Numbers(c, front)
        + if Refusal(c, Run(c, EMPTY_CHAIN, front), last).None? then [|calls|] else []
  }

  ghost predicate Climbs(ns: seq<nat>, top: nat) {
    && (forall i | 0 <= i < |ns| :: i + 1 <= ns[i] <= top)
    && (forall i, j | 0 <= i < j < |ns| :: ns[i] < ns[j])
  }

  lemma CallNumbers(c: Tools, s: State, call: Call)
    ensures
      var s' := Apply(c, s, call);
      && s'.counter == s.counter + 1
      && (Refusal(c, s, call).Some? ==> s'.events == s.events)
      && (Refusal(c, s, call).None? ==>
            && |s'.events| == |s.events| + 1 && s'.events[..|s.events|] == s.events
            && IdAt(s', |s.events|) == EventId(s.counter + 1))
  {
    hide CreationError, AsRecord, EventId;
  }

  /** The ids of a chain are numbered by its calls, refused ones included. */
  lemma {:induction false} NumbersAre(c: Tools, calls: seq<Call>)
    ensures
      var s, ns := Run(c, EMPTY_CHAIN, calls), Numbers(c, calls);
      && s.counter == |calls| && |ns| == |s.events| && Climbs(ns, |calls|)
      && |ns| + Refused(c, EMPTY_CHAIN, calls) == |calls|
      && forall i | 0 <= i < |ns| :: IdAt(s, i) == EventId(ns[i])
  {
    hide Apply, EventId, Refusal;
    if calls != [] {
      var front, last := calls[..|calls| - 1], calls[|calls| - 1];
      NumbersAre(c, front);
      var s := Run(c, EMPTY_CHAIN, front);
      CallNumbers(c, s, last);
      forall i | 0 <= i < |s.events|
        ensures IdAt(Run(c, EMPTY_CHAIN, calls), i) == IdAt(s, i)
      {
        assert Run(c, EMPTY_CHAIN, calls).events[..|s.events|][i] == s.events[i];
      }
    }
  }

  /** The event says what the call asked to be recorded. */
  ghost predicate Says(c: Tools, call: Call, b: Body) {
    match call
    case Record(actor, action, resourceType, resourceId, payload, nonce, now) =>
      && b.actor == actor && b.action == action && b.resourceType == resourceType
      && b.resourceId == resourceId && b.occurredAt == now
      && b.payload.Keys == payload.Keys + (if nonce.Some? then {"permit_nonce"} else {})
      && forall k | k in b.payload ::
           b.payload[k] == if k == "permit_nonce" && nonce.Some? then Str(nonce.value) else payload[k]
    case Rotate(actor, now) =>
      && b.actor == actor && b.action == "audit.rotated" && b.resourceType == "audit_chain"
      && b.resourceId == "rotation" && b.occurredAt == now
      && b.payload == map["previous_chain_tail_hash" := Str(b.previousHash)]
    case Redact(eventId, keys, actor, now) =>
      && b.actor == actor && b.action == "gdpr.redacted" && b.resourceType == "audit_event"
      && b.resourceId == eventId && b.occurredAt == now
      && b.payload.Keys == {"redacted_event_id", "keys"}
      && b.payload["redacted_event_id"] == Str(eventId) && b.payload["keys"].List?
      && TextsOf(c, b.payload["keys"].items) == keys
  }

  lemma BodySays(c: Tools, s: State, call: Call)
    requires c.Sound()
    ensures Says(c, call, BodyFor(s, AsRecord(c, s, call)))
  {
    hide EventId;
    if call.Redact? {
      SortedTexts(c, call.keys);
    }
  }

  /** The i-th event says what the call it is numbered by asked to be recorded: nothing
      is recorded unasked, and what is recorded keeps the order of the calls. */
  lemma {:induction false} EventsSayTheirCalls(c: Tools, calls: seq<Call>, i: nat)
    requires c.Sound() && i < |Run(c, EMPTY_CHAIN, calls).events|
    ensures |Numbers(c, calls)| == |Run(c, EMPTY_CHAIN, calls).events|
    ensures
      var n := Numbers(c, calls)[i];
      && 1 <= n <= |calls|
      && Says(c, calls[n - 1], Run(c, EMPTY_CHAIN, calls).events[i].event.body)
  {
    hide *;
    NumbersAre(c, calls);
    NoEventsYet(c, calls);
    var front, last := calls[..|calls| - 1], calls[|calls| - 1];
    var s := Run(c, EMPTY_CHAIN, front);
    NumbersAre(c, front);
    LastNumber(c, calls);
    AppliedEvents(c, s, last);
    if i < |s.events| {
      EventsSayTheirCalls(c, front, i);
    } else {
      BodySays(c, s, last);
    }
  }

  lemma NoEventsYet(c: Tools, calls: seq<Call>)
    ensures calls == [] ==> Run(c, EMPTY_CHAIN, calls).events == []
  {
  }

  lemma LastNumber(c: Tools, calls: seq<Call>)
    requires calls != []
    ensures
      var front, last := calls[..|calls| - 1], calls[|calls| - 1];
      var s := Run(c, EMPTY_CHAIN, front);
      && Run(c, EMPTY_CHAIN, calls) == Apply(c, s, last)
      && Numbers(c, calls)
         == Numbers(c, front) + if Refusal(c, s, last).None? then [|calls|] else []
  {
    hide Apply, Refusal;
  }

  /** No refused call comes before a recorded one. */
  predicate RefusalsComeLast(c: Tools, calls: seq<Call>) {
    calls != [] ==>
      var front, last := calls[..|calls| - 1], calls[|calls| - 1];
      && RefusalsComeLast(c, front)
      && (Refusal(c, Run(c, EMPTY_CHAIN, front), last).None? ==> Refused(c, EMPTY_CHAIN, front) == 0)
  }

  lemma {:induction false} RefusalsLastNumbers(c: Tools, calls: seq<Call>)
    ensures
      var ns := Numbers(c, calls);
      RefusalsComeLast(c, calls) <==> ns == [] || ns[|ns| - 1] == |ns|
  {
    hide Apply, Refusal;
    if calls != [] {
      var front := calls[..|calls| - 1];
      RefusalsLastNumbers(c, front);
      NumbersAre(c, front);
      NumbersAre(c, calls);
    }
  }

  const PLAIN_RECORD := Record("actor", "action", "type", "id", map[], None, 0)

  lemma PlainIsRecorded(c: Tools, s: State)
    ensures Refusal(c, s, PLAIN_RECORD) == None
  {
    assert EventId(s.counter + 1) != "";
  }

  lemma {:induction false} PlainRecords(c: Tools, s: State, n: nat) returns (more: seq<Call>)
    ensures
      var s' := Run(c, s, more);
      && s'.counter == s.counter + n && |s'.events| == |s.events| + n
      && s'.events[..|s.events|] == s.events
      && (n > 0 ==> IdAt(s', |s'.events| - 1) == EventId(s.counter + n))
  {
    hide Apply, EventId, Refusal;
    if n == 0 {
      more := [];
    } else {
      var front := PlainRecords(c, s, n - 1);
      more := front + [PLAIN_RECORD];
      assert more[..|more| - 1] == front;
      PlainIsRecorded(c, Run(c, s, front));
      CallNumbers(c, Run(c, s, front), PLAIN_RECORD);
    }
  }

  /** Across a restart ids stay unique, whatever is called afterwards, if and only if
      no refused call came before the last recorded one. */
  lemma IdsSurviveRestart(c: Tools, calls: seq<Call>)
    ensures (forall more :: UniqueIds(Run(c, Loaded(c, Run(c, EMPTY_CHAIN, calls).events), more)))
       <==> RefusalsComeLast(c, calls)
  {
    hide Apply, EventId, Refusal, Numbered, UniqueIds, Numbers, RefusalsComeLast, Run, Loaded;
    var s, ns := Run(c, EMPTY_CHAIN, calls), Numbers(c, calls);
    NumbersAre(c, calls);
    RefusalsLastNumbers(c, calls);
    var loaded := Loaded(c, s.events);
    LoadedCounter(c, s.events);
    if RefusalsComeLast(c, calls) {
      DenseIsNumbered(loaded, ns);
      forall more ensures UniqueIds(Run(c, loaded, more)) {
        NumberedStays(c, loaded, more);
        NumberedUnique(Run(c, loaded, more));
      }
    } else {
      var n := |ns|;
      var more := PlainRecords(c, loaded, ns[n - 1] - n);
      var s' := Run(c, loaded, more);
      assert s'.events[..n][n - 1] == s.events[n - 1];
      RepeatedId(s', n - 1, |s'.events| - 1);
    }
  }

  lemma NumberedUnique(s: State)
    requires Numbered(s)
    ensures UniqueIds(s)
  {
  }

  lemma RepeatedId(s: State, i: nat, j: nat)
    requires i < j < |s.events| && IdAt(s, i) == IdAt(s, j)
    ensures !UniqueIds(s)
  {
  }

  /** Events numbered without a gap. */
  lemma DenseIsNumbered(s: State, ns: seq<nat>)
    requires |ns| == |s.events| == s.counter && (ns == [] || ns[|ns| - 1] == |ns|)
    requires forall i, j | 0 <= i < j < |ns| :: ns[i] < ns[j]
    requires forall i | 0 <= i < |ns| :: IdAt(s, i) == EventId(ns[i])
    ensures Numbered(s)
  {
    hide EventId;
    forall i, n: nat | 0 <= i < |ns| && IdAt(s, i) == EventId(n) ensures n <= s.counter {
      EventIdsDiffer(n, ns[i]);
      assert ns[i] <= ns[|ns| - 1];
    }
    forall i, j | 0 <= i < j < |ns| ensures IdAt(s, i) != IdAt(s, j) {
      if EventId(ns[i]) == EventId(ns[j]) {
        EventIdsDiffer(ns[i], ns[j]);
      }
    }
  }

  lemma LoadedCounter(c: Tools, es: seq<SignedEvent>)
    ensures Loaded(c, es).counter == |es| && Loaded(c, es).events == es
  {
  }

  /** A rotation commits to everything before it: chains that share it share their
      whole past. */
  lemma RotationPinsThePast(c: Tools, s: State, call: Call, other: seq<AuditEvent>, at: nat)
    requires c.Sound() && Sealed(c, s) && call.Rotate? && Refusal(c, s, call).None?
    requires Chained(c.hash, other) && at < |other|
    requires other[at] == Apply(c, s, call).events[|s.events|].event
    ensures other[..at] == Bodies(s.events)
    ensures other[at].body.payload
         == map["previous_chain_tail_hash" := Str(TailOf(c.hash, Bodies(s.events)))]
  {
    assert LinkedTo(c.hash, TailOf(c.hash, other[..at]), other[at]);
    PrefixChained(c.hash, other, at);
    TailDeterminesHistory(c.hash, other[..at], Bodies(s.events));
  }

  /** The call a rotation ends in when the tail was read in an earlier state. */
  function LateRotation(read: State, actor: string, now: int): (r: Call)
    ensures r.Record?
  {
    Record(actor, "audit.rotated", "audit_chain", "rotation",
           map["previous_chain_tail_hash" := Str(read.tail)], None, now)
  }

  /** Reading the tail and recording the rotation are two steps for other callers.
      The rotation names the event before it if and only if nothing was recorded in
      between. */
  lemma LateRotationNamesItsTail(c: Tools, s: State, calls: seq<Call>, actor: string, now: int)
    requires c.Sound() && Sealed(c, s)
    ensures
      var s' := Run(c, s, calls);
      var b := BodyFor(s', LateRotation(s, actor, now));
      b.payload["previous_chain_tail_hash"] == Str(b.previousHash) <==> s'.events == s.events
  {
    hide Chained, Run, Apply, TailOf;
    var s' := Run(c, s, calls);
    EveryChainVerifies(c, s, calls);
    if s'.tail == s.tail {
      TailDeterminesHistory(c.hash, Bodies(s.events), Bodies(s'.events));
      assert |Bodies(s.events)| == |s.events| && |Bodies(s'.events)| == |s'.events|;
    }
  }

  // --------------------------------------------------------------------- export

  const MASK := Str("[REDACTED:gdpr]")

  function MaskedPayload(p: Payload, keys: set<string>): Payload {
    map k | k in p :: if k in keys then MASK else p[k]
  }

  function MaskedEvent(e: AuditEvent, redactions: map<string, set<string>>): AuditEvent {
    if e.body.id in redactions && redactions[e.body.id] != {}
    then e.(body := e.body.(payload := MaskedPayload(e.body.payload, redactions[e.body.id])))
    else e
  }

  function Exported(s: State, redacted: bool): (r: seq<AuditEvent>)
    ensures |r| == |s.events|
  {
    seq(|s.events|, i requires 0 <= i < |s.events| =>
      if redacted then MaskedEvent(s.events[i].event, s.redactions) else s.events[i].event)
  }

  /** The keys in force for an event. */
  function KeysFor(s: State, id: string): set<string> {
    if id in s.redactions then s.redactions[id] else {}
  }

  /** A redacted export keeps every event, its identity and both its hashes, and
      masks exactly the values of the keys in force. */
  lemma ExportMasksExactly(s: State, i: nat)
    requires i < |s.events|
    ensures
      var e, x := s.events[i].event, Exported(s, true)[i];
      && x.eventHash == e.eventHash
      && x.body == e.body.(payload := x.body.payload)
      && x.body.payload.Keys == e.body.payload.Keys
      && forall k | k in e.body.payload ::
           x.body.payload[k] == if k in KeysFor(s, e.body.id) then MASK else e.body.payload[k]
  {
  }

  /** What is in force for an event is what the last redaction of it asked for, not
      what all of them together asked for. */
  lemma LastRedactionWins(c: Tools, s: State, call: Call, id: string)
    ensures KeysFor(Apply(c, s, call), id)
         == if call.Redact? && call.eventId == id then call.keys else KeysFor(s, id)
  {
  }

  /** The keys of the last redaction of an event among the calls. */
  function LastRedaction(calls: seq<Call>, id: string): Option<set<string>> {
    if calls == [] then None
    else
      var last := calls[|calls| - 1];
      if last.Redact? && last.eventId == id then Some(last.keys)
      else LastRedaction(calls[..|calls| - 1], id)
  }

  lemma {:induction false} KeysOverHistory(c: Tools, s: State, calls: seq<Call>, id: string)
    ensures KeysFor(Run(c, s, calls), id)
         == match LastRedaction(calls, id)
            case Some(keys) => keys
            case None => KeysFor(s, id)
  {
    hide Apply, KeysFor;
    if calls != [] {
      KeysOverHistory(c, s, calls[..|calls| - 1], id);
      LastRedactionWins(c, Run(c, s, calls[..|calls| - 1]), calls[|calls| - 1], id);
    }
  }

  /** Export over any history: every event is there with its identity and both its
      hashes, and masked are exactly the values of the keys that the last redaction
      of the event asked for. */
  lemma ExportOverHistory(c: Tools, calls: seq<Call>, i: nat)
    requires i < |Run(c, EMPTY_CHAIN, calls).events|
    ensures
      var s := Run(c, EMPTY_CHAIN, calls);
      var e, x := s.events[i].event, Exported(s, true)[i];
      var asked := LastRedaction(calls, e.body.id);
      && x.eventHash == e.eventHash && x.body == e.body.(payload := x.body.payload)
      && x.body.payload.Keys == e.body.payload.Keys
      && forall k | k in e.body.payload ::
           x.body.payload[k]
             == if asked.Some? && k in asked.value then Str("[REDACTED:gdpr]") else e.body.payload[k]
  {
    hide Run, KeysFor, Exported;
    var s := Run(c, EMPTY_CHAIN, calls);
    ExportMasksExactly(s, i);
    KeysOverHistory(c, EMPTY_CHAIN, calls, s.events[i].event.body.id);
    NoKeysYet(s.events[i].event.body.id);
  }

  lemma NoKeysYet(id: string)
    ensures KeysFor(EMPTY_CHAIN, id) == {}
  {
  }

  /** Setting the keys and recording the redaction are two steps for other callers.
      After both, a rebuilt chain masks this event as the running one does if and
      only if no redaction of the event with other keys came last in between. */
  lemma SplitRedactionAgrees(c: Tools, s: State, id: string, keys: set<string>, calls: seq<Call>,
                             actor: string, now: int)
    requires c.Sound()
    requires
      var s' := Run(c, s.(redactions := s.redactions[id := keys]), calls);
      Refusal(c, s', AsRecord(c, s', Redact(id, keys, actor, now))).None?
    ensures
      var s' := Run(c, s.(redactions := s.redactions[id := keys]), calls);
      var after := Apply(c, s', AsRecord(c, s', Redact(id, keys, actor, now)));
      KeysFor(after, id) == KeysFor(Loaded(c, after.events), id)
      <==> LastRedaction(calls, id) == None || LastRedaction(calls, id) == Some(keys)
  {
    hide CreationError, RedactionIn, Redactions, Run, Bare, BodyFor, Tools.Sound;
    var s0 := s.(redactions := s.redactions[id := keys]);
    var s' := Run(c, s0, calls);
    var call := Redact(id, keys, actor, now);
    var record := AsRecord(c, s', call);
    KeysOverHistory(c, s0, calls, id);
    RecordIsItself(c, s', record);
    RedactedBody(c, s', call);
    LoadedMore(c, s'.events, SignedFor(c, BodyFor(s', record)));
  }

  /** So asking for a second key puts the first back in the clear. */
  lemma SecondRedactionUnmasks(c: Tools, s: State, i: nat, k1: string, k2: string, actor: string, now: int)
    requires i < |s.events| && k1 != k2 && k1 in s.events[i].event.body.payload
    ensures
      var id := IdAt(s, i);
      var s' := Run(c, s, [Redact(id, {k1}, actor, now), Redact(id, {k2}, actor, now)]);
      && i < |s'.events| && k1 in Exported(s', true)[i].body.payload
      && Exported(s', true)[i].body.payload[k1] == s.events[i].event.body.payload[k1]
  {
    hide CreationError, AsRecord, BodyFor, Run;
    var id := IdAt(s, i);
    var first, second := Redact(id, {k1}, actor, now), Redact(id, {k2}, actor, now);
    RunTwo(c, s, first, second);
    var s1 := Apply(c, s, first);
    var s2 := Apply(c, s1, second);
    assert s2.events[i] == s.events[i];
    LastRedactionWins(c, s1, second, id);
    ExportMasksExactly(s2, i);
  }

  /** A redacted export passes verification exactly if masking changed nothing. */
  lemma RedactedExportVerifies(c: Tools, s: State)
    requires c.Sound() && Sealed(c, s)
    ensures Chained(c.hash, Exported(s, true)) <==> Exported(s, true) == Bodies(s.events)
  {
    AlteredVerifies(c.hash, Bodies(s.events), Exported(s, true));
  }

  // --------------------------------------------------------------- permit nonces

  function NonceIn(c: Tools, b: Body): set<string> {
    if "permit_nonce" in b.payload then {c.text(b.payload["permit_nonce"])} else {}
  }

  function Nonces(c: Tools, s: State): set<string> {
    set e, n | e in s.events && n in NonceIn(c, e.event.body) :: n
  }

  lemma NoncesMore(c: Tools, s: State, s': State, e: SignedEvent)
    requires s'.events == s.events + [e]
    ensures Nonces(c, s') == Nonces(c, s) + NonceIn(c, e.event.body)
  {
    hide NonceIn;
    forall n | n in Nonces(c, s) ensures n in Nonces(c, s') {
      var x :| x in s.events && n in NonceIn(c, x.event.body);
      assert x in s'.events;
    }
    assert e in s'.events;
  }

  /** A recorded nonce is seen from then on, so a replay can be told; a refused
      record leaves the nonces as they were. */
  lemma NonceIsSeen(c: Tools, s: State, call: Call)
    requires c.Sound()
    ensures
      var s' := Apply(c, s, call);
      Nonces(c, s') == Nonces(c, s)
        + if Refusal(c, s, call).None? then NonceIn(c, BodyFor(s, AsRecord(c, s, call))) else {}
    ensures call.Record? && call.permitNonce.Some? && Refusal(c, s, call).None? ==>
      call.permitNonce.value in Nonces(c, Apply(c, s, call))
  {
    hide CreationError, AsRecord, Nonces;
    var b := BodyFor(s, AsRecord(c, s, call));
    if CreationError(b).None? {
      NoncesMore(c, s, Apply(c, s, call), SignedFor(c, b));
      if call.Record? {
        RecordIsItself(c, s, call);
      }
    } else {
      SameNonces(c, s, Apply(c, s, call));
    }
  }

  /** The i-th call was recorded and carried this nonce: as its own argument, or if it
      had none, in its payload. */
  ghost predicate Gave(c: Tools, calls: seq<Call>, i: nat, n: string) {
    && i < |calls| && Refusal(c, Run(c, EMPTY_CHAIN, calls[..i]), calls[i]).None?
    && Carries(c, calls[i], n)
  }

  predicate Carries(c: Tools, call: Call, n: string) {
    && call.Record?
    && if call.permitNonce.Some? then n == call.permitNonce.value
       else "permit_nonce" in call.payload && n == c.text(call.payload["permit_nonce"])
  }

  lemma NonceCarried(c: Tools, s: State, call: Call, n: string)
    requires c.Sound()
    ensures n in NonceIn(c, BodyFor(s, AsRecord(c, s, call))) <==> Carries(c, call, n)
  {
    hide EventId;
    assert |"permit_nonce"| == 12 && |"previous_chain_tail_hash"| == 24;
    assert |"redacted_event_id"| == 17 && |"keys"| == 4;
  }

  lemma GaveBefore(c: Tools, calls: seq<Call>, i: nat, n: string)
    requires i + 1 < |calls|
    ensures Gave(c, calls, i, n) <==> Gave(c, calls[..|calls| - 1], i, n)
  {
    hide Run, Refusal, Carries;
    assert calls[..|calls| - 1][..i] == calls[..i];
  }

  /** Replays can be told over any history: a nonce is among the chain's exactly if
      some recorded call carried it. */
  lemma {:induction false} NoncesOverHistory(c: Tools, calls: seq<Call>, n: string)
    requires c.Sound()
    ensures n in Nonces(c, Run(c, EMPTY_CHAIN, calls)) <==> exists i: nat :: Gave(c, calls, i, n)
  {
    hide Nonces, Apply, NonceIn, Refusal, Tools.Sound, Gave, BodyFor, AsRecord;
    if calls == [] {
      NoNoncesYet(c);
      NoCallsGave(c, n);
    } else {
      var front, last := calls[..|calls| - 1], |calls| - 1;
      NoncesOverHistory(c, front, n);
      LastGave(c, calls, n);
      if i: nat :| Gave(c, front, i, n) {
        GaveInRange(c, front, i, n);
        GaveBefore(c, calls, i, n);
      }
      if i: nat :| Gave(c, calls, i, n) {
        GaveInRange(c, calls, i, n);
        if i < last {
          GaveBefore(c, calls, i, n);
        }
      }
    }
  }

  lemma NoCallsGave(c: Tools, n: string)
    ensures !exists i: nat :: Gave(c, [], i, n)
  {
  }

  lemma GaveInRange(c: Tools, calls: seq<Call>, i: nat, n: string)
    requires Gave(c, calls, i, n)
    ensures i < |calls|
  {
  }

  lemma LastGave(c: Tools, calls: seq<Call>, n: string)
    requires c.Sound() && calls != []
    ensures n in Nonces(c, Run(c, EMPTY_CHAIN, calls))
       <==> n in Nonces(c, Run(c, EMPTY_CHAIN, calls[..|calls| - 1])) || Gave(c, calls, |calls| - 1, n)
  {
    hide Nonces, Apply, NonceIn, Refusal, Tools.Sound, BodyFor, AsRecord, Carries;
    NonceIsSeen(c, Run(c, EMPTY_CHAIN, calls[..|calls| - 1]), calls[|calls| - 1]);
    NonceCarried(c, Run(c, EMPTY_CHAIN, calls[..|calls| - 1]), calls[|calls| - 1], n);
  }

  lemma NoNoncesYet(c: Tools)
    ensures Nonces(c, EMPTY_CHAIN) == {}
  {
  }

  lemma SameNonces(c: Tools, s: State, s': State)
    requires s'.events == s.events
    ensures Nonces(c, s') == Nonces(c, s)
  {
  }

  // ------------------------------------------------------------------ the chain

  class SignedEventStore {
    var rows: seq<SignedEvent>

    constructor ()
      ensures rows == []
    {
      rows := [];
    }

    method Append(e: SignedEvent)
      modifies this
      ensures rows == old(rows) + [e]
    {
      rows := rows + [e];
    }
  }

  class AuditChain {
    const tools: Tools
    const store: Option<SignedEventStore>
    var events: seq<SignedEvent>
    var tail: string
    var counter: nat
    var redactions: map<string, set<string>>

    function Repr(): set<object> {
      {this} + if store.Some? then {store.value} else {}
    }

    function Now(): State
      reads this
    {
      State(events, tail, counter, redactions)
    }

    /** The store, if there is one, holds the chain's events in order. */
    ghost predicate Valid()
      reads Repr()
    {
      tools.Sound() && (store.Some? ==> store.value.rows == events)
    }

    constructor (tools: Tools, store: Option<SignedEventStore>)
      requires tools.Sound()
      ensures Valid() && this.tools == tools && this.store == store
      ensures Now() == if store.Some? then Loaded(tools, store.value.rows) else EMPTY_CHAIN
    {
      this.tools, this.store := tools, store;
      events, tail, counter, redactions := [], GENESIS_HASH, 0, map[];
      new;
      if store.Some? {
        LoadFromStore(store.value);
      }
    }

    method LoadFromStore(from: SignedEventStore)
      requires Now() == EMPTY_CHAIN
      modifies this
      ensures Now() == Loaded(tools, from.rows)
    {
      var loaded := from.rows;
      events := loaded;
      if loaded != [] {
        tail := Bare(loaded[|loaded| - 1].event.eventHash);
        counter := |loaded|;
      }
      assert loaded[..0] == [];
      for i := 0 to |loaded|
        invariant events == loaded && counter == |loaded|
        invariant tail == Loaded(tools, loaded).tail
        invariant redactions == Redactions(tools, loaded[..i])
      {
        assert loaded[..i + 1][..i] == loaded[..i];
        var b := loaded[i].event.body;
        if b.action == "gdpr.redacted" {
          if "redacted_event_id" in b.payload && "keys" in b.payload {
            var id, keys := b.payload["redacted_event_id"], b.payload["keys"];
            if id.Str? && keys.List? {
              redactions := redactions[id.text := set v | v in keys.items :: tools.text(v)];
            }
          }
        }
      }
      assert loaded[..|loaded|] == loaded;
    }

    method RecordEvent(actor: string, action: string, resourceType: string, resourceId: string,
                       payload: Payload, permitNonce: Option<string>, now: int)
      returns (r: Result<SignedEvent, AuditError>)
      requires Valid()
      modifies Repr()
      ensures Valid()
      ensures
        var call := Record(actor, action, resourceType, resourceId, payload, permitNonce, now);
        Did(old(Now()), call, r)
      ensures r.Failure? <==>
        || actor == "" || action == "" || resourceType == "" || resourceId == ""
        || exists k | k in payload :: NamesSecret(k)
    {
      hide Tools.Sound, CreationError, EventId, NamesSecret;
      RefusedExactly(tools, Now(), Record(actor, action, resourceType, resourceId, payload,
                                          permitNonce, now));
      ghost var call := Record(actor, action, resourceType, resourceId, payload, permitNonce, now);
      counter := counter + 1;
      var body := payload;
      if permitNonce.Some? {
        body := body["permit_nonce" := Str(permitNonce.value)];
      }
      var b := Body(EventId(counter), actor, action, resourceType, resourceId, body, tail, now);
      var error := CreationError(b);
      if error.Some? {
        return Failure(error.value);
      }
      var event := EventOf(tools.hash, b);
      var signed := SignedEvent(event, tools.sign(event.eventHash));
      events := events + [signed];
      tail := Bare(event.eventHash);
      if store.Some? {
        store.value.Append(signed);
      }
      return Success(signed);
    }

    /** The call took the chain where `Apply` says and answered r. */
    ghost predicate Did(before: State, call: Call, r: Result<SignedEvent, AuditError>)
      reads this
    {
      && Now() == Apply(tools, before, call)
      && match Refusal(tools, before, call)
         case Some(e) => r == Failure(e) && events == before.events
         case None => r.Success? && events == before.events + [r.value]
    }

    method RotateLog(actor: string, now: int) returns (r: Result<SignedEvent, AuditError>)
      requires Valid()
      modifies Repr()
      ensures Valid() && Did(old(Now()), Rotate(actor, now), r)
    {
      r := RecordEvent(actor, "audit.rotated", "audit_chain", "rotation",
                       map["previous_chain_tail_hash" := Str(tail)], None, now);
    }

    method RedactPii(eventId: string, keys: set<string>, actor: string, now: int)
      returns (r: Result<SignedEvent, AuditError>)
      requires Valid()
      modifies Repr()
      ensures Valid() && Did(old(Now()), Redact(eventId, keys, actor, now), r)
    {
      hide CreationError, Tools.Sound;
      redactions := redactions[eventId := keys];
      r := RecordEvent(actor, "gdpr.redacted", "audit_event", eventId,
                       map["redacted_event_id" := Str(eventId),
                           "keys" := List(Texts(tools.sorted(keys)))],
                       None, now);
    }

    method PermitNonces() returns (nonces: set<string>)
      ensures nonces == Nonces(tools, Now())
    {
      nonces := set e, n | e in events && n in NonceIn(tools, e.event.body) :: n;
    }

    lemma SoundParts()
      requires Valid()
      ensures Collisionless(tools.hash)
    {
    }

    method Verify() returns (ok: bool)
      requires Valid()
      ensures ok <==>
        && Chained(tools.hash, Bodies(events))
        && forall i | 0 <= i < |events| :: tools.verify(events[i].event.eventHash, events[i].signature)
      ensures Sealed(tools, Now()) ==> ok
    {
      hide Tools.Sound, Chained, Bodies;
      SoundParts();
      ok := VerifyChain(tools.hash, Bodies(events));
      if !ok {
        return;
      }
      for i := 0 to |events|
        invariant forall k | 0 <= k < i ::
          tools.verify(events[k].event.eventHash, events[k].signature)
      {
        if !tools.verify(events[i].event.eventHash, events[i].signature) {
          return false;
        }
      }
    }

    method Export(redacted: bool) returns (out: seq<AuditEvent>)
      ensures out == Exported(Now(), redacted)
    {
      if !redacted {
        return Bodies(events);
      }
      out := [];
      for i := 0 to |events|
        invariant out == Exported(Now(), true)[..i]
      {
        var e := events[i].event;
        var keys := if e.body.id in redactions then redactions[e.body.id] else {};
        if keys != {} {
          var masked := map k | k in e.body.payload
                          :: if k in keys then MASK else e.body.payload[k];
          out := out + [e.(body := e.body.(payload := masked))];
        } else {
          out := out + [e];
        }
      }
    }
  }
}
