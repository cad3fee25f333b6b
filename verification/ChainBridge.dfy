/** The bridge from attack chains to pending hypotheses. The engine mints fresh ids on
    every call; the bridge keys each pending link by its logical identity, so what a
    sync returns depends only on the templates, the findings and which hypotheses
    have progressed. */
module ChainBridges {
  import opened Wrappers
  import opened ChainTemplates
  import opened ChainEngines

  /** The id of (template id, link index, required CWEs): a digest, so possibly not
      injective. */
  type Canonical = (string, nat, seq<string>) -> string

  datatype PendingHypothesis = PendingHypothesis(
    hypothesisId: string, description: string, neededCwe: seq<string>)

  datatype HypothesisRecord = HypothesisRecord(
    hypothesisId: string, chainId: string, linkIndex: nat, requiredCwe: seq<string>,
    progressed: bool)

  function Joined(parts: seq<string>): string {
    if parts == [] then ""
    else if |parts| == 1 then parts[0]
    else parts[0] + "/" + Joined(parts[1..])
  }

  function Described(id: string, spec: ChainLinkSpec): PendingHypothesis {
    var family := if spec.cweAny != [] then Joined(spec.cweAny) else "evidence";
    var asset := if spec.assetPattern != "" then spec.assetPattern else "the target asset";
    PendingHypothesis(id, "confirm '" + family + "' evidence on " + asset, spec.cweAny)
  }

  // ---------------------------------------------------------- what a sync returns

  /** The unbound, unprogressed ones among the first n links of a template. */
  function Pending(canonical: Canonical, id: string, specs: seq<ChainLinkSpec>,
                   bound: seq<Option<nat>>, progressed: set<string>, n: nat): seq<PendingHypothesis>
    requires n <= |bound| == |specs|
  {
    if n == 0 then []
    else
      var before := Pending(canonical, id, specs, bound, progressed, n - 1);
      var h := canonical(id, n - 1, specs[n - 1].cweAny);
      if bound[n - 1].Some? || h in progressed then before
      else before + [Described(h, specs[n - 1])]
  }

  function PendingOf(canonical: Canonical, t: AttackChainTemplate, fs: seq<Finding>,
                     progressed: set<string>): seq<PendingHypothesis> {
    Pending(canonical, t.id, t.links, Bindings(t.links, fs, 0), progressed, |t.links|)
  }

  /** All of them, template by template. */
  function Expected(canonical: Canonical, ts: seq<AttackChainTemplate>, fs: seq<Finding>,
                    progressed: set<string>): seq<PendingHypothesis> {
    if ts == [] then []
    else
      Expected(canonical, ts[..|ts| - 1], fs, progressed)
        + PendingOf(canonical, ts[|ts| - 1], fs, progressed)
  }

  lemma {:induction false} PendingIds(canonical: Canonical, id: string, specs: seq<ChainLinkSpec>,
                                      bound: seq<Option<nat>>, progressed: set<string>, n: nat)
    requires n <= |bound| == |specs|
    ensures forall h :: h in Pending(canonical, id, specs, bound, progressed, n) <==>
      exists i | 0 <= i < n ::
        && bound[i].None? && canonical(id, i, specs[i].cweAny) !in progressed
        && h == Described(canonical(id, i, specs[i].cweAny), specs[i])
  {
    hide Described;
    if n > 0 {
      PendingIds(canonical, id, specs, bound, progressed, n - 1);
    }
  }

  ghost predicate IsPendingLink(canonical: Canonical, t: AttackChainTemplate, fs: seq<Finding>,
                                i: nat, h: PendingHypothesis)
    requires i < |t.links|
  {
    var cwe, asset := t.links[i].cweAny, t.links[i].assetPattern;
    && Bindings(t.links, fs, 0)[i].None?
    && h.hypothesisId == canonical(t.id, i, cwe) && h.neededCwe == cwe
    && h.description == "confirm '" + (if cwe == [] then "evidence" else Joined(cwe))
                        + "' evidence on " + (if asset == "" then "the target asset" else asset)
  }

  /** Exactly the hypotheses of unbound links come back, less those that have
      progressed: a progressed id never returns, whatever the findings. */
  lemma {:induction false} ExpectedExactly(canonical: Canonical, ts: seq<AttackChainTemplate>,
                                           fs: seq<Finding>, progressed: set<string>,
                                           h: PendingHypothesis)
    ensures h in Expected(canonical, ts, fs, progressed) <==>
      && h.hypothesisId !in progressed
      && exists t, i: nat :: t in ts && i < |t.links| && IsPendingLink(canonical, t, fs, i, h)
  {
    hide Bindings;
    if ts != [] {
      var front, t := ts[..|ts| - 1], ts[|ts| - 1];
      assert ts == front + [t];
      ExpectedExactly(canonical, front, fs, progressed, h);
      PendingExactly(canonical, t, fs, progressed, h);
      if t', i: nat :| t' in ts && i < |t'.links| && IsPendingLink(canonical, t', fs, i, h) {
        assert t' in front || t' == t;
      }
    }
  }

  lemma PendingExactly(canonical: Canonical, t: AttackChainTemplate, fs: seq<Finding>,
                       progressed: set<string>, h: PendingHypothesis)
    ensures h in PendingOf(canonical, t, fs, progressed) <==>
      && h.hypothesisId !in progressed
      && exists i: nat :: i < |t.links| && IsPendingLink(canonical, t, fs, i, h)
  {
    hide Bindings;
    var b := Bindings(t.links, fs, 0);
    PendingIds(canonical, t.id, t.links, b, progressed, |t.links|);
    if i: nat :| i < |t.links| && IsPendingLink(canonical, t, fs, i, h) {
      assert b[i].None? && h == Described(canonical(t.id, i, t.links[i].cweAny), t.links[i]);
      assert h.hypothesisId == canonical(t.id, i, t.links[i].cweAny);
    }
    if h in PendingOf(canonical, t, fs, progressed) {
      var i :| 0 <= i < |t.links| && b[i].None?
        && canonical(t.id, i, t.links[i].cweAny) !in progressed
        && h == Described(canonical(t.id, i, t.links[i].cweAny), t.links[i]);
      assert IsPendingLink(canonical, t, fs, i, h);
    }
  }

  // ------------------------------------------------------------ hypotheses store

  class HypothesesStore {
    var records: map<string, HypothesisRecord>

    constructor ()
      ensures records == map[]
    {
      records := map[];
    }

    /** The first-seen record of an id is kept. */
    method Record(id: string, chainId: string, linkIndex: nat, requiredCwe: seq<string>)
      modifies this
      ensures records == if id in old(records) then old(records)
        else old(records)[id := HypothesisRecord(id, chainId, linkIndex, requiredCwe, false)]
    {
      if id !in records {
        records := records[id := HypothesisRecord(id, chainId, linkIndex, requiredCwe, false)];
      }
    }

    /** Only a recorded hypothesis can progress, and progress is never undone. */
    method MarkProgress(id: string)
      modifies this
      ensures id !in old(records) ==> records == old(records)
      ensures id in old(records) ==>
        records == old(records)[id := old(records)[id].(progressed := true)]
      ensures Progressed(records)
           == Progressed(old(records)) + if id in old(records) then {id} else {}
    {
      if id in records {
        if !records[id].progressed {
          records := records[id := records[id].(progressed := true)];
        } else {
          assert records[id := records[id].(progressed := true)] == records;
        }
      }
    }
  }

  function Progressed(records: map<string, HypothesisRecord>): set<string> {
    set id | id in records && records[id].progressed
  }

  lemma RecordingKeepsProgress(records: map<string, HypothesisRecord>, r: HypothesisRecord)
    requires !r.progressed && r.hypothesisId !in records
    ensures Progressed(records[r.hypothesisId := r]) == Progressed(records)
  {
  }

  // ------------------------------------------------------------------ task pairing

  /** What the shared task iterator hands out for a chain: the spec, of the first
      template with the chain's id, at each unconfirmed link. */
  lemma {:induction false} TaskCount(c: AttackChain, specs: seq<ChainLinkSpec>, n: nat, m: nat)
    requires n <= m <= |c.links| == |specs|
    ensures |TasksUpTo(c, specs, n)| <= |TasksUpTo(c, specs, m)|
    ensures TasksUpTo(c, specs, m)[..|TasksUpTo(c, specs, n)|] == TasksUpTo(c, specs, n)
    decreases m
  {
    if n < m {
      TaskCount(c, specs, n, m - 1);
    }
  }

  /** What a chain's links give with the specs of a template. */
  function FromChain(canonical: Canonical, c: AttackChain, specs: seq<ChainLinkSpec>,
                     progressed: set<string>, n: nat): seq<PendingHypothesis>
    requires n <= |c.links| == |specs|
  {
    if n == 0 then []
    else
      var before := FromChain(canonical, c, specs, progressed, n - 1);
      var h := canonical(c.templateId, n - 1, specs[n - 1].cweAny);
      if c.links[n - 1].IsConfirmed() || h in progressed then before
      else before + [Described(h, specs[n - 1])]
  }

  /** The chain is as long as the first template of its id, which exists. */
  ghost predicate Paired(ts: seq<AttackChainTemplate>, c: AttackChain) {
    FirstWith(ts, c.templateId).Some?
      && |FirstWith(ts, c.templateId).value.links| == |c.links|
  }

  ghost predicate AllPaired(ts: seq<AttackChainTemplate>, cs: seq<AttackChain>) {
    forall c | c in cs :: Paired(ts, c)
  }

  /** What a sync makes of any chains of known template ids. */
  ghost function FromChains(canonical: Canonical, ts: seq<AttackChainTemplate>, cs: seq<AttackChain>,
                      progressed: set<string>): seq<PendingHypothesis>
    requires AllPaired(ts, cs)
  {
    if cs == [] then []
    else
      var c := cs[|cs| - 1];
      assert c in cs;
      FromChains(canonical, ts, cs[..|cs| - 1], progressed)
        + FromChain(canonical, c, FirstWith(ts, c.templateId).value.links, progressed, |c.links|)
  }

  /** A chain gives, with the specs it is read with, the unbound links of its own
      template. */
  lemma {:induction false} ChainGivesPending(canonical: Canonical, t: AttackChainTemplate,
                                             fs: seq<Finding>, c: AttackChain,
                                             specs: seq<ChainLinkSpec>, progressed: set<string>,
                                             n: nat)
    requires t.Valid() && ChainOf(t, fs, c) && n <= |specs| == |t.links|
    ensures |c.links| == |t.links|
    ensures FromChain(canonical, c, specs, progressed, n)
         == Pending(canonical, t.id, specs, Bindings(t.links, fs, 0), progressed, n)
  {
    hide Fits, Matches, StartFits, Bindings, Described;
    if n > 0 {
      ChainGivesPending(canonical, t, fs, c, specs, progressed, n - 1);
    }
  }

  /** Alignment: with distinct template ids each chain is paired with its own
      template, and the chains of the engine give exactly the expected hypotheses. */
  lemma {:induction false} ChainsGiveExpected(canonical: Canonical, ts: seq<AttackChainTemplate>,
                                              yielding: seq<AttackChainTemplate>, fs: seq<Finding>,
                                              cs: seq<AttackChain>, progressed: set<string>)
    requires DistinctIds(ts) && ChainsOf(yielding, fs, cs) && forall t | t in yielding :: t in ts
    ensures AllPaired(ts, cs)
    ensures FromChains(canonical, ts, cs, progressed) == Expected(canonical, yielding, fs, progressed)
  {
    hide *;
    ChainsOfParts(yielding, fs, cs);
    if cs == [] {
      NothingExpected(canonical, ts, fs, progressed);
    } else {
      var n := |cs| - 1;
      ChainsGiveExpected(canonical, ts, yielding[..n], fs, cs[..n], progressed);
      OwnTemplate(canonical, ts, yielding[n], fs, cs[n], progressed);
      AllPairedMore(ts, cs);
      ExpectedMore(canonical, ts, yielding, fs, cs, progressed);
    }
  }

  lemma NothingExpected(canonical: Canonical, ts: seq<AttackChainTemplate>, fs: seq<Finding>,
                        progressed: set<string>)
    ensures AllPaired(ts, [])
    ensures FromChains(canonical, ts, [], progressed) == Expected(canonical, [], fs, progressed)
  {
  }

  lemma ExpectedMore(canonical: Canonical, ts: seq<AttackChainTemplate>,
                     yielding: seq<AttackChainTemplate>, fs: seq<Finding>, cs: seq<AttackChain>,
                     progressed: set<string>)
    requires |cs| == |yielding| && cs != [] && AllPaired(ts, cs)
    requires
      var n := |cs| - 1;
      && AllPaired(ts, cs[..n])
      && FirstWith(ts, cs[n].templateId) == Some(yielding[n])
      && Paired(ts, cs[n])
      && FromChain(canonical, cs[n], yielding[n].links, progressed, |cs[n].links|)
         == PendingOf(canonical, yielding[n], fs, progressed)
      && FromChains(canonical, ts, cs[..n], progressed)
         == Expected(canonical, yielding[..n], fs, progressed)
    ensures FromChains(canonical, ts, cs, progressed) == Expected(canonical, yielding, fs, progressed)
  {
    hide FromChain, PendingOf, FirstWith, AllPaired;
  }

  lemma ChainsOfParts(yielding: seq<AttackChainTemplate>, fs: seq<Finding>, cs: seq<AttackChain>)
    requires ChainsOf(yielding, fs, cs)
    ensures |cs| == |yielding|
    ensures cs != [] ==>
      var n := |cs| - 1;
      && ChainsOf(yielding[..n], fs, cs[..n]) && yielding[n] in yielding
      && yielding[n].Valid() && ChainOf(yielding[n], fs, cs[n])
  {
  }

  lemma AllPairedMore(ts: seq<AttackChainTemplate>, cs: seq<AttackChain>)
    requires cs != [] && AllPaired(ts, cs[..|cs| - 1]) && Paired(ts, cs[|cs| - 1])
    ensures AllPaired(ts, cs)
  {
    assert cs == cs[..|cs| - 1] + [cs[|cs| - 1]];
  }

  lemma OwnId(t: AttackChainTemplate, fs: seq<Finding>, c: AttackChain)
    requires t.Valid() && ChainOf(t, fs, c)
    ensures c.templateId == t.id && |c.links| == |t.links|
  {
  }

  lemma OwnTemplate(canonical: Canonical, ts: seq<AttackChainTemplate>, t: AttackChainTemplate,
                    fs: seq<Finding>, c: AttackChain, progressed: set<string>)
    requires DistinctIds(ts) && t in ts && t.Valid() && ChainOf(t, fs, c)
    ensures Paired(ts, c) && FirstWith(ts, c.templateId) == Some(t)
    ensures FromChain(canonical, c, t.links, progressed, |c.links|)
         == PendingOf(canonical, t, fs, progressed)
  {
    hide ChainOf, DistinctIds;
    FirstWithOwnId(ts, t);
    OwnId(t, fs, c);
    ChainGivesPending(canonical, t, fs, c, t.links, progressed, |t.links|);
  }

  ghost predicate AllKnown(ts: seq<AttackChainTemplate>, cs: seq<AttackChain>) {
    forall c | c in cs :: FirstWith(ts, c.templateId).Some?
  }

  lemma YieldedAreKnown(ts: seq<AttackChainTemplate>, fs: seq<Finding>, cs: seq<AttackChain>)
    requires ChainsOf(Yielding(ts, fs), fs, cs)
    ensures AllKnown(ts, cs)
    ensures forall t | t in Yielding(ts, fs) :: t in ts
  {
    hide AnyFits, Yielding;
    YieldingMembers(ts, fs);
    forall c | c in cs ensures FirstWith(ts, c.templateId).Some? {
      var i :| 0 <= i < |cs| && cs[i] == c;
      OwnId(Yielding(ts, fs)[i], fs, c);
      assert Yielding(ts, fs)[i] in ts;
    }
  }

  lemma {:induction false} TasksExist(ts: seq<AttackChainTemplate>, cs: seq<AttackChain>)
    requires AllKnown(ts, cs)
    ensures AllTasks(ts, cs).Success? <==> AllPaired(ts, cs)
  {
    if cs != [] {
      var n := |cs| - 1;
      TasksExist(ts, cs[..n]);
      assert cs == cs[..n] + [cs[n]];
      assert AllPaired(ts, cs) <==> AllPaired(ts, cs[..n]) && Paired(ts, cs[n]);
    }
  }

  /** With a duplicated id the second template's chain is read with the first one's
      links: refused if their numbers differ, else asked for the first one's CWEs. */
  lemma DuplicateIdTakesTheFirst(a: AttackChainTemplate, b: AttackChainTemplate,
                                 fs: seq<Finding>, c: AttackChain)
    requires a.Valid() && b.Valid() && a.id == b.id && ChainOf(b, fs, c)
    ensures TasksOf([a, b], c).Failure? <==> |a.links| != |b.links|
    ensures TasksOf([a, b], c).Success? ==>
      TasksOf([a, b], c).value == TasksUpTo(c, a.links, |c.links|)
  {
    OwnId(b, fs, c);
  }

  /** A link that two specs describe alike, or that needs no description: bound, or
      progressed under both. */
  ghost predicate LinkAgrees(canonical: Canonical, id: string, x: ChainLinkSpec, y: ChainLinkSpec,
                             bound: Option<nat>, progressed: set<string>, i: nat)
  {
    var hx, hy := canonical(id, i, x.cweAny), canonical(id, i, y.cweAny);
    || bound.Some?
    || Described(hx, x) == Described(hy, y)
    || (hx in progressed && hy in progressed)
  }

  /** Digests of different links of a template differ. */
  ghost predicate LinksApart(canonical: Canonical, id: string) {
    forall i, j, x, y | canonical(id, i, x) == canonical(id, j, y) :: i == j
  }

  lemma PendingAt(canonical: Canonical, id: string, specs: seq<ChainLinkSpec>,
                  bound: seq<Option<nat>>, progressed: set<string>, n: nat, h: PendingHypothesis)
    requires n <= |bound| == |specs| && LinksApart(canonical, id)
    requires exists x :: h.hypothesisId == canonical(id, n, x)
    ensures h !in Pending(canonical, id, specs, bound, progressed, n)
  {
    PendingIds(canonical, id, specs, bound, progressed, n);
  }

  lemma {:induction false} SamePending(canonical: Canonical, id: string, s: seq<ChainLinkSpec>,
                                       t: seq<ChainLinkSpec>, bound: seq<Option<nat>>,
                                       progressed: set<string>, n: nat)
    requires n <= |bound| == |s| == |t| && LinksApart(canonical, id)
    ensures Pending(canonical, id, s, bound, progressed, n)
         == Pending(canonical, id, t, bound, progressed, n)
       <==> forall i | 0 <= i < n :: LinkAgrees(canonical, id, s[i], t[i], bound[i], progressed, i)
  {
    hide Described, LinksApart;
    if n > 0 {
      var m := n - 1;
      SamePending(canonical, id, s, t, bound, progressed, m);
      var hs, ht := canonical(id, m, s[m].cweAny), canonical(id, m, t[m].cweAny);
      DescribedApart(hs, s[m]);
      DescribedApart(ht, t[m]);
      PendingAt(canonical, id, s, bound, progressed, m, Described(ht, t[m]));
      PendingAt(canonical, id, t, bound, progressed, m, Described(hs, s[m]));
      LastCounts(Pending(canonical, id, s, bound, progressed, m), Described(hs, s[m]),
                 Pending(canonical, id, t, bound, progressed, m), Described(ht, t[m]));
    }
  }

  lemma LastCounts<T>(xs: seq<T>, x: T, ys: seq<T>, y: T)
    requires y !in xs && x !in ys
    ensures xs + [x] == ys + [y] <==> xs == ys && x == y
    ensures xs + [x] != ys && xs != ys + [y]
  {
    if xs + [x] == ys + [y] {
      assert (xs + [x])[..|xs|] == xs && (ys + [y])[..|ys|] == ys;
      assert (xs + [x])[|xs|] == x;
    }
    assert (xs + [x])[|xs|] == x && (ys + [y])[|ys|] == y;
  }

  /** The chain of the second template gives exactly what its own links would if and
      only if every link agrees. */
  lemma DuplicateIdStillRight(canonical: Canonical, a: AttackChainTemplate, b: AttackChainTemplate,
                              fs: seq<Finding>, c: AttackChain, progressed: set<string>)
    requires b.Valid() && a.id == b.id && |a.links| == |b.links| && ChainOf(b, fs, c)
    requires LinksApart(canonical, b.id)
    ensures |c.links| == |b.links|
    ensures FromChain(canonical, c, a.links, progressed, |c.links|)
         == PendingOf(canonical, b, fs, progressed)
       <==> forall i | 0 <= i < |b.links| ::
              LinkAgrees(canonical, b.id, a.links[i], b.links[i], Bindings(b.links, fs, 0)[i],
                         progressed, i)
  {
    hide ChainOf, Bindings, LinkAgrees, LinksApart, Pending, FromChain;
    ChainGivesPending(canonical, b, fs, c, a.links, progressed, |b.links|);
    SamePending(canonical, b.id, a.links, b.links, Bindings(b.links, fs, 0), progressed, |b.links|);
  }

  lemma DescribedApart(id: string, spec: ChainLinkSpec)
    ensures Described(id, spec).hypothesisId == id
  {
  }

  lemma {:induction false} TasksPrefix(ts: seq<AttackChainTemplate>, cs: seq<AttackChain>, n: nat)
    requires n <= |cs| && AllTasks(ts, cs).Success?
    ensures AllTasks(ts, cs[..n]).Success? && AllTasks(ts, cs[..n]).value <= AllTasks(ts, cs).value
    decreases |cs|
  {
    if n == |cs| {
      assert cs[..n] == cs;
    } else {
      assert cs[..|cs| - 1][..n] == cs[..n];
      TasksPrefix(ts, cs[..|cs| - 1], n);
    }
  }

  /** The tasks of a chain sit in the list from `next` on. */
  ghost predicate TasksAt(tasks: seq<Task>, next: nat, c: AttackChain, specs: seq<ChainLinkSpec>)
    requires |specs| == |c.links|
  {
    TasksUpTo(c, specs, |specs|) <= tasks[if next <= |tasks| then next else |tasks|..]
  }

  lemma ChainTasks(ts: seq<AttackChainTemplate>, cs: seq<AttackChain>, n: nat)
    requires n < |cs| && AllTasks(ts, cs).Success? && AllPaired(ts, cs)
    ensures AllTasks(ts, cs[..n]).Success? && AllTasks(ts, cs[..n + 1]).Success?
    ensures Paired(ts, cs[n])
    ensures
      var specs := FirstWith(ts, cs[n].templateId).value.links;
      var next := |AllTasks(ts, cs[..n]).value|;
      && |AllTasks(ts, cs[..n + 1]).value| == next + |TasksUpTo(cs[n], specs, |specs|)|
      && TasksAt(AllTasks(ts, cs).value, next, cs[n], specs)
  {
    TasksPrefix(ts, cs, n);
    TasksPrefix(ts, cs, n + 1);
    assert cs[..n + 1][..n] == cs[..n];
    assert cs[n] in cs;
  }

  /** The next task, when link n is unconfirmed, is the one made of its spec. */
  lemma NextTask(tasks: seq<Task>, next: nat, c: AttackChain, specs: seq<ChainLinkSpec>, n: nat)
    requires n < |c.links| == |specs| && !c.links[n].IsConfirmed()
    requires TasksAt(tasks, next, c, specs)
    ensures
      var k := next + |TasksUpTo(c, specs, n)|;
      && k < |tasks| && tasks[k].requiredCwe == specs[n].cweAny
      && tasks[k].assetHint == specs[n].assetPattern
      && |TasksUpTo(c, specs, n + 1)| == |TasksUpTo(c, specs, n)| + 1
  {
    TaskCount(c, specs, n + 1, |specs|);
    var k := |TasksUpTo(c, specs, n)|;
    assert TasksUpTo(c, specs, n + 1)[k].requiredCwe == specs[n].cweAny;
    assert TasksUpTo(c, specs, |specs|)[k] == TasksUpTo(c, specs, n + 1)[k];
    var rest := tasks[if next <= |tasks| then next else |tasks|..];
    assert rest[k] == TasksUpTo(c, specs, |specs|)[k];
  }

  // --------------------------------------------------------------------- bridge

  /** Recording what was found keeps what is known and makes it known. */
  ghost predicate Kept(before: map<string, HypothesisRecord>, after: map<string, HypothesisRecord>,
                       results: seq<PendingHypothesis>)
  {
    && Progressed(after) == Progressed(before)
    && (forall id | id in before :: id in after && after[id] == before[id])
    && (forall h | h in results :: h.hypothesisId in after)
  }

  lemma KeptMore(before: map<string, HypothesisRecord>, after: map<string, HypothesisRecord>,
                 results: seq<PendingHypothesis>, r: HypothesisRecord, h: PendingHypothesis)
    requires Kept(before, after, results)
    requires !r.progressed && r.hypothesisId == h.hypothesisId
    ensures Kept(before, if r.hypothesisId in after then after else after[r.hypothesisId := r],
                 results + [h])
  {
    if r.hypothesisId !in after {
      RecordingKeepsProgress(after, r);
    }
  }

  lemma KeptTwice(a: map<string, HypothesisRecord>, b: map<string, HypothesisRecord>,
                  c: map<string, HypothesisRecord>, first: seq<PendingHypothesis>,
                  second: seq<PendingHypothesis>)
    requires Kept(a, b, first) && Kept(b, c, second)
    ensures Kept(a, c, first + second)
  {
  }

  lemma KeptNothing(records: map<string, HypothesisRecord>)
    ensures Kept(records, records, [])
  {
  }

  function ConfirmedIds(cs: seq<AttackChain>): seq<string> {
    if cs == [] then []
    else
      var last := cs[|cs| - 1];
      ConfirmedIds(cs[..|cs| - 1]) + if last.status == Confirmed then [last.templateId] else []
  }

  /** Texts by code points, a prefix first. */
  predicate AtMost(a: string, b: string) {
    a == "" || (b != "" && (a[0] < b[0] || (a[0] == b[0] && AtMost(a[1..], b[1..]))))
  }

  ghost predicate Ordered(ids: seq<string>) {
    forall i, j | 0 <= i < j < |ids| :: AtMost(ids[i], ids[j])
  }

  /** The built-in sort. */
  ghost predicate Sorts(sort: seq<string> -> seq<string>) {
    forall s :: Ordered(sort(s)) && multiset(sort(s)) == multiset(s)
  }

  lemma {:induction false} ConfirmedMembers(cs: seq<AttackChain>, id: string)
    ensures id in ConfirmedIds(cs)
       <==> exists c :: c in cs && c.status == Confirmed && c.templateId == id
  {
    if cs != [] {
      ConfirmedMembers(cs[..|cs| - 1], id);
      assert cs == cs[..|cs| - 1] + [cs[|cs| - 1]];
    }
  }

  /** What is concluded after a sync are the templates whose links can all be laid
      over the validated findings. */
  lemma ConcludedAreMatched(ts: seq<AttackChainTemplate>, fs: seq<Finding>, cs: seq<AttackChain>,
                            id: string)
    requires forall t | t in ts :: t.Valid()
    requires ChainsOf(Yielding(ts, fs), fs, cs)
    ensures id in ConfirmedIds(cs)
       <==> exists t, at :: t in ts && t.id == id && LaidOver(t.links, fs, at)
  {
    hide Matches, LaidOver, Fits, Yielding, AnyFits, BoundAs, Bindings;
    ConfirmedMembers(cs, id);
    forall t | t in ts ensures Matches(t.links, fs) <==> exists at :: LaidOver(t.links, fs, at) {
      MatchIs(t.links, fs);
    }
    YieldingMembers(ts, fs);
    var yielding := Yielding(ts, fs);
    if c :| c in cs && c.status == Confirmed && c.templateId == id {
      var i :| 0 <= i < |cs| && cs[i] == c;
      assert ChainOf(yielding[i], fs, cs[i]) && yielding[i] in yielding;
    }
    if t :| t in ts && t.id == id && Matches(t.links, fs) {
      MatchYields(t, fs);
      var i :| 0 <= i < |yielding| && yielding[i] == t;
      assert ChainOf(yielding[i], fs, cs[i]) && cs[i] in cs;
    }
  }

  lemma MatchYields(t: AttackChainTemplate, fs: seq<Finding>)
    requires t.Valid() && Matches(t.links, fs)
    ensures AnyFits(t, fs)
  {
    hide Fits;
    var at :| Embeds(t.links, fs, 0, at);
    assert t.links[0] in t.links && fs[at[0]] in fs;
  }

  class ChainBridge {
    const engine: ChainEngine
    const store: HypothesesStore
    const canonical: Canonical
    const sort: seq<string> -> seq<string>
    var lastChains: seq<AttackChain>

    constructor (engine: ChainEngine, store: HypothesesStore, canonical: Canonical,
                 sort: seq<string> -> seq<string>)
      ensures this.engine == engine && this.store == store && this.canonical == canonical
      ensures this.sort == sort && lastChains == []
    {
      this.engine, this.store, this.canonical, this.sort := engine, store, canonical, sort;
      lastChains := [];
    }

    /** Turn the findings of the moment into pending hypotheses. With distinct
        template ids the result is the expected one, in order, however often it is
        called; no call changes what has progressed. The call fails only when two
        templates of one id have different lengths. */
    method Sync(fs: seq<Finding>) returns (r: Result<seq<PendingHypothesis>, ChainError>)
      requires engine.Valid() && forall f | f in fs :: f.Valid()
      modifies this, store, engine.ids
      ensures ChainsOf(Yielding(engine.templates, Validated(fs)), Validated(fs), lastChains)
      ensures Kept(old(store.records), store.records, if r.Success? then r.value else [])
      ensures r.Success? <==> AllPaired(engine.templates, lastChains)
      ensures r.Success? ==>
        r.value == FromChains(canonical, engine.templates, lastChains,
                              Progressed(old(store.records)))
      ensures DistinctIds(engine.templates) ==>
        r == Success(Expected(canonical, Yielding(engine.templates, Validated(fs)), Validated(fs),
                              Progressed(old(store.records))))
    {
      hide *;
      ghost var progressed, records := Progressed(store.records), store.records;
      ghost var ts, yielding := engine.templates, Yielding(engine.templates, Validated(fs));
      var chains := engine.HypothesizeFromFindings(fs);
      lastChains := chains;
      var tasks := engine.PendingVerificationTasks(chains);
      YieldedAreKnown(ts, Validated(fs), chains);
      TasksExist(ts, chains);
      KeptNothing(records);
      if DistinctIds(ts) {
        ChainsGiveExpected(canonical, ts, yielding, Validated(fs), chains, progressed);
      }
      if tasks.Failure? {
        return Failure(tasks.error);
      }
      var results: seq<PendingHypothesis>, next: nat := [], 0;
      NoChains(ts, chains, progressed);
      for n := 0 to |chains|
        invariant AllTasks(ts, chains[..n]).Success?
        invariant next == |AllTasks(ts, chains[..n]).value|
        invariant AllPaired(ts, chains[..n])
        invariant results == FromChains(canonical, ts, chains[..n], progressed)
        invariant Kept(records, store.records, results)
        invariant lastChains == chains
      {
        ChainTasks(ts, chains, n);
        PairedParts(ts, chains[n]);
        ghost var specs := FirstWith(ts, chains[n].templateId).value.links;
        ghost var before := store.records;
        KeptProgress(records, before, results);
        var more: seq<PendingHypothesis>;
        more, next := SyncChain(chains[n], tasks.value, next, specs, progressed);
        KeptTwice(records, before, store.records, results, more);
        FromChainsMore(ts, chains, progressed, n);
        results := results + more;
      }
      assert chains[..|chains|] == chains;
      return Success(results);
    }

    lemma NoChains(ts: seq<AttackChainTemplate>, cs: seq<AttackChain>, progressed: set<string>)
      ensures AllTasks(ts, cs[..0]) == Success([]) && AllPaired(ts, cs[..0])
      ensures FromChains(canonical, ts, cs[..0], progressed) == []
    {
    }

    lemma PairedParts(ts: seq<AttackChainTemplate>, c: AttackChain)
      requires Paired(ts, c)
      ensures FirstWith(ts, c.templateId).Some?
      ensures |FirstWith(ts, c.templateId).value.links| == |c.links|
    {
    }

    lemma KeptProgress(a: map<string, HypothesisRecord>, b: map<string, HypothesisRecord>,
                       results: seq<PendingHypothesis>)
      requires Kept(a, b, results)
      ensures Progressed(b) == Progressed(a)
    {
    }

    lemma FromChainsMore(ts: seq<AttackChainTemplate>, cs: seq<AttackChain>,
                         progressed: set<string>, n: nat)
      requires n < |cs| && AllPaired(ts, cs[..n]) && Paired(ts, cs[n])
      ensures AllPaired(ts, cs[..n + 1])
      ensures
        var specs := FirstWith(ts, cs[n].templateId).value.links;
        FromChains(canonical, ts, cs[..n + 1], progressed)
          == FromChains(canonical, ts, cs[..n], progressed)
             + FromChain(canonical, cs[n], specs, progressed, |cs[n].links|)
    {
      hide Paired;
      assert cs[..n + 1][..n] == cs[..n];
      assert cs[..n + 1] == cs[..n] + [cs[n]];
      PairedParts(ts, cs[n]);
    }

    /** The links of one chain, taking tasks off the shared list. */
    method SyncChain(c: AttackChain, tasks: seq<Task>, from: nat,
                     ghost specs: seq<ChainLinkSpec>, ghost progressed: set<string>)
      returns (results: seq<PendingHypothesis>, next: nat)
      requires |specs| == |c.links| && TasksAt(tasks, from, c, specs)
      requires progressed == Progressed(store.records)
      modifies store
      ensures next == from + |TasksUpTo(c, specs, |specs|)|
      ensures results == FromChain(canonical, c, specs, progressed, |c.links|)
      ensures Kept(old(store.records), store.records, results)
    {
      hide TasksAt, Kept, Described;
      results, next := [], from;
      KeptNothing(store.records);
      for n := 0 to |c.links|
        invariant next == from + |TasksUpTo(c, specs, n)|
        invariant results == FromChain(canonical, c, specs, progressed, n)
        invariant Kept(old(store.records), store.records, results)
      {
        if c.links[n].IsConfirmed() {
          continue;
        }
        NextTask(tasks, from, c, specs, n);
        KeptProgress(old(store.records), store.records, results);
        var task := tasks[next];
        next := next + 1;
        var id := canonical(c.templateId, n, task.requiredCwe);
        if id in store.records && store.records[id].progressed {
          assert id in Progressed(store.records);
          continue;
        }
        assert id !in Progressed(store.records);
        var h := ToHypothesis(id, task);
        DescribedApart(id, specs[n]);
        KeptMore(old(store.records), store.records, results,
                 HypothesisRecord(id, c.id, n, task.requiredCwe, false), h);
        store.Record(id, c.id, n, task.requiredCwe);
        results := results + [h];
      }
    }

    method ToHypothesis(id: string, task: Task) returns (h: PendingHypothesis)
      ensures h == Described(id, ChainLinkSpec(task.requiredCwe, task.assetHint))
    {
      var family := if task.requiredCwe != [] then Joined(task.requiredCwe) else "evidence";
      var hint := if task.assetHint != "" then task.assetHint else "the target asset";
      h := PendingHypothesis(id, "confirm '" + family + "' evidence on " + hint, task.requiredCwe);
    }

    /** The template ids of the chains the last sync found confirmed, sorted, each as
        often as it was found. */
    method ConcludedChains() returns (ids: seq<string>)
      requires Sorts(sort)
      ensures Ordered(ids) && multiset(ids) == multiset(ConfirmedIds(lastChains))
    {
      ids := [];
      for n := 0 to |lastChains|
        invariant ids == ConfirmedIds(lastChains[..n])
      {
        assert lastChains[..n + 1][..n] == lastChains[..n];
        if lastChains[n].status == Confirmed {
          ids := ids + [lastChains[n].templateId];
        }
      }
      assert lastChains[..|lastChains|] == lastChains;
      ids := sort(ids);
    }

    method MarkPendingProgress(id: string)
      modifies store
      ensures Progressed(store.records)
           == Progressed(old(store.records)) + if id in old(store.records) then {id} else {}
      ensures store.records.Keys == old(store.records).Keys
    {
      store.MarkProgress(id);
    }
  }
}
