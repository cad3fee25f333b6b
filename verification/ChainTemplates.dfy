/** Attack-chain templates and their greedy, order-preserving matcher. The matcher
    is complete: it says yes exactly when the links can be laid over the findings
    in strictly increasing positions at all. */
module ChainTemplates {
  import opened Wrappers

  /** `assetPattern` is a substring of the finding's asset; "" fits any. */
  datatype ChainLinkSpec = ChainLinkSpec(cweAny: seq<string>, assetPattern: string)

  datatype AttackChainTemplate = AttackChainTemplate(
    id: string, name: string, links: seq<ChainLinkSpec>, tactic: string)
  {
    predicate Valid() {
      id != "" && |links| >= 2
    }
  }

  datatype Severity = Info | Low | Medium | High | Critical {
    function Rank(): nat {
      match this
      case Info => 0
      case Low => 1
      case Medium => 2
      case High => 3
      case Critical => 4
    }
  }

  datatype Finding = Finding(
    id: string, asset: string, cwe: seq<string>, severity: Severity, validated: bool)
  {
    predicate Valid() {
      id != "" && asset != ""
    }
  }

  predicate Overlap(a: seq<string>, b: seq<string>) {
    exists x | x in a :: x in b
  }

  predicate Contains(text: string, part: string) {
    part <= text || (text != "" && Contains(text[1..], part))
  }

  predicate Fits(link: ChainLinkSpec, f: Finding) {
    && Overlap(link.cweAny, f.cwe)
    && (link.assetPattern == "" || Contains(f.asset, link.assetPattern))
  }

  predicate OccursAt(text: string, part: string, i: nat) {
    i + |part| <= |text| && text[i..i + |part|] == part
  }

  /** Containment is being a substring, at the front, at the end or in between. */
  lemma {:induction false} ContainsIsSubstring(text: string, part: string)
    ensures Contains(text, part) <==> exists i: nat :: OccursAt(text, part, i)
  {
    if part <= text {
      assert text[0..0 + |part|] == text[..|part|] == part;
      assert OccursAt(text, part, 0);
    } else if text != "" {
      ContainsIsSubstring(text[1..], part);
      if i: nat :| OccursAt(text[1..], part, i) {
        OccursLater(text, part, i);
      }
      if i: nat :| OccursAt(text, part, i) {
        assert i > 0;
        OccursLater(text, part, i - 1);
      }
    }
  }

  lemma OccursLater(text: string, part: string, i: nat)
    requires text != ""
    ensures OccursAt(text[1..], part, i) <==> OccursAt(text, part, i + 1)
  {
    if i + 1 + |part| <= |text| {
      var a, b := text[1..][i..i + |part|], text[i + 1..i + 1 + |part|];
      assert |a| == |b| && forall k | 0 <= k < |a| :: a[k] == text[i + 1 + k] == b[k];
      assert a == b;
    }
  }

  /** A finding fits a link exactly if they share a CWE and the pattern occurs in the
      asset. */
  ghost predicate SharesAndOccurs(link: ChainLinkSpec, f: Finding) {
    && (exists x :: x in link.cweAny && x in f.cwe)
    && (exists i: nat :: OccursAt(f.asset, link.assetPattern, i))
  }

  lemma FitsIs(link: ChainLinkSpec, f: Finding)
    ensures Fits(link, f) <==> SharesAndOccurs(link, f)
  {
    ContainsIsSubstring(f.asset, link.assetPattern);
    if link.assetPattern == "" {
      assert OccursAt(f.asset, "", 0);
    }
  }

  // ------------------------------------------------------------------ embeddings

  /** `at` lays the links over findings at strictly increasing positions >= from. */
  ghost predicate Embeds(links: seq<ChainLinkSpec>, fs: seq<Finding>, from: nat, at: seq<nat>) {
    && |at| == |links|
    && (forall i | 0 <= i < |at| :: from <= at[i] < |fs| && Fits(links[i], fs[at[i]]))
    && (forall i, j | 0 <= i < j < |at| :: at[i] < at[j])
  }

  ghost predicate Matches(links: seq<ChainLinkSpec>, fs: seq<Finding>) {
    exists at :: Embeds(links, fs, 0, at)
  }

  /** A choice of findings for the links, in the order of the findings: each shares a
      CWE with its link and has the link's pattern in its asset. */
  ghost predicate LaidOver(links: seq<ChainLinkSpec>, fs: seq<Finding>, at: seq<nat>) {
    && |at| == |links|
    && (forall i | 0 <= i < |at| :: at[i] < |fs| && SharesAndOccurs(links[i], fs[at[i]]))
    && (forall i, j | 0 <= i < j < |at| :: at[i] < at[j])
  }

  /** What a match is, down to the characters. */
  lemma MatchIs(links: seq<ChainLinkSpec>, fs: seq<Finding>)
    ensures Matches(links, fs) <==> exists at :: LaidOver(links, fs, at)
  {
    hide Fits, SharesAndOccurs;
    forall at ensures Embeds(links, fs, 0, at) <==> LaidOver(links, fs, at) {
      forall i | 0 <= i < |at| && |at| == |links| && at[i] < |fs|
        ensures Fits(links[i], fs[at[i]]) <==> SharesAndOccurs(links[i], fs[at[i]])
      {
        FitsIs(links[i], fs[at[i]]);
      }
    }
  }

  // ------------------------------------------------------------ greedy binding

  function FirstFit(link: ChainLinkSpec, fs: seq<Finding>, from: nat): (r: Option<nat>)
    ensures r.Some? ==> from <= r.value < |fs| && Fits(link, fs[r.value])
    ensures forall i | from <= i < (if r.Some? then r.value else |fs|) :: !Fits(link, fs[i])
    decreases |fs| - from
  {
    if from >= |fs| then None
    else if Fits(link, fs[from]) then Some(from)
    else FirstFit(link, fs, from + 1)
  }

  /** Bind each link to the first fitting finding after the last bound one; a link
      that none fits stays unbound and the next is tried from the same place. */
  function Bindings(links: seq<ChainLinkSpec>, fs: seq<Finding>, from: nat): (r: seq<Option<nat>>)
    ensures |r| == |links|
  {
    if links == [] then []
    else
      var first := FirstFit(links[0], fs, from);
      [first] + Bindings(links[1..], fs, if first.Some? then first.value + 1 else from)
  }

  ghost predicate AllBound(bound: seq<Option<nat>>) {
    forall i | 0 <= i < |bound| :: bound[i].Some?
  }

  /** The bound findings fit their links and come in strictly increasing order. */
  lemma {:induction false} BindingsAreSound(links: seq<ChainLinkSpec>, fs: seq<Finding>, from: nat)
    ensures
      var b := Bindings(links, fs, from);
      && (forall i | 0 <= i < |b| && b[i].Some? ::
            from <= b[i].value < |fs| && Fits(links[i], fs[b[i].value]))
      && (forall i, j | 0 <= i < j < |b| && b[i].Some? && b[j].Some? :: b[i].value < b[j].value)
  {
    hide Fits, FirstFit;
    if links != [] {
      var first := FirstFit(links[0], fs, from);
      BindingsAreSound(links[1..], fs, if first.Some? then first.value + 1 else from);
    }
  }

  /** Finding j comes after all findings bound to the links before the i-th. */
  ghost predicate AfterBound(bound: seq<Option<nat>>, i: nat, j: nat) {
    forall m | 0 <= m < i && m < |bound| && bound[m].Some? :: bound[m].value < j
  }

  /** Each link is bound to the earliest finding that fits it after those before it are
      bound, and is left unbound only if there is none. */
  lemma {:induction false} BoundToTheEarliest(links: seq<ChainLinkSpec>, fs: seq<Finding>, from: nat,
                                              i: nat, j: nat)
    requires i < |links| && from <= j < |fs|
    ensures
      var b := Bindings(links, fs, from);
      AfterBound(b, i, j) && (b[i].None? || j < b[i].value) ==> !SharesAndOccurs(links[i], fs[j])
  {
    hide SharesAndOccurs, Fits;
    var first := FirstFit(links[0], fs, from);
    var next := if first.Some? then first.value + 1 else from;
    var b, rest := Bindings(links, fs, from), Bindings(links[1..], fs, next);
    FitsIs(links[i], fs[j]);
    if i > 0 && AfterBound(b, i, j) {
      assert b[0] == first && first.Some? ==> first.value < j;
      forall m | 0 <= m < i - 1 && rest[m].Some? ensures rest[m].value < j {
        assert b[m + 1] == rest[m];
      }
      BoundToTheEarliest(links[1..], fs, next, i - 1, j);
    }
  }

  ghost predicate SomeBound(bound: seq<Option<nat>>) {
    exists i | 0 <= i < |bound| :: bound[i].Some?
  }

  ghost predicate SomeFits(links: seq<ChainLinkSpec>, fs: seq<Finding>, from: nat) {
    exists i, j | 0 <= i < |links| && from <= j < |fs| :: Fits(links[i], fs[j])
  }

  lemma SomeBoundMore(bound: seq<Option<nat>>, b: Option<nat>)
    ensures SomeBound([b] + bound) <==> b.Some? || SomeBound(bound)
    ensures SomeBound(bound + [b]) <==> b.Some? || SomeBound(bound)
  {
    if i :| 0 <= i < |bound| && bound[i].Some? {
      assert ([b] + bound)[i + 1].Some? && (bound + [b])[i].Some?;
    }
    assert ([b] + bound)[0] == b == (bound + [b])[|bound|];
  }

  lemma SomeFitsMore(links: seq<ChainLinkSpec>, fs: seq<Finding>, from: nat)
    requires links != []
    ensures SomeFits(links, fs, from)
       <==> FirstFit(links[0], fs, from).Some? || SomeFits(links[1..], fs, from)
  {
    hide Fits;
    var first := FirstFit(links[0], fs, from);
    if first.Some? {
      assert Fits(links[0], fs[first.value]);
    }
    if i, j :| 0 <= i < |links[1..]| && from <= j < |fs| && Fits(links[1..][i], fs[j]) {
      assert Fits(links[i + 1], fs[j]);
    }
    if i, j :| 0 <= i < |links| && from <= j < |fs| && Fits(links[i], fs[j]) && i > 0 {
      assert Fits(links[1..][i - 1], fs[j]);
    }
  }

  /** Something is bound exactly when some link fits some finding from there on. */
  lemma {:induction false} SomethingBound(links: seq<ChainLinkSpec>, fs: seq<Finding>, from: nat)
    ensures SomeBound(Bindings(links, fs, from)) <==> SomeFits(links, fs, from)
  {
    hide SomeFits, SomeBound;
    if links == [] {
      assert !SomeBound([]) && !SomeFits([], fs, from) by {
        NoneOfNothing(fs, from);
      }
    } else {
      var first := FirstFit(links[0], fs, from);
      SomeBoundMore(Bindings(links[1..], fs, if first.Some? then first.value + 1 else from), first);
      SomeFitsMore(links, fs, from);
      if first.None? {
        SomethingBound(links[1..], fs, from);
      }
    }
  }

  lemma NoneOfNothing(fs: seq<Finding>, from: nat)
    ensures !SomeBound([]) && !SomeFits([], fs, from)
  {
  }

  /** An embedding of all links leaves an embedding of the others after the place
      where greed puts the first. */
  lemma EmbeddingTail(links: seq<ChainLinkSpec>, fs: seq<Finding>, from: nat, at: seq<nat>)
    requires links != [] && Embeds(links, fs, from, at)
    ensures FirstFit(links[0], fs, from).Some?
    ensures Embeds(links[1..], fs, FirstFit(links[0], fs, from).value + 1, at[1..])
  {
    assert Fits(links[0], fs[at[0]]);
  }

  lemma EmbeddingCons(links: seq<ChainLinkSpec>, fs: seq<Finding>, from: nat, first: nat, at: seq<nat>)
    requires links != [] && from <= first < |fs| && Fits(links[0], fs[first])
    requires Embeds(links[1..], fs, first + 1, at)
    ensures Embeds(links, fs, from, [first] + at)
  {
    forall i | 0 < i < |links| ensures Fits(links[i], fs[([first] + at)[i]]) {
      assert links[i] == links[1..][i - 1];
    }
  }

  /** Greed is optimal: it binds every link if and only if some embedding exists. */
  lemma {:induction false} GreedyIsComplete(links: seq<ChainLinkSpec>, fs: seq<Finding>, from: nat)
    ensures AllBound(Bindings(links, fs, from)) <==> exists at :: Embeds(links, fs, from, at)
  {
    hide Fits, AllBound, FirstFit, Embeds;
    if links == [] {
      BoundNothing(links, fs, from);
    } else {
      var first := FirstFit(links[0], fs, from);
      var next := if first.Some? then first.value + 1 else from;
      BoundCons(first, Bindings(links[1..], fs, next));
      if first.Some? {
        FirstFits(links[0], fs, from);
        GreedyIsComplete(links[1..], fs, next);
        if at :| Embeds(links[1..], fs, next, at) {
          EmbeddingCons(links, fs, from, first.value, at);
        }
      }
      if at :| Embeds(links, fs, from, at) {
        EmbeddingTail(links, fs, from, at);
      }
    }
  }

  lemma FirstFits(link: ChainLinkSpec, fs: seq<Finding>, from: nat)
    requires FirstFit(link, fs, from).Some?
    ensures from <= FirstFit(link, fs, from).value < |fs|
    ensures Fits(link, fs[FirstFit(link, fs, from).value])
  {
  }

  lemma BoundNothing(links: seq<ChainLinkSpec>, fs: seq<Finding>, from: nat)
    requires links == []
    ensures AllBound(Bindings(links, fs, from)) && Embeds(links, fs, from, [])
  {
  }

  lemma BoundCons(first: Option<nat>, rest: seq<Option<nat>>)
    ensures AllBound([first] + rest) <==> first.Some? && AllBound(rest)
  {
    if AllBound([first] + rest) {
      assert ([first] + rest)[0].Some?;
      forall i | 0 <= i < |rest| ensures rest[i].Some? {
        assert ([first] + rest)[i + 1].Some?;
      }
    }
  }

  lemma BindingsStep(links: seq<ChainLinkSpec>, fs: seq<Finding>, k: nat, from: nat)
    requires k < |links|
    ensures
      var first := FirstFit(links[k], fs, from);
      Bindings(links[k..], fs, from)
        == [first] + Bindings(links[k + 1..], fs, if first.Some? then first.value + 1 else from)
  {
    assert links[k..][0] == links[k] && links[k..][1..] == links[k + 1..];
  }

  /** The scan for the first finding from `from` on that fits. */
  method FindFit(link: ChainLinkSpec, fs: seq<Finding>, from: nat) returns (r: Option<nat>)
    requires from <= |fs|
    ensures r == FirstFit(link, fs, from)
    ensures r.Some? ==> r.value < |fs|
  {
    var index := from;
    while index < |fs|
      invariant from <= index <= |fs|
      invariant FirstFit(link, fs, from) == FirstFit(link, fs, index)
    {
      if Fits(link, fs[index]) {
        return Some(index);
      }
      index := index + 1;
    }
    return None;
  }

  lemma EndBound(links: seq<ChainLinkSpec>, fs: seq<Finding>, from: nat)
    ensures links[0..] == links && AllBound(Bindings(links[|links|..], fs, from))
  {
  }

  method MatchTemplate(t: AttackChainTemplate, fs: seq<Finding>) returns (ok: bool)
    ensures ok <==> Matches(t.links, fs)
    ensures ok <==> exists at :: LaidOver(t.links, fs, at)
  {
    hide Fits, Embeds, LaidOver, Bindings, AllBound, FirstFit;
    MatchIs(t.links, fs);
    GreedyIsComplete(t.links, fs, 0);
    var position: nat := 0;
    EndBound(t.links, fs, position);
    for k := 0 to |t.links|
      invariant position <= |fs|
      invariant AllBound(Bindings(t.links, fs, 0)) <==> AllBound(Bindings(t.links[k..], fs, position))
    {
      BindingsStep(t.links, fs, k, position);
      var found := FindFit(t.links[k], fs, position);
      var next: nat := if found.Some? then found.value + 1 else position;
      BoundCons(found, Bindings(t.links[k + 1..], fs, next));
      if found.None? {
        return false;
      }
      position := next;
    }
    EndBound(t.links, fs, position);
    return true;
  }
}
