/**
 * The page assembler behind the "generate" button, and the small list and
 * string helpers of the application: enabling a category, the division
 * check and the name of the downloaded file.
 */
module App {
  import opened Types
  import opened Decimal
  import opened MathUtils
  import opened Catalog
  import opened Pages
  import opened Seqs

  /** Generator calls allowed per slot before a duplicate is accepted. */
  const MAX_ATTEMPTS: nat := 30

  const NO_SUBTYPE_ALERT: string := "Bitte w\U{E4}hlen Sie mindestens einen Aufgabentyp aus."

  // ---------------------------------------------------------------------------
  // Active categories
  // ---------------------------------------------------------------------------

  /** The catalog entries whose id is enabled, in catalog order. */
  function ActiveSubtypes(catalog: seq<ProblemSubtype>, enabled: seq<string>): (active: seq<ProblemSubtype>)
    ensures forall s :: s in active <==> s in catalog && s.id in enabled
    ensures |active| <= |catalog|
  {
    if catalog == [] then []
    else (if catalog[0].id in enabled then [catalog[0]] else []) + ActiveSubtypes(catalog[1..], enabled)
  }

  /**
   * Filtering keeps the catalog's order: filtering a catalog split in two is
   * filtering each part, one after the other.
   */
  lemma {:induction false} ActiveSubtypesConcat(a: seq<ProblemSubtype>, b: seq<ProblemSubtype>, enabled: seq<string>)
    ensures ActiveSubtypes(a + b, enabled) == ActiveSubtypes(a, enabled) + ActiveSubtypes(b, enabled)
  {
    if a == [] {
      assert a + b == b;
    } else {
      var head := if a[0].id in enabled then [a[0]] else [];
      var rest, tail := ActiveSubtypes(a[1..], enabled), ActiveSubtypes(b, enabled);
      TailOfConcat(a, b);
      assert ActiveSubtypes(a + b, enabled) == head + ActiveSubtypes(a[1..] + b, enabled);
      ActiveSubtypesConcat(a[1..], b, enabled);
      ConcatAssoc(head, rest, tail);
    }
  }

  /** The options that `generate` forwards to the generator. */
  function OptionsOf(settings: WorksheetSettings): (options: GeneratorOptions)
    ensures options.allowNegatives == settings.allowNegatives
    ensures options.wholeNumberDivision == settings.wholeNumberDivisionOnly
    ensures options.longMulti.m1 == settings.longMultiplication.multiplicandDigits
    ensures options.longMulti.m2 == settings.longMultiplication.multiplierDigits
  {
    GeneratorOptions(
      settings.allowNegatives,
      settings.wholeNumberDivisionOnly,
      LongMulti(settings.longMultiplication.multiplicandDigits, settings.longMultiplication.multiplierDigits))
  }

  predicate AllFeasible(active: seq<ProblemSubtype>, options: GeneratorOptions) {
    forall s :: s in active ==> Feasible(s, options)
  }

  /** With only catalog ids enabled, the active categories are never empty and always feasible. */
  lemma ActiveSubtypesUsable(settings: WorksheetSettings)
    requires forall id :: id in settings.enabledSubtypes ==> id in CatalogIds()
    requires "mul_long" in settings.enabledSubtypes ==>
      settings.longMultiplication.multiplicandDigits >= 1 && settings.longMultiplication.multiplierDigits >= 1
    ensures var active := ActiveSubtypes(SUBTYPES, settings.enabledSubtypes);
      && (settings.enabledSubtypes != [] ==> |active| > 0)
      && AllFeasible(active, OptionsOf(settings))
  {
    var active := ActiveSubtypes(SUBTYPES, settings.enabledSubtypes);
    if settings.enabledSubtypes != [] {
      var id := settings.enabledSubtypes[0];
      assert id in CatalogIds();
      var s :| s in SUBTYPES && s.id == id;
      assert s in active;
    }
    CatalogFeasible(OptionsOf(settings));
  }

  // ---------------------------------------------------------------------------
  // Signatures for deduplication
  // ---------------------------------------------------------------------------

  /** The dedup key: `${num1}${operation}${num2}`. */
  function Signature(p: MathProblem): (s: string)
    ensures |IntToString(p.num1)| + |OperationName(p.operation)| + |IntToString(p.num2)| == |s|
    ensures s[..|IntToString(p.num1)|] == IntToString(p.num1)
    ensures s[|s| - |IntToString(p.num2)|..] == IntToString(p.num2)
    ensures s[|IntToString(p.num1)|..|s| - |IntToString(p.num2)|] == OperationName(p.operation)
  {
    IntToString(p.num1) + OperationName(p.operation) + IntToString(p.num2)
  }

  /** The signatures of the problems `ps`, added one by one as the run's Set receives them. */
  function SignaturesOf(ps: seq<MathProblem>): (seen: set<string>)
    ensures |seen| <= |ps|
  {
    if ps == [] then {} else SignaturesOf(ps[..|ps| - 1]) + {Signature(ps[|ps| - 1])}
  }

  /**
   * Two problems have the same signature exactly when they have the same
   * (num1, operation, num2): operation names are upper-case letters only,
   * and the decimal text of a number never contains a letter.
   */
  lemma SignatureInjective(p: MathProblem, q: MathProblem)
    ensures Signature(p) == Signature(q) <==> TripleOf(p) == TripleOf(q)
  {
    if Signature(p) == Signature(q) {
      var a1, n1, b1 := IntToString(p.num1), OperationName(p.operation), IntToString(p.num2);
      var a2, n2, b2 := IntToString(q.num1), OperationName(q.operation), IntToString(q.num2);
      SignatureParts(a1, n1, b1, a2, n2, b2);
      IntToStringInjective(p.num1, q.num1);
      IntToStringInjective(p.num2, q.num2);
      OperationsAreFour(p.operation, q.operation);
    }
  }

  /** number text, upper-case name, number text: equal concatenations have equal parts. */
  lemma SignatureParts(a1: string, n1: string, b1: string, a2: string, n2: string, b2: string)
    requires AllNumberChars(a1) && AllNumberChars(a2) && |b1| >= 1 && |b2| >= 1
    requires IsNumberChar(b1[0]) && IsNumberChar(b2[0])
    requires |n1| >= 1 && |n2| >= 1
    requires forall i :: 0 <= i < |n1| ==> IsUpperLetter(n1[i])
    requires forall i :: 0 <= i < |n2| ==> IsUpperLetter(n2[i])
    requires a1 + n1 + b1 == a2 + n2 + b2
    ensures a1 == a2 && n1 == n2 && b1 == b2
  {
    ConcatAssoc(a1, n1, b1);
    ConcatAssoc(a2, n2, b2);
    SplitAtRunEnd(IsNumberChar, a1, n1 + b1, a2, n2 + b2);
    SplitAtRunEnd(IsUpperLetter, n1, b1, n2, b2);
  }

  /** The (num1, operation, num2) triples of the problems `ps`. */
  function TriplesOf(ps: seq<MathProblem>): set<Triple> {
    if ps == [] then {} else TriplesOf(ps[..|ps| - 1]) + {TripleOf(ps[|ps| - 1])}
  }

  /** A triple is among those of `ps` exactly when some problem of `ps` has it. */
  lemma {:induction false} TriplesOfMembers(ps: seq<MathProblem>, x: Triple)
    ensures x in TriplesOf(ps) <==> exists j :: 0 <= j < |ps| && TripleOf(ps[j]) == x
  {
    if ps != [] {
      var n := |ps| - 1;
      TriplesOfMembers(ps[..n], x);
      if x in TriplesOf(ps[..n]) {
        var j :| 0 <= j < n && TripleOf(ps[..n][j]) == x;
        assert ps[..n][j] == ps[j];
      } else if x == TripleOf(ps[n]) {
      } else {
        forall j | 0 <= j < |ps| ensures TripleOf(ps[j]) != x {
          if j < n {
            assert ps[..n][j] == ps[j];
          }
        }
      }
    }
  }

  /** The run's Set of signatures has a problem's signature exactly when it has its triple. */
  lemma {:induction false} SeenSignature(ps: seq<MathProblem>, p: MathProblem)
    ensures Signature(p) in SignaturesOf(ps) <==> TripleOf(p) in TriplesOf(ps)
  {
    if ps != [] {
      var n := |ps| - 1;
      SeenSignature(ps[..n], p);
      SignatureInjective(p, ps[n]);
    }
  }

  /** A Set of signatures that holds exactly the signatures of the problems with the triples `triples`. */
  ghost predicate SeenMatches(seen: set<string>, triples: set<Triple>) {
    forall q {:trigger Signature(q)} :: Signature(q) in seen <==> TripleOf(q) in triples
  }

  lemma SignaturesMatchTriples(ps: seq<MathProblem>)
    ensures SeenMatches(SignaturesOf(ps), TriplesOf(ps))
  {
    forall q ensures Signature(q) in SignaturesOf(ps) <==> TripleOf(q) in TriplesOf(ps) {
      SeenSignature(ps, q);
    }
  }

  lemma SignaturesOfAppend(ps: seq<MathProblem>, p: MathProblem)
    ensures SignaturesOf(ps + [p]) == SignaturesOf(ps) + {Signature(p)}
  {
    PrefixOfConcat(ps, [p]);
  }

  // ---------------------------------------------------------------------------
  // The assembler
  // ---------------------------------------------------------------------------

  /**
   * One pass of the retry loop's body: pick a category with draw `pick(t)`
   * and generate a problem from it with the draws `rolls(t)`.
   */
  function PickAndGenerate(
    active: seq<ProblemSubtype>, options: GeneratorOptions,
    pick: nat -> nat, rolls: nat -> Rolls, t: nat): (p: MathProblem)
    requires |active| > 0 && AllFeasible(active, options)
    ensures p.subtype == active[pick(t) % |active|].id && IsCorrect(p)
  {
    var subtype := active[pick(t) % |active|];
    FeasibleCanGenerate(subtype, options, rolls(t));
    GenerateProblem(subtype, options, rolls(t))
  }

  /** The stream of generator calls of a run: call t yields `PickAndGenerate(..., t)`. */
  function Candidates(
    active: seq<ProblemSubtype>, options: GeneratorOptions, pick: nat -> nat, rolls: nat -> Rolls)
    : (candidate: nat -> MathProblem)
    requires |active| > 0 && AllFeasible(active, options)
    ensures forall t: nat :: IsCorrect(candidate(t)) && candidate(t).subtype == active[pick(t) % |active|].id
  {
    (t: nat) => PickAndGenerate(active, options, pick, rolls, t)
  }

  /** The number of generator calls a run made, given its per-slot counts. */
  function DrawsUsed(attempts: seq<nat>, firstDraw: seq<nat>): nat
    requires |attempts| == |firstDraw|
  {
    if attempts == [] then 0 else firstDraw[|firstDraw| - 1] + attempts[|attempts| - 1]
  }

  /**
   * The retry discipline of one slot, when problems with the triples `seen`
   * were already accepted: the slot made `n` calls of the stream `candidate`,
   * `start` .. `start + n - 1`, with 1 <= n <= MAX_ATTEMPTS, and accepted
   * the last one; every earlier call produced a triple already seen, and
   * the accepted one is new unless the cap was reached. (Signatures and
   * triples determine each other: SignatureInjective.)
   */
  ghost predicate SlotFollowsRetryPolicy(
    candidate: nat -> MathProblem, seen: set<Triple>, problem: MathProblem, n: nat, start: nat)
  {
    && 1 <= n <= MAX_ATTEMPTS
    && problem == candidate(start + n - 1)
    && (n < MAX_ATTEMPTS ==> TripleOf(problem) !in seen)
    && (forall u :: start <= u < start + n - 1 ==> TripleOf(candidate(u)) in seen)
  }

  /**
   * The retry discipline of a run whose accepted problems are `flat`: slot k
   * made attempts[k] calls of the stream starting at call firstDraw[k], the
   * slots used the calls consecutively from call 0, and every slot follows
   * the discipline above with the triples of the slots before it.
   */
  ghost predicate RunFollowsRetryPolicy(
    candidate: nat -> MathProblem, flat: seq<MathProblem>, attempts: seq<nat>, firstDraw: seq<nat>)
    decreases |flat|
  {
    && |attempts| == |flat| && |firstDraw| == |flat|
    && (flat != [] ==>
          var n := |flat| - 1;
          && RunFollowsRetryPolicy(candidate, flat[..n], attempts[..n], firstDraw[..n])
          && firstDraw[n] == DrawsUsed(attempts[..n], firstDraw[..n])
          && SlotFollowsRetryPolicy(candidate, TriplesOf(flat[..n]), flat[n], attempts[n], firstDraw[n]))
  }

  /** The retry discipline of a run of `generate`, whose stream is the generator's calls. */
  ghost predicate FollowsRetryPolicy(
    active: seq<ProblemSubtype>, options: GeneratorOptions, pick: nat -> nat, rolls: nat -> Rolls,
    flat: seq<MathProblem>, attempts: seq<nat>, firstDraw: seq<nat>)
  {
    && |active| > 0 && AllFeasible(active, options)
    && RunFollowsRetryPolicy(Candidates(active, options, pick, rolls), flat, attempts, firstDraw)
  }

  /** Accepting one more slot that obeys the retry discipline extends a run that obeys it. */
  lemma AppendSlot(
    candidate: nat -> MathProblem, flat: seq<MathProblem>, attempts: seq<nat>, firstDraw: seq<nat>,
    problem: MathProblem, n: nat, start: nat)
    requires RunFollowsRetryPolicy(candidate, flat, attempts, firstDraw)
    requires start == DrawsUsed(attempts, firstDraw)
    requires SlotFollowsRetryPolicy(candidate, TriplesOf(flat), problem, n, start)
    ensures RunFollowsRetryPolicy(candidate, flat + [problem], attempts + [n], firstDraw + [start])
    ensures DrawsUsed(attempts + [n], firstDraw + [start]) == start + n
  {
    PrefixOfConcat(flat, [problem]);
    PrefixOfConcat(attempts, [n]);
    PrefixOfConcat(firstDraw, [start]);
  }

  /**
   * Slot k of a run that obeys the retry discipline obeys it with the
   * triples of slots 0 .. k-1, and starts where slot k-1 stopped.
   */
  lemma {:induction false} SlotOf(
    candidate: nat -> MathProblem, flat: seq<MathProblem>, attempts: seq<nat>, firstDraw: seq<nat>, k: nat)
    requires RunFollowsRetryPolicy(candidate, flat, attempts, firstDraw)
    requires k < |flat|
    ensures SlotFollowsRetryPolicy(candidate, TriplesOf(flat[..k]), flat[k], attempts[k], firstDraw[k])
    ensures firstDraw[k] == DrawsUsed(attempts[..k], firstDraw[..k])
    decreases |flat|
  {
    var n := |flat| - 1;
    if k < n {
      SlotOf(candidate, flat[..n], attempts[..n], firstDraw[..n], k);
      PrefixOfPrefix(flat, n, k);
      PrefixOfPrefix(attempts, n, k);
      PrefixOfPrefix(firstDraw, n, k);
    }
  }

  predicate DistinctTriples(ps: seq<MathProblem>) {
    forall i, j :: 0 <= i < j < |ps| ==> TripleOf(ps[i]) != TripleOf(ps[j])
  }

  /** When no slot reached the attempt cap, no two problems of the run share (num1, operation, num2). */
  lemma NoDuplicatesBelowCap(
    candidate: nat -> MathProblem, flat: seq<MathProblem>, attempts: seq<nat>, firstDraw: seq<nat>)
    requires RunFollowsRetryPolicy(candidate, flat, attempts, firstDraw)
    requires forall k :: 0 <= k < |attempts| ==> attempts[k] < MAX_ATTEMPTS
    ensures DistinctTriples(flat)
  {
    forall i, j | 0 <= i < j < |flat| ensures TripleOf(flat[i]) != TripleOf(flat[j]) {
      SlotOf(candidate, flat, attempts, firstDraw, j);
      assert flat[..j][i] == flat[i];
      TriplesOfMembers(flat[..j], TripleOf(flat[i]));
    }
  }

  /**
   * A retry happens only on a true duplicate: every rejected call of slot k
   * produced the (num1, operation, num2) of a problem accepted before slot k.
   */
  lemma RetriesOnlyOnDuplicates(
    active: seq<ProblemSubtype>, options: GeneratorOptions, pick: nat -> nat, rolls: nat -> Rolls,
    flat: seq<MathProblem>, attempts: seq<nat>, firstDraw: seq<nat>, k: nat, u: nat)
    requires FollowsRetryPolicy(active, options, pick, rolls, flat, attempts, firstDraw)
    requires k < |flat| && firstDraw[k] <= u && u + 1 < firstDraw[k] + attempts[k]
    ensures exists j :: 0 <= j < k && TripleOf(flat[j]) == TripleOf(PickAndGenerate(active, options, pick, rolls, u))
  {
    var candidate := Candidates(active, options, pick, rolls);
    var rejected := PickAndGenerate(active, options, pick, rolls, u);
    assert candidate(u) == rejected;
    SlotOf(candidate, flat, attempts, firstDraw, k);
    TriplesOfMembers(flat[..k], TripleOf(rejected));
    var j :| 0 <= j < k && TripleOf(flat[..k][j]) == TripleOf(rejected);
    assert flat[..k][j] == flat[j];
  }

  /** Every accepted problem of a run is some generator call's output: correct and of an active category. */
  lemma AcceptedAreGenerated(
    active: seq<ProblemSubtype>, options: GeneratorOptions, pick: nat -> nat, rolls: nat -> Rolls,
    flat: seq<MathProblem>, attempts: seq<nat>, firstDraw: seq<nat>)
    requires FollowsRetryPolicy(active, options, pick, rolls, flat, attempts, firstDraw)
    ensures forall k :: 0 <= k < |flat| ==>
      IsCorrect(flat[k]) && exists s :: s in active && flat[k].subtype == s.id
  {
    var candidate := Candidates(active, options, pick, rolls);
    forall k | 0 <= k < |flat| ensures IsCorrect(flat[k]) && exists s :: s in active && flat[k].subtype == s.id {
      SlotOf(candidate, flat, attempts, firstDraw, k);
      var t := firstDraw[k] + attempts[k] - 1;
      assert flat[k] == PickAndGenerate(active, options, pick, rolls, t);
      assert active[pick(t) % |active|] in active;
    }
  }

  /**
   * One slot of `generate`: the `do { ... } while (seen && attempts < 30)`
   * loop. Generator call t yields `gen(t)`; the slot starts at call `start`,
   * with the signatures `seen` of the problems `accepted` so far.
   */
  method GenerateSlot(gen: nat -> MathProblem, seen: set<string>, ghost triples: set<Triple>, start: nat)
    returns (problem: MathProblem, attempts: nat)
    requires SeenMatches(seen, triples)
    ensures SlotFollowsRetryPolicy(gen, triples, problem, attempts, start)
  {
    ghost var last := start;  // the generator call that produced `problem`
    problem := gen(start);
    attempts := 1;
    var duplicate := AlreadySeen(seen, triples, problem);
    while duplicate && attempts < MAX_ATTEMPTS
      invariant 1 <= attempts <= MAX_ATTEMPTS && last == start + attempts - 1
      invariant problem == gen(last)
      invariant duplicate <==> TripleOf(problem) in triples
      invariant forall u :: start <= u < last ==> TripleOf(gen(u)) in triples
    {
      last := start + attempts;
      problem := gen(start + attempts);
      attempts := attempts + 1;
      duplicate := AlreadySeen(seen, triples, problem);
    }
  }

  /** The loop condition `seenGlobal.has(signature)`: true exactly for a triple already accepted. */
  method AlreadySeen(seen: set<string>, ghost triples: set<Triple>, problem: MathProblem)
    returns (duplicate: bool)
    requires SeenMatches(seen, triples)
    ensures duplicate <==> TripleOf(problem) in triples
  {
    duplicate := Signature(problem) in seen;
  }

  /**
   * One page of `generate`: PROBLEMS_PER_PAGE slots, continuing the run whose
   * accepted problems are `accepted`, with signatures `seen`, after `t`
   * generator calls.
   */
  method FillPage(
    gen: nat -> MathProblem, seen: set<string>, t: nat,
    ghost accepted: seq<MathProblem>, ghost attempts: seq<nat>, ghost firstDraw: seq<nat>)
    returns (page: Page, seen': set<string>, t': nat, ghost attempts': seq<nat>, ghost firstDraw': seq<nat>)
    requires RunFollowsRetryPolicy(gen, accepted, attempts, firstDraw)
    requires t == DrawsUsed(attempts, firstDraw) && seen == SignaturesOf(accepted)
    ensures |page| == PROBLEMS_PER_PAGE
    ensures RunFollowsRetryPolicy(gen, accepted + page, attempts', firstDraw')
    ensures t' == DrawsUsed(attempts', firstDraw') && seen' == SignaturesOf(accepted + page)
  {
    page, seen', t', attempts', firstDraw' := [], seen, t, attempts, firstDraw;
    assert accepted + page == accepted;
    var i := 0;
    while i < PROBLEMS_PER_PAGE
      invariant 0 <= i <= PROBLEMS_PER_PAGE && |page| == i
      invariant RunFollowsRetryPolicy(gen, accepted + page, attempts', firstDraw')
      invariant t' == DrawsUsed(attempts', firstDraw')
      invariant seen' == SignaturesOf(accepted + page)
    {
      var start := t';
      SignaturesMatchTriples(accepted + page);
      var problem, n := GenerateSlot(gen, seen', TriplesOf(accepted + page), start);
      t' := t' + n;
      AppendSlot(gen, accepted + page, attempts', firstDraw', problem, n, start);
      SignaturesOfAppend(accepted + page, problem);
      ConcatAssoc(accepted, page, [problem]);
      seen' := seen' + {Signature(problem)};
      page := page + [problem];
      attempts', firstDraw' := attempts' + [n], firstDraw' + [start];
      i := i + 1;
    }
  }

  /**
   * The page loop of `generate`: `pageCount` pages, with one Set of
   * signatures for the whole run. Generator call t yields `gen(t)`.
   */
  method FillPages(gen: nat -> MathProblem, pageCount: int)
    returns (pages: seq<Page>, ghost attempts: seq<nat>, ghost firstDraw: seq<nat>)
    ensures |pages| == (if pageCount > 0 then pageCount else 0) && FullPages(pages)
    ensures RunFollowsRetryPolicy(gen, Flatten(pages), attempts, firstDraw)
  {
    pages, attempts, firstDraw := [], [], [];
    var seenGlobal: set<string> := {};
    var t: nat := 0;  // generator calls so far
    var p := 0;
    while p < pageCount
      invariant 0 <= p && |pages| == p
      invariant p <= pageCount || p == 0
      invariant FullPages(pages)
      invariant RunFollowsRetryPolicy(gen, Flatten(pages), attempts, firstDraw)
      invariant t == DrawsUsed(attempts, firstDraw)
      invariant seenGlobal == SignaturesOf(Flatten(pages))
    {
      var pageProblems;
      ghost var flat := Flatten(pages);
      pageProblems, seenGlobal, t, attempts, firstDraw := FillPage(gen, seenGlobal, t, flat, attempts, firstDraw);
      FlattenAppend(pages, pageProblems);
      pages := pages + [pageProblems];
      p := p + 1;
    }
  }

  /**
   * `generate()`: refuses an empty selection with an alert and leaves the
   * previous pages in place; otherwise fills `pageCount` pages of
   * PROBLEMS_PER_PAGE problems, retrying each slot on a seen signature up
   * to MAX_ATTEMPTS generator calls. `pick` and `rolls` are the random
   * draws of the successive generator calls.
   */
  method Generate(settings: WorksheetSettings, previous: seq<Page>, pick: nat -> nat, rolls: nat -> Rolls)
    returns (pages: seq<Page>, alert: Option<string>, ghost attempts: seq<nat>, ghost firstDraw: seq<nat>)
    requires forall id :: id in settings.enabledSubtypes ==> id in CatalogIds()
    requires "mul_long" in settings.enabledSubtypes ==>
      settings.longMultiplication.multiplicandDigits >= 1 && settings.longMultiplication.multiplierDigits >= 1
    ensures settings.enabledSubtypes == [] ==> alert == Some(NO_SUBTYPE_ALERT) && pages == previous
    ensures settings.enabledSubtypes != [] ==> alert == None
    ensures settings.enabledSubtypes != [] ==>
      && |pages| == (if settings.pageCount > 0 then settings.pageCount else 0)
      && FullPages(pages)
    ensures settings.enabledSubtypes != [] ==>
      forall k :: 0 <= k < |Flatten(pages)| ==>
        Flatten(pages)[k].subtype in settings.enabledSubtypes && IsCorrect(Flatten(pages)[k])
    ensures settings.enabledSubtypes != [] ==>
      FollowsRetryPolicy(ActiveSubtypes(SUBTYPES, settings.enabledSubtypes), OptionsOf(settings),
        pick, rolls, Flatten(pages), attempts, firstDraw)
    ensures settings.enabledSubtypes != [] && (forall k :: 0 <= k < |attempts| ==> attempts[k] < MAX_ATTEMPTS) ==>
      DistinctTriples(Flatten(pages))
  {
    if settings.enabledSubtypes == [] {
      return previous, Some(NO_SUBTYPE_ALERT), [], [];
    }
    alert := None;
    var activeSubtypes := ActiveSubtypes(SUBTYPES, settings.enabledSubtypes);
    var options := OptionsOf(settings);
    ActiveSubtypesUsable(settings);
    var gen := Candidates(activeSubtypes, options, pick, rolls);
    pages, attempts, firstDraw := FillPages(gen, settings.pageCount);
    AcceptedAreGenerated(activeSubtypes, options, pick, rolls, Flatten(pages), attempts, firstDraw);
    if forall k :: 0 <= k < |attempts| ==> attempts[k] < MAX_ATTEMPTS {
      NoDuplicatesBelowCap(gen, Flatten(pages), attempts, firstDraw);
    }
  }

  // ---------------------------------------------------------------------------
  // Enabling categories, the division check, the file name
  // ---------------------------------------------------------------------------

  predicate NoDuplicates(xs: seq<string>) {
    forall i, j :: 0 <= i < j < |xs| ==> xs[i] != xs[j]
  }

  /** `xs.filter(i => i !== id)`. */
  function RemoveAll(xs: seq<string>, id: string): (r: seq<string>)
    ensures forall x :: x in r <==> x in xs && x != id
    ensures NoDuplicates(xs) ==> NoDuplicates(r)
  {
    if xs == [] then []
    else if xs[0] == id then RemoveAll(xs[1..], id)
    else
      var rest := RemoveAll(xs[1..], id);
      assert NoDuplicates(xs) ==> xs[0] !in xs[1..];
      [xs[0]] + rest
  }

  lemma {:induction false} RemoveAllAbsent(xs: seq<string>, id: string)
    requires id !in xs
    ensures RemoveAll(xs, id) == xs
  {
    if xs != [] {
      RemoveAllAbsent(xs[1..], id);
    }
  }

  lemma {:induction false} RemoveAllAppendSelf(xs: seq<string>, id: string)
    ensures RemoveAll(xs + [id], id) == RemoveAll(xs, id)
  {
    if xs != [] {
      TailOfConcat(xs, [id]);
      RemoveAllAppendSelf(xs[1..], id);
    }
  }

  /** `toggleSubtype(id)`: remove every occurrence of an enabled id, append a disabled one. */
  function ToggleSubtype(enabled: seq<string>, id: string): (r: seq<string>)
    ensures id in r <==> id !in enabled
    ensures forall x :: x != id ==> (x in r <==> x in enabled)
    ensures NoDuplicates(enabled) ==> NoDuplicates(r)
  {
    if id in enabled then RemoveAll(enabled, id) else enabled + [id]
  }

  /** Enabling an absent id and toggling it again gives back exactly the list it started from. */
  lemma ToggleTwiceRestores(enabled: seq<string>, id: string)
    requires id !in enabled
    ensures ToggleSubtype(ToggleSubtype(enabled, id), id) == enabled
  {
    RemoveAllAppendSelf(enabled, id);
    RemoveAllAbsent(enabled, id);
  }

  /** `hasDivisionSelected`: `enabled.some(id => id.startsWith('div_'))`, scanning from the front. */
  function HasDivisionSelected(enabled: seq<string>): (b: bool)
    ensures b <==> exists id :: id in enabled && StartsWith(id, "div_")
  {
    if enabled == [] then false
    else
      var found := StartsWith(enabled[0], "div_") || HasDivisionSelected(enabled[1..]);
      assert (exists id :: id in enabled && StartsWith(id, "div_")) ==> found by {
        if id :| id in enabled && StartsWith(id, "div_") {
          if id != enabled[0] {
            assert id in enabled[1..];
          }
        }
      }
      found
  }

  /** For ids from the catalog, the prefix test finds exactly the enabled division categories. */
  lemma HasDivisionSelectedMeansDivision(enabled: seq<string>)
    requires forall id :: id in enabled ==> id in CatalogIds()
    ensures HasDivisionSelected(enabled) <==>
      exists s :: s in ActiveSubtypes(SUBTYPES, enabled) && s.operation == Division
  {
    CatalogDivisionPrefix();
    if HasDivisionSelected(enabled) {
      var id :| id in enabled && StartsWith(id, "div_");
      assert id in CatalogIds();
      var s :| s in SUBTYPES && s.id == id;
      assert s in ActiveSubtypes(SUBTYPES, enabled);
    }
  }

  /** JavaScript's `\s`: the characters `replace(/\s+/g, '_')` treats as white space. */
  function IsWhitespace(c: char): (b: bool)
    ensures c == ' ' || c == '\t' || c == '\n' || c == '\r' ==> b
    ensures c == '_' || IsUpperLetter(c) || IsNumberChar(c) ==> !b
  {
    || c == ' ' || c == '\t' || c == '\n' || c == '\r'
    || c == '\U{000B}' || c == '\U{000C}' || c == '\U{00A0}' || c == '\U{1680}'
    || ('\U{2000}' <= c <= '\U{200A}')
    || c == '\U{2028}' || c == '\U{2029}' || c == '\U{202F}' || c == '\U{205F}'
    || c == '\U{3000}' || c == '\U{FEFF}'
  }

  predicate NoWhitespace(s: string) {
    forall i :: 0 <= i < |s| ==> !IsWhitespace(s[i])
  }

  /** `s` without its leading white-space run. */
  function DropWhitespace(s: string): (r: string)
    ensures |r| <= |s|
    ensures r == [] || !IsWhitespace(r[0])
    ensures s != [] && IsWhitespace(s[0]) ==> |r| < |s|
  {
    if s != [] && IsWhitespace(s[0]) then DropWhitespace(s[1..]) else s
  }

  /** `s.replace(/\s+/g, '_')`: each maximal run of white space becomes one underscore. */
  function CollapseWhitespace(s: string): (r: string)
    ensures NoWhitespace(r)
    ensures r == [] <==> s == []
    decreases |s|
  {
    if s == [] then []
    else if IsWhitespace(s[0]) then "_" + CollapseWhitespace(DropWhitespace(s))
    else [s[0]] + CollapseWhitespace(s[1..])
  }

  lemma {:induction false} DropWhitespaceAppend(a: string, rest: string)
    requires rest == [] || !IsWhitespace(rest[0])
    ensures DropWhitespace(a + rest) == DropWhitespace(a) + rest
  {
    if a != [] && IsWhitespace(a[0]) {
      TailOfConcat(a, rest);
      DropWhitespaceAppend(a[1..], rest);
    } else if a == [] {
      assert a + rest == rest;
    }
  }

  /** A non-white-space character is kept where it is, and splits the replacement in two. */
  lemma {:induction false} CollapseSplitsAt(a: string, c: char, b: string)
    requires !IsWhitespace(c)
    ensures CollapseWhitespace(a + [c] + b) == CollapseWhitespace(a) + [c] + CollapseWhitespace(b)
    decreases |a|, 1
  {
    if a == [] {
      assert a + [c] + b == [c] + b;
      CollapsePlainHead(c, b);
    } else if IsWhitespace(a[0]) {
      CollapseSplitsAfterWhitespace(a, c, b);
    } else {
      CollapseSplitsAfterPlain(a, c, b);
    }
  }

  lemma {:induction false} CollapseSplitsAfterWhitespace(a: string, c: char, b: string)
    requires !IsWhitespace(c) && a != [] && IsWhitespace(a[0])
    ensures CollapseWhitespace(a + [c] + b) == CollapseWhitespace(a) + [c] + CollapseWhitespace(b)
    decreases |a|, 0
  {
    var s := a + [c] + b;
    var d := DropWhitespace(a);
    DropWhitespaceAppend(a, [c] + b);
    ConcatAssoc(a, [c], b);
    ConcatAssoc(d, [c], b);
    CollapseSplitsAt(d, c, b);
    CollapseWhitespaceHead(s);
    CollapseWhitespaceHead(a);
    var x, y := CollapseWhitespace(d), CollapseWhitespace(b);
    ConcatAssoc("_", x + [c], y);
    ConcatAssoc("_", x, [c]);
  }

  lemma {:induction false} CollapseSplitsAfterPlain(a: string, c: char, b: string)
    requires !IsWhitespace(c) && a != [] && !IsWhitespace(a[0])
    ensures CollapseWhitespace(a + [c] + b) == CollapseWhitespace(a) + [c] + CollapseWhitespace(b)
    decreases |a|, 0
  {
    var h, t := [a[0]], a[1..];
    assert a == h + t;
    ConcatAssoc(h, t, [c]);
    ConcatAssoc(h, t + [c], b);
    CollapsePlainHead(a[0], t + [c] + b);
    CollapsePlainHead(a[0], t);
    CollapseSplitsAt(t, c, b);
    var x, y := CollapseWhitespace(t), CollapseWhitespace(b);
    ConcatAssoc(h, x + [c], y);
    ConcatAssoc(h, x, [c]);
  }

  lemma CollapsePlainHead(x: char, rest: string)
    requires !IsWhitespace(x)
    ensures CollapseWhitespace([x] + rest) == [x] + CollapseWhitespace(rest)
  {
    assert ([x] + rest)[1..] == rest;
  }

  lemma CollapseWhitespaceHead(s: string)
    requires s != [] && IsWhitespace(s[0])
    ensures CollapseWhitespace(s) == "_" + CollapseWhitespace(DropWhitespace(s))
  {
  }

  /** A non-empty run made only of white space becomes a single underscore. */
  lemma WhitespaceRunCollapses(w: string)
    requires w != [] && forall i :: 0 <= i < |w| ==> IsWhitespace(w[i])
    ensures CollapseWhitespace(w) == "_"
  {
    DropWhitespaceAll(w);
  }

  lemma {:induction false} DropWhitespaceAll(w: string)
    requires forall i :: 0 <= i < |w| ==> IsWhitespace(w[i])
    ensures DropWhitespace(w) == []
  {
    if w != [] {
      DropWhitespaceAll(w[1..]);
    }
  }

  /** A title without white space is used unchanged. */
  lemma {:induction false} CollapseKeepsPlainText(s: string)
    requires NoWhitespace(s)
    ensures CollapseWhitespace(s) == s
  {
    if s != [] {
      CollapseKeepsPlainText(s[1..]);
    }
  }

  const FILENAME_PREFIX: string := "Mathe_Meister_"
  const FILENAME_SUFFIX: string := ".pdf"
  const DEFAULT_FILE_TITLE: string := "Arbeitsblatt"

  /** The PDF file name: `Mathe_Meister_${title.replace(/\s+/g, '_') || 'Arbeitsblatt'}.pdf`. */
  function PdfFilename(title: string): (name: string)
    ensures |name| > |FILENAME_PREFIX| + |FILENAME_SUFFIX|
    ensures name[..|FILENAME_PREFIX|] == FILENAME_PREFIX
    ensures name[|name| - |FILENAME_SUFFIX|..] == FILENAME_SUFFIX
    ensures var middle := name[|FILENAME_PREFIX|..|name| - |FILENAME_SUFFIX|];
      && NoWhitespace(middle)
      && (title == [] ==> middle == DEFAULT_FILE_TITLE)
      && (title != [] ==> middle == CollapseWhitespace(title))
  {
    var replaced := CollapseWhitespace(title);
    var middle := if replaced == [] then DEFAULT_FILE_TITLE else replaced;
    var name := FILENAME_PREFIX + middle + FILENAME_SUFFIX;
    assert name[|FILENAME_PREFIX|..|name| - |FILENAME_SUFFIX|] == middle;
    name
  }
}
