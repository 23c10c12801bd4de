/**
 The vulnerability pattern store (internal/extraction/extraction.go): findings become
 patterns, a finding close to a known pattern is merged into it, and outcomes of later
 matches are recorded.

 The id map and the category index hold references to the same pattern objects, so a pattern
 changed through one is changed in the other.  `State` is the value of the store: patterns by
 id, and the ids in each category in order of creation.  The hash that makes ids is any
 injective function, scores are reals, text is ASCII, and a finding arrives already
 categorised and abstracted (an uncategorised one has the empty category).
 */
module Extraction {
  import opened Wrappers

  /** No category name holds a colon, which separates it from the trigger in an id. */
  type Category = c: string | ':' !in c

  datatype Finding = Finding(category: Category, trigger: string, name: string, fix: string, snippet: string, confidence: real)

  datatype Pattern = Pattern(
    id: string,
    name: string,
    category: Category,
    trigger: string,
    fix: string,
    confidence: real,
    usageCount: nat,
    successRate: real,
    variants: seq<string>)

  datatype State = State(patterns: map<string, Pattern>, index: map<Category, seq<string>>)

  type Hash = string -> string

  // ---------------------------------------------------------------------------------------
  // Similarity
  // ---------------------------------------------------------------------------------------

  function Lower(c: char): char {
    if 'A' <= c <= 'Z' then 'a' + (c - 'A') else c
  }

  predicate IsSpace(c: char) {
    c == ' ' || '\t' <= c <= '\r'
  }

  /** The whitespace-separated words of `text`, after a word of which `word` was read. */
  function Fields(word: string, text: string): seq<string>
    decreases |text|
  {
    if text == [] then (if word == "" then [] else [word])
    else if IsSpace(text[0]) then (if word == "" then [] else [word]) + Fields("", text[1..])
    else Fields(word + [Lower(text[0])], text[1..])
  }

  function LongWords(fields: seq<string>): set<string> {
    set w | w in fields && |w| >= 3
  }

  function Words(text: string): set<string> {
    LongWords(Fields("", text))
  }

  /** Shared words over all words; nothing is similar to a text without words. */
  function Jaccard(a: set<string>, b: set<string>): real {
    if a == {} || b == {} then 0.0 else |a * b| as real / |a + b| as real
  }

  function Similarity(a: string, b: string): real {
    Jaccard(Words(a), Words(b))
  }

  const SIMILARITY_THRESHOLD := 0.7

  // What a word is

  const UPPER := "ABCDEFGHIJKLMNOPQRSTUVWXYZ"
  const LOWER := "abcdefghijklmnopqrstuvwxyz"

  lemma LowerExactly(c: char)
    ensures forall i :: 0 <= i < 26 ==> Lower(UPPER[i]) == LOWER[i]
    ensures c !in UPPER ==> Lower(c) == c
  {
    assert forall i :: 0 <= i < 26 ==> UPPER[i] == 'A' + i as char && LOWER[i] == 'a' + i as char;
    if 'A' <= c <= 'Z' {
      assert UPPER[c as int - 'A' as int] == c;
    }
  }

  lemma SpaceExactly(c: char)
    ensures IsSpace(c) <==> c as int in {9, 10, 11, 12, 13, 32}
  {
  }

  function LowerAll(s: string): string {
    seq(|s|, i requires 0 <= i < |s| => Lower(s[i]))
  }

  /** From `i` to `j` the text has no space, and on either side a space or its end. */
  ghost predicate IsWord(text: string, i: nat, j: nat) {
    && i < j <= |text| && (forall k :: i <= k < j ==> !IsSpace(text[k]))
    && (i == 0 || IsSpace(text[i - 1])) && (j == |text| || IsSpace(text[j]))
  }

  ghost predicate IsWordFrom(text: string, b: nat, x: string) {
    exists i: nat, j: nat :: b <= i && IsWord(text, i, j) && x == LowerAll(text[i..j])
  }

  /** While a word is being read it is the only one that starts before its end. */
  lemma OnlyOneWord(text: string, b: nat, n: nat, i: nat, j: nat)
    requires b <= n <= |text| && (forall k :: b <= k < n ==> !IsSpace(text[k]))
    requires b <= i && IsWord(text, i, j)
    ensures i == b || n < i || (i == n && b == n)
    ensures i == b < n && (n == |text| || IsSpace(text[n])) ==> j == n
  {
  }

  /** At the end of a word, it and the later ones are all there is. */
  lemma WordEnds(text: string, b: nat, n: nat, x: string)
    requires b <= n <= |text| && (forall k :: b <= k < n ==> !IsSpace(text[k])) && (b == 0 || IsSpace(text[b - 1]))
    requires n == |text| || IsSpace(text[n])
    ensures IsWordFrom(text, b, x) <==> (b < n && x == LowerAll(text[b..n])) || IsWordFrom(text, n + 1, x)
  {
    hide IsSpace, LowerAll;
    forall i: nat, j: nat | b <= i && IsWord(text, i, j) ensures (i == b < n && j == n) || n < i {
      OnlyOneWord(text, b, n, i, j);
    }
    assert b < n ==> IsWord(text, b, n);
  }

  lemma {:induction false} FieldsAreWords(text: string, b: nat, n: nat, x: string)
    requires b <= n <= |text| && (forall k :: b <= k < n ==> !IsSpace(text[k])) && (b == 0 || IsSpace(text[b - 1]))
    ensures x in Fields(LowerAll(text[b..n]), text[n..]) <==> IsWordFrom(text, b, x)
    decreases |text| - n
  {
    var word := LowerAll(text[b..n]);
    if n < |text| && !IsSpace(text[n]) {
      FieldsAreWords(text, b, n + 1, x);
      assert LowerAll(text[b..n + 1]) == word + [Lower(text[n])];
      assert text[n..][1..] == text[n + 1..];
    } else {
      WordEnds(text, b, n, x);
      assert word != "" <==> b < n;
      if n < |text| {
        assert LowerAll(text[n + 1..n + 1]) == "" && text[n..][1..] == text[n + 1..];
        hide LowerAll, IsWordFrom;
        FieldsAreWords(text, n + 1, n + 1, x);
      } else {
        assert text[n..] == [] && !IsWordFrom(text, n + 1, x);
      }
    }
  }

  /** The words compared are exactly the lower-case words of the text, between spaces or its
      ends, that have three characters or more. */
  lemma WordsExactly(text: string, x: string)
    ensures x in Words(text) <==> |x| >= 3 && IsWordFrom(text, 0, x)
  {
    FieldsAreWords(text, 0, 0, x);
    assert LowerAll(text[0..0]) == "" && text[0..] == text;
    hide Fields;
  }

  lemma UnionSize<T>(a: set<T>, b: set<T>)
    ensures |a + b| == |a| + |b| - |a * b|
  {
  }

  lemma JaccardIsSymmetric(a: set<string>, b: set<string>)
    ensures Jaccard(a, b) == Jaccard(b, a)
  {
    assert a * b == b * a && a + b == b + a;
  }

  lemma SmallerSubset<T>(a: set<T>, b: set<T>)
    requires a <= b
    ensures |a| <= |b| && (|a| == |b| ==> a == b)
  {
    assert b == a + (b - a);
    assert |b| == |a| + |b - a|;
  }

  /** The score is a proportion, and 1 exactly for two texts with the same words. */
  lemma JaccardIsProportion(a: set<string>, b: set<string>)
    ensures 0.0 <= Jaccard(a, b) <= 1.0
    ensures Jaccard(a, b) == 1.0 <==> a == b && a != {}
  {
    if a != {} && b != {} {
      SmallerSubset(a * b, a + b);
      var x :| x in a;
      assert x in a + b;
      assert |a + b| > 0;
      if |a * b| == |a + b| {
        assert a == b;
      } else {
        assert a == b ==> a * b == a + b;
        RatioBelowOne(|a * b|, |a + b|);
      }
    }
  }

  lemma RatioBelowOne(x: nat, y: nat)
    requires x < y
    ensures 0.0 <= x as real / y as real < 1.0
  {
  }

  method CollectWords(text: string) returns (words: set<string>)
    ensures words == Words(text)
  {
    var fields := Fields("", text);
    words := {};
    for i := 0 to |fields|
      invariant words == LongWords(fields[..i])
    {
      assert fields[..i + 1] == fields[..i] + [fields[i]];
      if |fields[i]| >= 3 {
        words := words + {fields[i]};
      }
    }
    assert fields[..|fields|] == fields;
  }

  ghost function SharedSoFar(a: set<string>, b: set<string>, todo: set<string>): nat {
    |(a - todo) * b|
  }

  lemma SharedGrows(a: set<string>, b: set<string>, todo: set<string>, w: string)
    requires w in todo && w in a
    ensures SharedSoFar(a, b, todo - {w}) == SharedSoFar(a, b, todo) + (if w in b then 1 else 0)
  {
    if w in b {
      assert (a - (todo - {w})) * b == (a - todo) * b + {w};
    } else {
      assert (a - (todo - {w})) * b == (a - todo) * b;
    }
  }

  method SimilarityScore(a: string, b: string) returns (score: real)
    ensures score == Similarity(a, b)
  {
    var wordsA := CollectWords(a);
    var wordsB := CollectWords(b);
    hide Words;
    if |wordsA| == 0 || |wordsB| == 0 {
      return 0.0;
    }
    var intersection := 0;
    var todo := wordsA;
    assert (wordsA - todo) * wordsB == {};
    while todo != {}
      invariant todo <= wordsA
      invariant intersection == SharedSoFar(wordsA, wordsB, todo)
      decreases todo
    {
      var w :| w in todo;
      SharedGrows(wordsA, wordsB, todo, w);
      hide SharedSoFar;
      todo := todo - {w};
      if w in wordsB {
        intersection := intersection + 1;
      }
    }
    assert wordsA - todo == wordsA;
    UnionSize(wordsA, wordsB);
    var union := |wordsA| + |wordsB| - intersection;
    if union == 0 {
      return 0.0;
    }
    score := intersection as real / union as real;
  }

  // ---------------------------------------------------------------------------------------
  // The operations on values
  // ---------------------------------------------------------------------------------------

  function IdOf(hash: Hash, category: Category, trigger: string): string {
    "pat-" + hash(category + ":" + trigger)
  }

  ghost predicate Injective(hash: Hash) {
    forall a, b :: hash(a) == hash(b) ==> a == b
  }

  ghost predicate Linked(s: State) {
    forall c, i :: c in s.index && 0 <= i < |s.index[c]| ==> s.index[c][i] in s.patterns
  }

  function InCategory(s: State, c: Category): seq<string> {
    if c in s.index then s.index[c] else []
  }

  ghost predicate AllKnown(patterns: map<string, Pattern>, ids: seq<string>) {
    forall i :: 0 <= i < |ids| ==> ids[i] in patterns
  }

  /** The first of `ids` that passes: with this very trigger, or with a similar one. */
  function FirstMatch(patterns: map<string, Pattern>, ids: seq<string>, trigger: string, exact: bool): (r: Option<string>)
    requires AllKnown(patterns, ids)
    ensures r.Some? ==> r.value in ids
  {
    if ids == [] then None
    else if Matches(patterns[ids[0]].trigger, trigger, exact) then Some(ids[0])
    else FirstMatch(patterns, ids[1..], trigger, exact)
  }

  predicate Matches(known: string, trigger: string, exact: bool) {
    if exact then known == trigger else Similarity(known, trigger) > SIMILARITY_THRESHOLD
  }

  function FindSimilar(s: State, c: Category, trigger: string): Option<string>
    requires Linked(s)
  {
    var exact := FirstMatch(s.patterns, InCategory(s, c), trigger, true);
    if exact.Some? then exact else FirstMatch(s.patterns, InCategory(s, c), trigger, false)
  }

  function NewPattern(hash: Hash, f: Finding): Pattern {
    Pattern(IdOf(hash, f.category, f.trigger), f.name, f.category, f.trigger, f.fix, f.confidence, 1, 0.5, [f.snippet])
  }

  function AppendUnique(variants: seq<string>, x: string): seq<string> {
    if x in variants then variants else variants + [x]
  }

  function Merged(p: Pattern, f: Finding): Pattern {
    p.(variants := AppendUnique(p.variants, f.snippet),
       usageCount := p.usageCount + 1,
       confidence := p.confidence * 0.8 + f.confidence * 0.2)
  }

  function Insert(s: State, p: Pattern): State {
    State(s.patterns[p.id := p], s.index[p.category := InCategory(s, p.category) + [p.id]])
  }

  /** The store after one categorised finding, and the id of the pattern it went to. */
  function ExtractOne(hash: Hash, s: State, f: Finding): (r: (State, string))
    requires Linked(s)
    ensures Linked(r.0) && r.1 in r.0.patterns && s.patterns.Keys <= r.0.patterns.Keys
  {
    var found := FindSimilar(s, f.category, f.trigger);
    if found.Some? then
      (s.(patterns := s.patterns[found.value := Merged(s.patterns[found.value], f)]), found.value)
    else
      var p := NewPattern(hash, f);
      (Insert(s, p), p.id)
  }

  function Outcome(p: Pattern, accepted: bool): Pattern {
    p.(usageCount := p.usageCount + 1,
       successRate := if accepted then p.successRate * 0.9 + 0.1 else p.successRate * 0.9)
  }

  function RecordOutcome(s: State, id: string, accepted: bool): State {
    if id !in s.patterns then s
    else s.(patterns := s.patterns[id := Outcome(s.patterns[id], accepted)])
  }

  // ---------------------------------------------------------------------------------------
  // What every operation keeps
  // ---------------------------------------------------------------------------------------

  ghost predicate Apart(p: Pattern, q: Pattern) {
    p.category == q.category ==> p.trigger != q.trigger && Similarity(p.trigger, q.trigger) <= 0.7
  }

  ghost predicate WellIndexed(s: State) {
    && (forall c, i :: c in s.index && 0 <= i < |s.index[c]| ==>
         s.index[c][i] in s.patterns && s.patterns[s.index[c][i]].category == c)
    && (forall c, i, j :: c in s.index && 0 <= i < j < |s.index[c]| ==> s.index[c][i] != s.index[c][j])
    && (forall id :: id in s.patterns ==> id in InCategory(s, s.patterns[id].category))
  }

  ghost predicate WellFormed(hash: Hash, id: string, p: Pattern) {
    && p.id == id == IdOf(hash, p.category, p.trigger)
    && 0.0 <= p.successRate <= 1.0
    && (forall i, j :: 0 <= i < j < |p.variants| ==> p.variants[i] != p.variants[j])
  }

  ghost predicate Inv(hash: Hash, s: State) {
    && WellIndexed(s)
    && (forall id :: id in s.patterns ==> WellFormed(hash, id, s.patterns[id]))
    && (forall i, j :: i in s.patterns && j in s.patterns && i != j ==> Apart(s.patterns[i], s.patterns[j]))
  }

  lemma FirstColon(p: string, t: string)
    requires ':' !in p
    ensures (p + ":" + t)[|p|] == ':' && forall i :: 0 <= i < |p| ==> (p + ":" + t)[i] != ':'
    ensures (p + ":" + t)[..|p|] == p && (p + ":" + t)[|p| + 1..] == t
  {
  }

  /** Two patterns with one id have one category and one trigger. */
  lemma IdsAreUnique(hash: Hash, c: Category, t: string, d: Category, u: string)
    requires Injective(hash) && IdOf(hash, c, t) == IdOf(hash, d, u)
    ensures c == d && t == u
  {
    var x, y := hash(c + ":" + t), hash(d + ":" + u);
    assert ("pat-" + x)[4..] == x && ("pat-" + y)[4..] == y;
    FirstColon(c, t);
    FirstColon(d, u);
  }

  lemma {:induction false} FirstMatchFinds(patterns: map<string, Pattern>, ids: seq<string>, trigger: string, exact: bool)
    requires AllKnown(patterns, ids)
    ensures var r := FirstMatch(patterns, ids, trigger, exact);
      && (r.Some? ==> r.value in ids && Matches(patterns[r.value].trigger, trigger, exact))
      && (r.None? ==> forall i :: 0 <= i < |ids| ==> !Matches(patterns[ids[i]].trigger, trigger, exact))
  {
    hide Matches;
    if ids != [] && !Matches(patterns[ids[0]].trigger, trigger, exact) {
      FirstMatchFinds(patterns, ids[1..], trigger, exact);
      assert forall i :: 1 <= i < |ids| ==> ids[i] == ids[1..][i - 1];
    }
  }

  /** A finding is merged exactly when its category holds a pattern with its trigger or one
      more similar than the threshold, and then into such a pattern: into the one with its own
      trigger if there is one. */
  lemma FindSimilarFinds(hash: Hash, s: State, c: Category, trigger: string)
    requires Inv(hash, s)
    ensures var r := FindSimilar(s, c, trigger);
      && (r.Some? ==> r.value in s.patterns && Close(s.patterns[r.value], c, trigger))
      && (r.None? ==> forall id :: id in s.patterns ==> !Close(s.patterns[id], c, trigger))
      && (forall id :: id in s.patterns && s.patterns[id].category == c && s.patterns[id].trigger == trigger ==> r == Some(id))
  {
    hide Similarity;
    FirstMatchFinds(s.patterns, InCategory(s, c), trigger, true);
    FirstMatchFinds(s.patterns, InCategory(s, c), trigger, false);
  }

  ghost predicate Close(p: Pattern, c: Category, trigger: string) {
    p.category == c && (p.trigger == trigger || Similarity(p.trigger, trigger) > 0.7)
  }

  lemma UpdateKeepsIndex(s: State, id: string, p: Pattern)
    requires WellIndexed(s) && id in s.patterns && p.category == s.patterns[id].category
    ensures WellIndexed(s.(patterns := s.patterns[id := p]))
  {
  }

  lemma UpdateKeepsInv(hash: Hash, s: State, id: string, p: Pattern)
    requires Inv(hash, s) && id in s.patterns && WellFormed(hash, id, p)
    requires p.category == s.patterns[id].category && p.trigger == s.patterns[id].trigger
    ensures Inv(hash, s.(patterns := s.patterns[id := p]))
  {
    hide WellFormed, Similarity, WellIndexed;
    UpdateKeepsIndex(s, id, p);
  }

  lemma InsertKeepsIndex(s: State, p: Pattern)
    requires WellIndexed(s) && p.id !in s.patterns
    ensures WellIndexed(Insert(s, p))
  {
  }

  lemma InsertKeepsInv(hash: Hash, s: State, p: Pattern)
    requires Inv(hash, s) && p.id !in s.patterns && WellFormed(hash, p.id, p)
    requires forall id :: id in s.patterns ==> !Close(s.patterns[id], p.category, p.trigger)
    ensures Inv(hash, Insert(s, p))
  {
    InsertKeepsIndex(s, p);
    forall id | id in s.patterns ensures Apart(s.patterns[id], p) && Apart(p, s.patterns[id]) {
      JaccardIsSymmetric(Words(s.patterns[id].trigger), Words(p.trigger));
    }
    hide WellFormed, WellIndexed, Apart, Close;
  }

  /** An unmatched finding has an unused id, so nothing is overwritten. */
  lemma NewIdIsUnused(hash: Hash, s: State, f: Finding)
    requires Injective(hash) && Inv(hash, s) && FindSimilar(s, f.category, f.trigger).None?
    ensures IdOf(hash, f.category, f.trigger) !in s.patterns
  {
    FindSimilarFinds(hash, s, f.category, f.trigger);
    var id := IdOf(hash, f.category, f.trigger);
    if id in s.patterns {
      var p := s.patterns[id];
      assert WellFormed(hash, id, p);
      IdsAreUnique(hash, p.category, p.trigger, f.category, f.trigger);
      assert false;
    }
  }

  lemma ExtractOneKeepsInv(hash: Hash, s: State, f: Finding)
    requires Injective(hash) && Inv(hash, s)
    ensures Inv(hash, ExtractOne(hash, s, f).0)
  {
    FindSimilarFinds(hash, s, f.category, f.trigger);
    var found := FindSimilar(s, f.category, f.trigger);
    hide FindSimilar, Similarity, WellIndexed, Injective;
    if found.Some? {
      assert WellFormed(hash, found.value, s.patterns[found.value]);
      UpdateKeepsInv(hash, s, found.value, Merged(s.patterns[found.value], f));
    } else {
      NewIdIsUnused(hash, s, f);
      InsertKeepsInv(hash, s, NewPattern(hash, f));
    }
  }

  lemma OutcomeKeepsInv(hash: Hash, s: State, id: string, accepted: bool)
    requires Inv(hash, s)
    ensures Inv(hash, RecordOutcome(s, id, accepted))
  {
    if id in s.patterns {
      assert WellFormed(hash, id, s.patterns[id]);
      assert WellFormed(hash, id, Outcome(s.patterns[id], accepted));
      UpdateKeepsInv(hash, s, id, Outcome(s.patterns[id], accepted));
    }
  }

  // Counting uses

  ghost function Usage(m: map<string, Pattern>): nat
    decreases |m|
  {
    if m == map[] then 0
    else
      var k :| k in m;
      m[k].usageCount + Usage(m - {k})
  }

  lemma {:induction false} UsageSplits(m: map<string, Pattern>, k: string)
    requires k in m
    ensures Usage(m) == m[k].usageCount + Usage(m - {k})
    decreases |m|
  {
    var j :| j in m && Usage(m) == m[j].usageCount + Usage(m - {j});
    if j != k {
      UsageSplits(m - {j}, k);
      UsageSplits(m - {k}, j);
      assert m - {j} - {k} == m - {k} - {j};
    }
  }

  lemma UsageOfPut(m: map<string, Pattern>, k: string, p: Pattern)
    ensures Usage(m[k := p]) + (if k in m then m[k].usageCount else 0) == Usage(m) + p.usageCount
  {
    UsageSplits(m[k := p], k);
    if k in m {
      UsageSplits(m, k);
      assert m[k := p] - {k} == m - {k};
    } else {
      assert m[k := p] - {k} == m;
    }
  }

  lemma ExtractOneCounts(hash: Hash, s: State, f: Finding)
    requires Injective(hash) && Inv(hash, s)
    ensures Usage(ExtractOne(hash, s, f).0.patterns) == Usage(s.patterns) + 1
  {
    var found := FindSimilar(s, f.category, f.trigger);
    FindSimilarFinds(hash, s, f.category, f.trigger);
    hide FindSimilar, Inv, Injective;
    if found.Some? {
      UsageOfPut(s.patterns, found.value, Merged(s.patterns[found.value], f));
    } else {
      NewIdIsUnused(hash, s, f);
      UsageOfPut(s.patterns, NewPattern(hash, f).id, NewPattern(hash, f));
    }
  }

  // ---------------------------------------------------------------------------------------
  // Every run
  // ---------------------------------------------------------------------------------------

  /** What the loop over findings does: the store after it, and the ids it returns. */
  function Extract(hash: Hash, s: State, findings: seq<Finding>): (r: (State, seq<string>))
    requires Linked(s)
    ensures Linked(r.0)
    decreases |findings|
  {
    if findings == [] then (s, [])
    else
      var n := |findings| - 1;
      var (s1, ids) := Extract(hash, s, findings[..n]);
      if findings[n].category == "" then (s1, ids)
      else
        var (s2, id) := ExtractOne(hash, s1, findings[n]);
        (s2, ids + [id])
  }

  function Categorised(findings: seq<Finding>): nat {
    if findings == [] then 0
    else Categorised(findings[..|findings| - 1]) + (if findings[|findings| - 1].category == "" then 0 else 1)
  }

  /** A pattern, once stored, keeps its id, category and trigger, and its place in the order of
      creation. */
  ghost predicate Extends(s: State, s': State) {
    && (forall c :: InCategory(s, c) <= InCategory(s', c))
    && forall id :: id in s.patterns ==>
      && id in s'.patterns
      && s'.patterns[id].category == s.patterns[id].category
      && s'.patterns[id].trigger == s.patterns[id].trigger
  }

  ghost predicate Known(s: State, f: Finding) {
    exists id :: id in s.patterns && Close(s.patterns[id], f.category, f.trigger)
  }

  ghost predicate AllSeen(s: State, findings: seq<Finding>) {
    forall i :: 0 <= i < |findings| && findings[i].category != "" ==> Known(s, findings[i])
  }

  lemma KnownStays(s: State, s': State, f: Finding)
    requires Extends(s, s') && Known(s, f)
    ensures Known(s', f)
  {
  }

  lemma PutIsKnown(s: State, s': State, id: string, p: Pattern, f: Finding)
    requires s'.patterns == s.patterns[id := p] && Close(p, f.category, f.trigger)
    requires forall c :: InCategory(s, c) <= InCategory(s', c)
    requires id in s.patterns ==> p.category == s.patterns[id].category && p.trigger == s.patterns[id].trigger
    ensures Extends(s, s') && Known(s', f)
  {
    assert Close(s'.patterns[id], f.category, f.trigger);
  }

  /** Where a finding goes: the pattern keeps its earlier variants, in order and each once, and
      has the finding's; its confidence moves a fifth of the way to the finding's. */
  lemma MergeKeepsVariants(p: Pattern, f: Finding)
    ensures var q := Merged(p, f);
      && f.snippet in q.variants && |p.variants| <= |q.variants| && q.variants[..|p.variants|] == p.variants
      && |q.variants| == |p.variants| + (if f.snippet in p.variants then 0 else 1)
      && 5.0 * (q.confidence - p.confidence) == f.confidence - p.confidence
  {
  }

  /** A finding is kept: in the pattern it went to, which has its category and its snippet, and
      which, if it is new, is all the finding's own, used once and neither good nor bad yet. */
  lemma FindingIsKept(hash: Hash, s: State, f: Finding)
    requires Injective(hash) && Inv(hash, s)
    ensures var (s', id) := ExtractOne(hash, s, f);
      var p := s'.patterns[id];
      && p.category == f.category && f.snippet in p.variants
      && (id !in s.patterns ==>
           && p.trigger == f.trigger && p.name == f.name && p.fix == f.fix && p.confidence == f.confidence
           && p.variants == [f.snippet] && p.usageCount == 1 && p.successRate == 1.0 - p.successRate)
  {
    var found := FindSimilar(s, f.category, f.trigger);
    FindSimilarFinds(hash, s, f.category, f.trigger);
    hide FindSimilar, Inv, Injective, Similarity, Linked, InCategory;
    if found.Some? {
      MergeKeepsVariants(s.patterns[found.value], f);
    }
  }

  /** An outcome moves the success rate a tenth of the way to one or to zero. */
  lemma OutcomeMovesRate(p: Pattern, accepted: bool)
    ensures 10.0 * (Outcome(p, accepted).successRate - p.successRate) == (if accepted then 1.0 else 0.0) - p.successRate
  {
  }

  lemma ExtractOneKnows(hash: Hash, s: State, f: Finding)
    requires Injective(hash) && Inv(hash, s)
    ensures Extends(s, ExtractOne(hash, s, f).0) && Known(ExtractOne(hash, s, f).0, f)
  {
    var found := FindSimilar(s, f.category, f.trigger);
    FindSimilarFinds(hash, s, f.category, f.trigger);
    var s' := ExtractOne(hash, s, f).0;
    hide FindSimilar, Inv, Injective, Similarity, Linked, InCategory, Extends, Known;
    if found.None? {
      NewIdIsUnused(hash, s, f);
      PutIsKnown(s, s', NewPattern(hash, f).id, NewPattern(hash, f), f);
    } else {
      PutIsKnown(s, s', found.value, Merged(s.patterns[found.value], f), f);
    }
  }

  /** From `s` to `s'` by way of `n` categorised findings. */
  ghost predicate Grew(hash: Hash, s: State, s': State, n: nat) {
    Inv(hash, s') && Extends(s, s') && Usage(s'.patterns) == Usage(s.patterns) + n
  }

  lemma ExtendsOn(a: State, b: State, c: State)
    requires Extends(a, b) && Extends(b, c)
    ensures Extends(a, c)
  {
  }

  lemma ExtendsItself(a: State)
    ensures Extends(a, a)
  {
  }

  lemma GrewOne(hash: Hash, s: State, s1: State, n: nat, f: Finding)
    requires Injective(hash) && Linked(s1) && Grew(hash, s, s1, n)
    ensures Grew(hash, s, ExtractOne(hash, s1, f).0, n + 1)
  {
    hide Inv, Injective, Linked, ExtractOne, Usage, Extends;
    ExtractOneKeepsInv(hash, s1, f);
    ExtractOneCounts(hash, s1, f);
    ExtractOneKnows(hash, s1, f);
    ExtendsOn(s, s1, ExtractOne(hash, s1, f).0);
  }

  lemma SeenNone(s: State, seen: seq<Finding>, f: Finding)
    requires AllSeen(s, seen) && f.category == ""
    ensures AllSeen(s, seen + [f])
  {
  }

  lemma InvIsLinked(hash: Hash, s: State)
    requires Inv(hash, s)
    ensures Linked(s)
  {
  }

  lemma SeenOne(hash: Hash, s1: State, seen: seq<Finding>, f: Finding)
    requires Injective(hash) && Inv(hash, s1) && AllSeen(s1, seen)
    ensures AllSeen(ExtractOne(hash, s1, f).0, seen + [f])
  {
    hide Inv, Injective, ExtractOne, Known, Extends;
    assert Linked(s1) by { InvIsLinked(hash, s1); }
    ExtractOneKnows(hash, s1, f);
    hide Linked;
    var s2 := ExtractOne(hash, s1, f).0;
    forall i | 0 <= i < |seen| && seen[i].category != "" ensures Known(s2, seen[i]) {
      KnownStays(s1, s2, seen[i]);
    }
  }

  lemma {:induction false} ExtractKeeps(hash: Hash, s: State, findings: seq<Finding>)
    requires Injective(hash) && Inv(hash, s)
    ensures var (s', ids) := Extract(hash, s, findings);
      && Grew(hash, s, s', Categorised(findings))
      && |ids| == Categorised(findings)
      && AllSeen(s', findings)
    decreases |findings|
  {
    assert Linked(s);
    GrewNone(hash, s);
    hide Inv, Injective, Linked, AllSeen, ExtractOne, Extends, Usage, Close;
    if findings == [] {
      SeenNothing(s);
    } else {
      var n := |findings| - 1;
      var f := findings[n];
      ExtractKeeps(hash, s, findings[..n]);
      var s1 := Extract(hash, s, findings[..n]).0;
      assert findings == findings[..n] + [f];
      assert Inv(hash, s1);
      hide Grew;
      if f.category == "" {
        SeenNone(s1, findings[..n], f);
      } else {
        GrewOne(hash, s, s1, Categorised(findings[..n]), f);
        SeenOne(hash, s1, findings[..n], f);
      }
    }
  }

  lemma GrewNone(hash: Hash, s: State)
    requires Inv(hash, s)
    ensures Grew(hash, s, s, 0)
  {
  }

  lemma SeenNothing(s: State)
    ensures AllSeen(s, [])
  {
  }

  /** The categorised findings, in order. */
  function CategorisedOf(findings: seq<Finding>): seq<Finding> {
    if findings == [] then []
    else
      var n := |findings| - 1;
      CategorisedOf(findings[..n]) + if findings[n].category == "" then [] else [findings[n]]
  }

  /** The k-th id is that of a pattern close to the k-th categorised finding. */
  ghost predicate InStep(s: State, ids: seq<string>, findings: seq<Finding>) {
    && |ids| == |findings|
    && forall k :: 0 <= k < |ids| ==> ids[k] in s.patterns && Close(s.patterns[ids[k]], findings[k].category, findings[k].trigger)
  }

  lemma ReturnedIsClose(hash: Hash, s: State, f: Finding)
    requires Inv(hash, s)
    ensures var (s', id) := ExtractOne(hash, s, f); id in s'.patterns && Close(s'.patterns[id], f.category, f.trigger)
  {
    FindSimilarFinds(hash, s, f.category, f.trigger);
    hide FindSimilar, Similarity, Inv;
  }

  lemma StepInStep(s: State, s': State, ids: seq<string>, id: string, findings: seq<Finding>, f: Finding)
    requires InStep(s, ids, findings) && Extends(s, s') && id in s'.patterns && Close(s'.patterns[id], f.category, f.trigger)
    ensures InStep(s', ids + [id], findings + [f])
  {
    hide Similarity;
  }

  /** A batch returns one pattern for each categorised finding, in their order. */
  lemma {:induction false} ExtractReturnsInOrder(hash: Hash, s: State, findings: seq<Finding>)
    requires Injective(hash) && Inv(hash, s)
    ensures var (s', ids) := Extract(hash, s, findings); InStep(s', ids, CategorisedOf(findings))
    decreases |findings|
  {
    assert Linked(s);
    if findings != [] {
      var n := |findings| - 1;
      var f := findings[n];
      hide Inv, Injective, Linked, ExtractOne, Extends, InStep, Close, Usage;
      ExtractReturnsInOrder(hash, s, findings[..n]);
      ExtractKeeps(hash, s, findings[..n]);
      var (s1, ids) := Extract(hash, s, findings[..n]);
      if f.category != "" {
        ExtractOneKnows(hash, s1, f);
        ReturnedIsClose(hash, s1, f);
        var (s2, id) := ExtractOne(hash, s1, f);
        StepInStep(s1, s2, ids, id, CategorisedOf(findings[..n]), f);
      } else {
        assert CategorisedOf(findings) == CategorisedOf(findings[..n]);
      }
    }
  }

  datatype Event =
    | Found(findings: seq<Finding>)
    | Used(id: string, accepted: bool)

  /** The store, and how many categorised findings and known outcomes it was given. */
  datatype System = System(s: State, uses: nat)

  function Step(hash: Hash, y: System, e: Event): (r: System)
    requires Linked(y.s)
    ensures Linked(r.s)
  {
    match e
    case Found(findings) => System(Extract(hash, y.s, findings).0, y.uses + Categorised(findings))
    case Used(id, accepted) => System(RecordOutcome(y.s, id, accepted), y.uses + (if id in y.s.patterns then 1 else 0))
  }

  function Run(hash: Hash, y: System, trace: seq<Event>): (r: System)
    requires Linked(y.s)
    ensures Linked(r.s)
    decreases |trace|
  {
    if trace == [] then y else Run(hash, Step(hash, y, trace[0]), trace[1..])
  }

  function Empty(): (r: System)
    ensures Linked(r.s)
  {
    System(State(map[], map[]), 0)
  }

  ghost predicate Sound(hash: Hash, y: System) {
    Inv(hash, y.s) && Usage(y.s.patterns) == y.uses
  }

  lemma EmptyIsSound(hash: Hash)
    ensures Sound(hash, Empty())
  {
  }

  lemma StepKeepsSound(hash: Hash, y: System, e: Event)
    requires Injective(hash) && Sound(hash, y)
    ensures Sound(hash, Step(hash, y, e)) && Extends(y.s, Step(hash, y, e).s)
  {
    hide Injective, Inv, Usage, Extract;
    match e
    case Found(findings) => ExtractKeeps(hash, y.s, findings);
    case Used(id, accepted) =>
      OutcomeKeepsInv(hash, y.s, id, accepted);
      if id in y.s.patterns {
        UsageOfPut(y.s.patterns, id, Outcome(y.s.patterns[id], accepted));
      }
  }

  lemma {:induction false} RunKeepsSound(hash: Hash, y: System, trace: seq<Event>)
    requires Injective(hash) && Sound(hash, y)
    ensures Sound(hash, Run(hash, y, trace)) && Extends(y.s, Run(hash, y, trace).s)
    decreases |trace|
  {
    assert Linked(y.s);
    hide Sound, Injective, Step, Linked, Extends;
    if trace == [] {
      ExtendsItself(y.s);
    } else {
      var y1 := Step(hash, y, trace[0]);
      StepKeepsSound(hash, y, trace[0]);
      RunKeepsSound(hash, y1, trace[1..]);
      ExtendsOn(y.s, y1.s, Run(hash, y1, trace[1..]).s);
    }
  }

  /** In every store reachable from the empty one: two patterns of a category have different
      triggers, no more similar than the threshold; the id map and the category index hold
      the same patterns, each once; success rates stay proportions; and the patterns' usage
      counts sum to the categorised findings plus the outcomes on known patterns. */
  lemma StoreSafety(hash: Hash, trace: seq<Event>)
    requires Injective(hash)
    ensures var y := Run(hash, Empty(), trace);
      && WellIndexed(y.s)
      && (forall i, j :: i in y.s.patterns && j in y.s.patterns && i != j && y.s.patterns[i].category == y.s.patterns[j].category ==>
           y.s.patterns[i].trigger != y.s.patterns[j].trigger
           && Similarity(y.s.patterns[i].trigger, y.s.patterns[j].trigger) <= 0.7)
      && (forall id :: id in y.s.patterns ==> 0.0 <= y.s.patterns[id].successRate <= 1.0)
      && Usage(y.s.patterns) == y.uses
  {
    hide WellIndexed, Similarity, Injective, Run;
    EmptyIsSound(hash);
    RunKeepsSound(hash, Empty(), trace);
    var y := Run(hash, Empty(), trace);
    forall i, j | i in y.s.patterns && j in y.s.patterns && i != j ensures Apart(y.s.patterns[i], y.s.patterns[j]) {
    }
  }

  /** Deduplication over a whole run: a finding that was ever processed matches some stored
      pattern for ever after, so processing it again stores no new pattern. */
  lemma SeenFindingAddsNothing(hash: Hash, before: seq<Event>, findings: seq<Finding>, after: seq<Event>, i: nat)
    requires Injective(hash) && i < |findings| && findings[i].category != ""
    ensures var y := Run(hash, Step(hash, Run(hash, Empty(), before), Found(findings)), after);
      && FindSimilar(y.s, findings[i].category, findings[i].trigger).Some?
      && ExtractOne(hash, y.s, findings[i]).0.patterns.Keys == y.s.patterns.Keys
  {
    hide Injective, Run, Extract, Close, Inv, Usage;
    var f := findings[i];
    EmptyIsSound(hash);
    RunKeepsSound(hash, Empty(), before);
    var y0 := Run(hash, Empty(), before);
    ExtractKeeps(hash, y0.s, findings);
    StepKeepsSound(hash, y0, Found(findings));
    var y1 := Step(hash, y0, Found(findings));
    RunKeepsSound(hash, y1, after);
    var y := Run(hash, y1, after);
    KnownStays(y1.s, y.s, f);
    FindSimilarFinds(hash, y.s, f.category, f.trigger);
  }

  // ---------------------------------------------------------------------------------------
  // The engine itself
  // ---------------------------------------------------------------------------------------

  class PatternObject {
    const id: string
    const name: string
    const category: Category
    const trigger: string
    const fix: string
    var confidence: real
    var usageCount: nat
    var successRate: real
    var variants: seq<string>

    function Value(): Pattern
      reads this
    {
      Pattern(id, name, category, trigger, fix, confidence, usageCount, successRate, variants)
    }

    constructor (p: Pattern)
      ensures Value() == p
    {
      id, name, category, trigger, fix := p.id, p.name, p.category, p.trigger, p.fix;
      confidence, usageCount, successRate, variants := p.confidence, p.usageCount, p.successRate, p.variants;
    }

    method Merge(f: Finding)
      modifies this
      ensures Value() == Merged(old(Value()), f)
    {
      variants := AppendIfUnique(variants, f.snippet);
      usageCount := usageCount + 1;
      confidence := confidence * 0.8 + f.confidence * 0.2;
    }

    method Score(accepted: bool)
      modifies this
      ensures Value() == Outcome(old(Value()), accepted)
    {
      usageCount := usageCount + 1;
      var alpha := 0.1;
      assert 1.0 - alpha == 0.9;
      if accepted {
        successRate := successRate * (1.0 - alpha) + alpha;
      } else {
        successRate := successRate * (1.0 - alpha);
      }
    }
  }

  method AppendIfUnique(slice: seq<string>, x: string) returns (r: seq<string>)
    ensures r == AppendUnique(slice, x)
  {
    for i := 0 to |slice|
      invariant x !in slice[..i]
    {
      if slice[i] == x {
        return slice;
      }
    }
    assert slice[..|slice|] == slice;
    r := slice + [x];
  }

  ghost function Ids(objects: seq<PatternObject>): seq<string> {
    seq(|objects|, i requires 0 <= i < |objects| => objects[i].id)
  }

  /** The position of the first candidate that passes. */
  method Scan(candidates: seq<PatternObject>, trigger: string, exact: bool) returns (k: nat)
    ensures k <= |candidates| && forall i :: 0 <= i < k ==> !Matches(candidates[i].trigger, trigger, exact)
    ensures k < |candidates| ==> Matches(candidates[k].trigger, trigger, exact)
  {
    hide Similarity;
    k := 0;
    while k < |candidates|
      invariant k <= |candidates| && forall i :: 0 <= i < k ==> !Matches(candidates[i].trigger, trigger, exact)
    {
      if exact {
        if candidates[k].trigger == trigger {
          return;
        }
      } else {
        var score := SimilarityScore(candidates[k].trigger, trigger);
        if score > SIMILARITY_THRESHOLD {
          return;
        }
      }
      k := k + 1;
    }
  }

  lemma {:induction false} FirstMatchAt(known: map<string, Pattern>, ids: seq<string>, trigger: string, exact: bool, k: nat)
    requires AllKnown(known, ids)
    requires k <= |ids| && forall i :: 0 <= i < k ==> !Matches(known[ids[i]].trigger, trigger, exact)
    requires k < |ids| ==> Matches(known[ids[k]].trigger, trigger, exact)
    ensures FirstMatch(known, ids, trigger, exact) == if k < |ids| then Some(ids[k]) else None
  {
    hide Matches;
    if k > 0 {
      FirstMatchAt(known, ids[1..], trigger, exact, k - 1);
    }
  }

  lemma IdsAppend(objects: seq<PatternObject>, r: PatternObject)
    ensures Ids(objects + [r]) == Ids(objects) + [r.id]
  {
  }

  lemma IdsEmpty()
    ensures Ids([]) == []
  {
  }

  class Engine {
    var patterns: map<string, PatternObject>
    var categoryIndex: map<Category, seq<PatternObject>>
    const hash: Hash

    /** Both structures hold the very same objects. */
    ghost predicate Shares()
      reads this
    {
      && (forall id :: id in patterns ==> patterns[id].id == id)
      && (forall c, i :: c in categoryIndex && 0 <= i < |categoryIndex[c]| ==>
           categoryIndex[c][i].id in patterns && patterns[categoryIndex[c][i].id] == categoryIndex[c][i])
    }

    ghost function View(): State
      reads this, patterns.Values
    {
      State(map id | id in patterns :: patterns[id].Value(), map c | c in categoryIndex :: Ids(categoryIndex[c]))
    }

    ghost predicate Valid()
      reads this, patterns.Values
    {
      Injective(hash) && Shares() && Inv(hash, View())
    }

    constructor (hash: Hash)
      requires Injective(hash)
      ensures Valid() && View() == Empty().s && this.hash == hash
    {
      patterns, categoryIndex := map[], map[];
      this.hash := hash;
    }

    function Candidates(c: Category): seq<PatternObject>
      reads this
    {
      if c in categoryIndex then categoryIndex[c] else []
    }

    lemma CandidatesAreKnown(c: Category)
      requires Shares()
      ensures var objects := Candidates(c);
        && Ids(objects) == InCategory(View(), c)
        && AllKnown(View().patterns, Ids(objects))
        && forall i :: 0 <= i < |objects| ==> View().patterns[Ids(objects)[i]].trigger == objects[i].trigger
    {
    }

    method FindSimilarPattern(c: Category, trigger: string) returns (r: PatternObject?)
      requires Shares() && Linked(View())
      ensures var m := FindSimilar(View(), c, trigger);
        if r == null then m == None else m == Some(r.id) && r.id in patterns && patterns[r.id] == r
    {
      var candidates := Candidates(c);
      ghost var s, ids := View(), Ids(candidates);
      CandidatesAreKnown(c);
      assert forall i :: 0 <= i < |candidates| ==> candidates[i].id in patterns && patterns[candidates[i].id] == candidates[i];
      hide View, Linked, Matches, InCategory, Shares, Candidates;
      var exact := Scan(candidates, trigger, true);
      FirstMatchAt(s.patterns, ids, trigger, true, exact);
      if exact < |candidates| {
        return candidates[exact];
      }
      var fuzzy := Scan(candidates, trigger, false);
      FirstMatchAt(s.patterns, ids, trigger, false, fuzzy);
      if fuzzy < |candidates| {
        return candidates[fuzzy];
      }
      return null;
    }

    /** Changing one pattern object changes that one pattern of the store, in both
        structures at once. */
    twostate lemma OneChanged(o: PatternObject)
      requires old(Shares()) && patterns == old(patterns) && categoryIndex == old(categoryIndex)
      requires o.id in patterns && patterns[o.id] == o
      requires forall p :: p in patterns.Values && p != o ==> p.Value() == old(p.Value())
      ensures Shares() && View() == old(View()).(patterns := old(View()).patterns[o.id := o.Value()])
    {
      forall id | id in patterns && id != o.id ensures View().patterns[id] == old(View().patterns[id]) {
        assert patterns[id] in patterns.Values;
      }
    }

    twostate lemma OneAdded(new r: PatternObject)
      requires old(Shares()) && r.id !in old(patterns) && patterns == old(patterns)[r.id := r]
      requires forall p :: p in old(patterns.Values) ==> p.Value() == old(p.Value())
      ensures View().patterns == old(View()).patterns[r.id := r.Value()]
    {
      var m, m' := old(View()).patterns, View().patterns;
      hide Shares;
      forall id | id in m' ensures m'[id] == m[r.id := r.Value()][id] {
        if id != r.id {
          assert old(patterns)[id] in old(patterns.Values);
        }
      }
    }

    twostate lemma StillShares(new r: PatternObject, c: Category)
      requires old(Shares()) && r.id !in old(patterns) && patterns == old(patterns)[r.id := r]
      requires categoryIndex == old(categoryIndex)[c := old(Candidates(c)) + [r]]
      ensures Shares()
    {
    }

    twostate lemma IndexAdded(new r: PatternObject, c: Category)
      requires categoryIndex == old(categoryIndex)[c := old(Candidates(c)) + [r]]
      ensures View().index == old(View()).index[c := InCategory(old(View()), c) + [r.id]]
    {
      IdsAppend(old(Candidates(c)), r);
      IdsEmpty();
      hide Ids;
    }

    method Add(p: Pattern) returns (r: PatternObject)
      requires Shares() && p.id !in patterns
      modifies this
      ensures Shares() && View() == Insert(old(View()), p) && r.id == p.id
      ensures fresh(r) && patterns == old(patterns)[p.id := r]
    {
      r := new PatternObject(p);
      patterns := patterns[r.id := r];
      categoryIndex := categoryIndex[p.category := Candidates(p.category) + [r]];
      hide Ids, Shares, View;
      OneAdded(r);
      IndexAdded(r, p.category);
      StillShares(r, p.category);
    }

    lemma ViewFacts()
      ensures View().patterns.Keys == patterns.Keys
      ensures Inv(hash, View()) ==> Linked(View())
      ensures forall id :: id in patterns ==> patterns[id] in patterns.Values && View().patterns[id] == patterns[id].Value()
    {
    }

    /** One categorised finding. */
    method ExtractFinding(f: Finding) returns (r: PatternObject)
      requires Valid()
      modifies this, patterns.Values
      ensures Valid() && (View(), r.id) == ExtractOne(hash, old(View()), f)
      ensures forall o :: o in patterns.Values ==> o in old(patterns.Values) || fresh(o)
    {
      hide View, Inv, Injective, Linked, FindSimilar, Merged, Insert, Shares;
      ghost var before := View();
      ViewFacts();
      ExtractOneKeepsInv(hash, before, f);
      var existing := FindSimilarPattern(f.category, f.trigger);
      if existing != null {
        existing.Merge(f);
        OneChanged(existing);
        r := existing;
      } else {
        NewIdIsUnused(hash, before, f);
        r := Add(NewPattern(hash, f));
      }
    }

    method ExtractFromFindings(findings: seq<Finding>) returns (extracted: seq<PatternObject>)
      requires Valid()
      modifies this, patterns.Values
      ensures Valid() && (View(), Ids(extracted)) == Extract(hash, old(View()), findings)
      ensures forall o :: o in patterns.Values ==> o in old(patterns.Values) || fresh(o)
    {
      hide View, Linked, ExtractOne, Ids, Inv, Injective, Shares;
      extracted := [];
      ghost var before := View();
      ViewFacts();
      IdsEmpty();
      for i := 0 to |findings|
        invariant Valid() && (View(), Ids(extracted)) == Extract(hash, before, findings[..i])
        invariant forall o :: o in patterns.Values ==> o in old(patterns.Values) || fresh(o)
      {
        hide Valid;
        assert findings[..i + 1][..i] == findings[..i];
        if findings[i].category != "" {
          var p := ExtractFinding(findings[i]);
          IdsAppend(extracted, p);
          extracted := extracted + [p];
        }
      }
      assert findings[..|findings|] == findings;
    }

    method RecordMatchOutcome(patternID: string, accepted: bool)
      requires Valid()
      modifies patterns.Values
      ensures Valid() && View() == RecordOutcome(old(View()), patternID, accepted)
    {
      assert patternID in patterns ==> patterns[patternID].id == patternID;
      hide Inv, Injective, View, Shares, Outcome;
      ViewFacts();
      OutcomeKeepsInv(hash, View(), patternID, accepted);
      if patternID !in patterns {
        return;
      }
      patterns[patternID].Score(accepted);
      OneChanged(patterns[patternID]);
    }
  }
}
