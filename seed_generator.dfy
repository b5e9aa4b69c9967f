/**
 * The seed generator (`SeedGenerator`): base phrases taken from the niche,
 * five template expanders over fixed word lists, deduplication by the sorted
 * lowercased word list, and a length and word-count quality filter.
 */
module Seeds {
  import opened Common
  import opened Seqs
  import opened Text

  const TransactionalWords: seq<string> :=
    ["купить", "заказать", "цена", "стоимость", "прайс", "скидка", "акция",
     "в наличии", "доставка", "срочно", "сегодня", "ночью", "недорого"]

  const LocalizationWords: seq<string> :=
    ["москва", "спб", "рядом", "около", "24/7", "круглосуточно",
     "с выездом", "на дом", "в офис"]

  const ConstraintWords: seq<string> :=
    ["недорого", "дешево", "срочно", "быстро", "ночью", "рассрочка",
     "гарантия", "возврат", "чек", "официально", "с документами"]

  const QuestionWords: seq<string> :=
    ["как выбрать", "где купить", "сколько стоит", "какой лучше",
     "что лучше", "отличия", "сравнение", "обзор"]

  const SeasonWords: seq<string> :=
    ["черная пятница", "новый год", "8 марта", "23 февраля",
     "день рождения", "праздник", "распродажа"]

  /** The intents combined with every location. */
  const LocalIntents: seq<string> := ["купить", "заказать", "доставка"]

  /** The intents combined with every constraint. */
  const ConstraintIntents: seq<string> := ["купить", "заказать"]

  /** A generator: the lowercased niche and the seed targets. */
  datatype SeedGenerator = SeedGenerator(niche: string, seedTargets: seq<string>)

  /** `SeedGenerator(niche, seed_targets)`: the niche is lowercased, no targets means an empty list. */
  function NewSeedGenerator(niche: string, seedTargets: Option<seq<string>>): (g: SeedGenerator)
    ensures g.niche == Lower(niche)
    ensures |g.niche| == |niche|
    ensures seedTargets.None? ==> g.seedTargets == []
    ensures seedTargets.Some? ==> g.seedTargets == seedTargets.value
  {
    SeedGenerator(Lower(niche), seedTargets.GetOr([]))
  }

  // ---------------------------------------------------------------------------
  // Base phrases
  // ---------------------------------------------------------------------------

  /** `_extract_base_phrases()`: the first two words, the first three, then all of them. */
  function ExtractBasePhrases(niche: string): (r: seq<string>)
    ensures 1 <= |r| <= 3
    ensures |r| == 1 + (if |WordRuns(niche)| >= 2 then 1 else 0) + (if |WordRuns(niche)| >= 3 then 1 else 0)
    ensures r[|r| - 1] == Join(WordRuns(niche), " ")
  {
    var words := WordRuns(niche);
    (if |words| >= 2 then [Join(words[..2], " ")] else [])
    + (if |words| >= 3 then [Join(words[..3], " ")] else [])
    + [Join(words, " ")]
  }

  lemma WordRunsHaveNoSpace(niche: string)
    ensures forall k :: 0 <= k < |WordRuns(niche)| ==> WordRuns(niche)[k] != [] && Free(WordRuns(niche)[k], IsSpace)
  {
    var ws := WordRuns(niche);
    forall k, i | 0 <= k < |ws| && 0 <= i < |ws[k]|
      ensures !IsSpace(ws[k][i])
    {
      assert IsWordChar(ws[k][i]);
    }
  }

  /**
   * Split at whitespace, the base phrases give back the niche's words: the
   * first two, the first three, and all of them.
   */
  lemma BasePhraseWords(niche: string)
    ensures var words := WordRuns(niche); var r := ExtractBasePhrases(niche);
      Words(r[|r| - 1]) == words
      && (|words| >= 2 ==> Words(r[0]) == words[..2])
      && (|words| >= 3 ==> Words(r[1]) == words[..3])
  {
    var words := WordRuns(niche);
    WordRunsHaveNoSpace(niche);
    SplitJoin(words, ' ', IsSpace);
    if |words| >= 2 {
      SplitJoin(words[..2], ' ', IsSpace);
    }
    if |words| >= 3 {
      SplitJoin(words[..3], ' ', IsSpace);
    }
  }

  // ---------------------------------------------------------------------------
  // Template expanders
  // ---------------------------------------------------------------------------

  /** The first eight intents, each before and after the base. */
  function Transactional(base: string): seq<string> {
    seq(16, i requires 0 <= i < 16 =>
      if i % 2 == 0 then TransactionalWords[i / 2] + " " + base else base + " " + TransactionalWords[i / 2])
  }

  /** The three intents with the base and one location. */
  function LocalizedBlock(base: string, location: string): seq<string> {
    seq(3, j requires 0 <= j < 3 => LocalIntents[j] + " " + base + " " + location)
  }

  /** One block of three for each of the first six locations. */
  function LocalizedBlocks(base: string): seq<seq<string>> {
    seq(6, k requires 0 <= k < 6 => LocalizedBlock(base, LocalizationWords[k]))
  }

  function Localized(base: string): seq<string> {
    Flatten(LocalizedBlocks(base))
  }

  /** One constraint after the base, bare and behind the two intents. */
  function ConstrainedBlock(base: string, constraint: string): seq<string> {
    [base + " " + constraint] + seq(2, j requires 0 <= j < 2 => ConstraintIntents[j] + " " + base + " " + constraint)
  }

  /** One block of three for each of the first eight constraints. */
  function ConstrainedBlocks(base: string): seq<seq<string>> {
    seq(8, k requires 0 <= k < 8 => ConstrainedBlock(base, ConstraintWords[k]))
  }

  function Constrained(base: string): seq<string> {
    Flatten(ConstrainedBlocks(base))
  }

  /** The first six questions before the base. */
  function Questions(base: string): seq<string> {
    seq(6, i requires 0 <= i < 6 => QuestionWords[i] + " " + base)
  }

  /** The first five seasons after the base, bare and with "на". */
  function Seasonal(base: string): seq<string> {
    seq(10, i requires 0 <= i < 10 =>
      if i % 2 == 0 then base + " " + SeasonWords[i / 2] else base + " на " + SeasonWords[i / 2])
  }

  /** All the seeds the five expanders give for one base phrase, in the order `generate` extends them. */
  function Expansions(base: string): seq<string> {
    Transactional(base) + Localized(base) + Constrained(base) + Questions(base) + Seasonal(base)
  }

  /** `_generate_transactional(base)`. */
  method GenerateTransactional(base: string) returns (seeds: seq<string>)
    ensures |seeds| == 16
    ensures seeds == Transactional(base)
  {
    seeds := [];
    var intents := TransactionalWords[..8];
    var k := 0;
    while k < |intents|
      invariant 0 <= k <= |intents| == 8
      invariant |seeds| == 2 * k
      invariant forall i :: 0 <= i < 2 * k ==> seeds[i] == Transactional(base)[i]
    {
      var intent := intents[k];
      seeds := seeds + [intent + " " + base];
      seeds := seeds + [base + " " + intent];
      k := k + 1;
    }
  }

  /** `_generate_localized(base)`. */
  method GenerateLocalized(base: string) returns (seeds: seq<string>)
    ensures |seeds| == 18
    ensures seeds == Localized(base)
  {
    seeds := [];
    ghost var blocks := LocalizedBlocks(base);
    var locations := LocalizationWords[..6];
    var l := 0;
    while l < |locations|
      invariant 0 <= l <= |locations| == 6
      invariant |seeds| == 3 * l
      invariant seeds == Flatten(blocks[..l])
    {
      var location := locations[l];
      ghost var done := seeds;
      var j := 0;
      while j < |LocalIntents|
        invariant 0 <= j <= |LocalIntents| == 3
        invariant seeds == done + blocks[l][..j]
      {
        assert blocks[l][..j + 1] == blocks[l][..j] + [blocks[l][j]];
        seeds := seeds + [LocalIntents[j] + " " + base + " " + location];
        j := j + 1;
      }
      assert blocks[l][..3] == blocks[l];
      assert blocks[..l + 1] == blocks[..l] + [blocks[l]];
      FlattenAppend(blocks[..l], blocks[l]);
      l := l + 1;
    }
    assert blocks[..6] == blocks;
  }

  /** `_generate_constrained(base)`. */
  method GenerateConstrained(base: string) returns (seeds: seq<string>)
    ensures |seeds| == 24
    ensures seeds == Constrained(base)
  {
    seeds := [];
    ghost var blocks := ConstrainedBlocks(base);
    var constraints := ConstraintWords[..8];
    var l := 0;
    while l < |constraints|
      invariant 0 <= l <= |constraints| == 8
      invariant |seeds| == 3 * l
      invariant seeds == Flatten(blocks[..l])
    {
      var constraint := constraints[l];
      ghost var done := seeds;
      seeds := seeds + [base + " " + constraint];
      var j := 0;
      while j < |ConstraintIntents|
        invariant 0 <= j <= |ConstraintIntents| == 2
        invariant seeds == done + blocks[l][..j + 1]
      {
        assert blocks[l][..j + 2] == blocks[l][..j + 1] + [blocks[l][j + 1]];
        seeds := seeds + [ConstraintIntents[j] + " " + base + " " + constraint];
        j := j + 1;
      }
      assert blocks[l][..3] == blocks[l];
      assert blocks[..l + 1] == blocks[..l] + [blocks[l]];
      FlattenAppend(blocks[..l], blocks[l]);
      l := l + 1;
    }
    assert blocks[..8] == blocks;
  }

  /** `_generate_questions(base)`. */
  method GenerateQuestions(base: string) returns (seeds: seq<string>)
    ensures |seeds| == 6
    ensures seeds == Questions(base)
  {
    seeds := [];
    var questions := QuestionWords[..6];
    var k := 0;
    while k < |questions|
      invariant 0 <= k <= |questions| == 6
      invariant |seeds| == k
      invariant forall i :: 0 <= i < k ==> seeds[i] == Questions(base)[i]
    {
      seeds := seeds + [questions[k] + " " + base];
      k := k + 1;
    }
  }

  /** `_generate_seasonal(base)`. */
  method GenerateSeasonal(base: string) returns (seeds: seq<string>)
    ensures |seeds| == 10
    ensures seeds == Seasonal(base)
  {
    seeds := [];
    var seasons := SeasonWords[..5];
    var k := 0;
    while k < |seasons|
      invariant 0 <= k <= |seasons| == 5
      invariant |seeds| == 2 * k
      invariant forall i :: 0 <= i < 2 * k ==> seeds[i] == Seasonal(base)[i]
    {
      var season := seasons[k];
      seeds := seeds + [base + " " + season];
      seeds := seeds + [base + " на " + season];
      k := k + 1;
    }
  }

  /** A text with `base` at index `|h|` contains it. */
  lemma Inside(h: string, base: string, m: string, t: string)
    ensures Contains(h + base + m + t, base)
  {
    var s := h + base + m + t;
    assert s[|h|..|h| + |base|] == base;
    assert OccursAt(s, base, |h|);
    ContainsAt(s, base);
  }

  /** A text that starts with `base` contains it. */
  lemma Leading(base: string, m: string, t: string)
    ensures Contains(base + m + t, base)
  {
    Inside("", base, m, t);
    assert "" + base + m + t == base + m + t;
  }

  /** A text that ends with `base` contains it. */
  lemma Trailing(h: string, base: string)
    ensures Contains(h + base, base)
  {
    Inside(h, base, "", "");
    assert h + base + "" + "" == h + base;
  }

  lemma TransactionalContainsBase(base: string)
    ensures forall i :: 0 <= i < 16 ==> Contains(Transactional(base)[i], base)
  {
    forall i | 0 <= i < 16
      ensures Contains(Transactional(base)[i], base)
    {
      var w := TransactionalWords[i / 2];
      if i % 2 == 0 {
        Trailing(w + " ", base);
      } else {
        Leading(base, " ", w);
      }
    }
  }

  lemma LocalizedContainsBase(base: string)
    ensures |Localized(base)| == 18
    ensures forall s :: s in Localized(base) ==> Contains(s, base)
  {
    var blocks := LocalizedBlocks(base);
    FlattenUniform(blocks, 3);
    forall s | s in Localized(base)
      ensures Contains(s, base)
    {
      FlattenMember(blocks, s);
      var k :| 0 <= k < 6 && s in blocks[k];
      var j :| 0 <= j < 3 && s == blocks[k][j];
      Inside(LocalIntents[j] + " ", base, " ", LocalizationWords[k]);
    }
  }

  lemma ConstrainedContainsBase(base: string)
    ensures |Constrained(base)| == 24
    ensures forall s :: s in Constrained(base) ==> Contains(s, base)
  {
    var blocks := ConstrainedBlocks(base);
    FlattenUniform(blocks, 3);
    forall s | s in Constrained(base)
      ensures Contains(s, base)
    {
      FlattenMember(blocks, s);
      var k :| 0 <= k < 8 && s in blocks[k];
      var w := ConstraintWords[k];
      var j :| 0 <= j < 3 && s == blocks[k][j];
      if j == 0 {
        Leading(base, " ", w);
      } else {
        Inside(ConstraintIntents[j - 1] + " ", base, " ", w);
      }
    }
  }

  lemma QuestionsContainBase(base: string)
    ensures forall i :: 0 <= i < 6 ==> Contains(Questions(base)[i], base)
  {
    forall i | 0 <= i < 6
      ensures Contains(Questions(base)[i], base)
    {
      Trailing(QuestionWords[i] + " ", base);
    }
  }

  lemma SeasonalContainsBase(base: string)
    ensures forall i :: 0 <= i < 10 ==> Contains(Seasonal(base)[i], base)
  {
    forall i | 0 <= i < 10
      ensures Contains(Seasonal(base)[i], base)
    {
      var w := SeasonWords[i / 2];
      if i % 2 == 0 {
        Leading(base, " ", w);
      } else {
        Leading(base, " на ", w);
      }
    }
  }

  /** Every seed the expanders produce for a base phrase contains it; there are 74 of them. */
  lemma ExpansionsContainBase(base: string)
    ensures |Expansions(base)| == 74
    ensures forall s :: s in Expansions(base) ==> Contains(s, base)
  {
    TransactionalContainsBase(base);
    LocalizedContainsBase(base);
    ConstrainedContainsBase(base);
    QuestionsContainBase(base);
    SeasonalContainsBase(base);
  }

  // ---------------------------------------------------------------------------
  // Deduplication by normalised form
  // ---------------------------------------------------------------------------

  /** Python's `a <= b` on strings: code-point lexicographic order. */
  predicate StrLe(a: string, b: string)
    decreases |a|
  {
    a == [] || (b != [] && (a[0] < b[0] || (a[0] == b[0] && StrLe(a[1..], b[1..]))))
  }

  lemma {:induction false} StrLeTotal(a: string, b: string)
    ensures StrLe(a, b) || StrLe(b, a)
    decreases |a|
  {
    if a != [] && b != [] && a[0] == b[0] {
      StrLeTotal(a[1..], b[1..]);
    }
  }

  predicate Sorted(ws: seq<string>) {
    forall i :: 0 < i < |ws| ==> StrLe(ws[i - 1], ws[i])
  }

  /** `x` placed before the first element it does not exceed. */
  function Insert(x: string, ws: seq<string>): seq<string>
    decreases |ws|
  {
    if ws == [] then [x]
    else if StrLe(x, ws[0]) then [x] + ws
    else [ws[0]] + Insert(x, ws[1..])
  }

  /** `sorted(words)`, as an insertion sort. */
  function SortWords(ws: seq<string>): seq<string>
    decreases |ws|
  {
    if ws == [] then [] else Insert(ws[0], SortWords(ws[1..]))
  }

  lemma {:induction false} InsertSorted(x: string, ws: seq<string>)
    requires Sorted(ws)
    ensures |Insert(x, ws)| == |ws| + 1
    ensures Insert(x, ws)[0] == (if ws == [] || StrLe(x, ws[0]) then x else ws[0])
    ensures Sorted(Insert(x, ws))
    decreases |ws|
  {
    if ws != [] && StrLe(x, ws[0]) {
      var r := [x] + ws;
      forall i | 1 < i < |r|
        ensures StrLe(r[i - 1], r[i])
      {
        assert r[i - 1] == ws[i - 2] && r[i] == ws[i - 1];
      }
    } else if ws != [] {
      var rest := ws[1..];
      assert Sorted(rest);
      InsertSorted(x, rest);
      StrLeTotal(x, ws[0]);
      var t := Insert(x, rest);
      var r := [ws[0]] + t;
      assert StrLe(r[0], r[1]);
      forall i | 1 < i < |r|
        ensures StrLe(r[i - 1], r[i])
      {
        assert r[i - 1] == t[i - 2] && r[i] == t[i - 1];
      }
    }
  }

  lemma {:induction false} InsertPermutes(x: string, ws: seq<string>)
    ensures multiset(Insert(x, ws)) == multiset(ws) + multiset{x}
    decreases |ws|
  {
    if ws != [] && !StrLe(x, ws[0]) {
      InsertPermutes(x, ws[1..]);
      assert ws == [ws[0]] + ws[1..];
    }
  }

  /** The insertion sort orders the words and keeps every one of them. */
  lemma {:induction false} SortWordsSorted(ws: seq<string>)
    ensures Sorted(SortWords(ws))
    ensures multiset(SortWords(ws)) == multiset(ws)
    decreases |ws|
  {
    if ws != [] {
      SortWordsSorted(ws[1..]);
      InsertSorted(ws[0], SortWords(ws[1..]));
      InsertPermutes(ws[0], SortWords(ws[1..]));
      assert ws == [ws[0]] + ws[1..];
    }
  }

  /** `' '.join(sorted(seed.lower().split()))`: the form two duplicate seeds share. */
  function Key(seed: string): string {
    Join(SortWords(Words(Lower(seed))), " ")
  }

  /** Reorderings of the same words, in any case, share a key. */
  lemma {:induction false} SameWordsSameKey(a: string, b: string)
    requires multiset(Words(Lower(a))) == multiset(Words(Lower(b)))
    ensures Key(a) == Key(b)
  {
    var x := SortWords(Words(Lower(a)));
    var y := SortWords(Words(Lower(b)));
    SortWordsSorted(Words(Lower(a)));
    SortWordsSorted(Words(Lower(b)));
    SortedUnique(x, y);
  }

  lemma {:induction false} StrLeAntisym(a: string, b: string)
    requires StrLe(a, b) && StrLe(b, a)
    ensures a == b
    decreases |a|
  {
    if a != [] {
      StrLeAntisym(a[1..], b[1..]);
      assert a == [a[0]] + a[1..] && b == [b[0]] + b[1..];
    }
  }

  lemma {:induction false} StrLeTrans(a: string, b: string, c: string)
    requires StrLe(a, b) && StrLe(b, c)
    ensures StrLe(a, c)
    decreases |a|
  {
    if a != [] && a[0] == b[0] && b[0] == c[0] {
      StrLeTrans(a[1..], b[1..], c[1..]);
    }
  }

  /** In a sorted sequence the head is below every element. */
  lemma {:induction false} SortedHeadLeast(x: seq<string>, k: int)
    requires Sorted(x) && 0 <= k < |x|
    ensures StrLe(x[0], x[k])
    decreases k
  {
    if k == 0 {
      StrLeTotal(x[0], x[0]);
    } else {
      SortedHeadLeast(x, k - 1);
      StrLeTrans(x[0], x[k - 1], x[k]);
    }
  }

  /** Two sorted sequences with the same elements start with the same element. */
  lemma SortedHeads(x: seq<string>, y: seq<string>)
    requires Sorted(x) && Sorted(y) && multiset(x) == multiset(y) && x != [] && y != []
    ensures x[0] == y[0]
  {
    assert x[0] in multiset(y);
    assert y[0] in multiset(x);
    var i :| 0 <= i < |y| && y[i] == x[0];
    var j :| 0 <= j < |x| && x[j] == y[0];
    SortedHeadLeast(y, i);
    SortedHeadLeast(x, j);
    StrLeAntisym(x[0], y[0]);
  }

  lemma MultisetTails<T>(x: seq<T>, y: seq<T>)
    requires x != [] && y != [] && x[0] == y[0] && multiset(x) == multiset(y)
    ensures multiset(x[1..]) == multiset(y[1..])
  {
    assert x == [x[0]] + x[1..] && y == [y[0]] + y[1..];
    assert multiset(x[1..]) == multiset(x) - multiset{x[0]};
    assert multiset(y[1..]) == multiset(y) - multiset{y[0]};
  }

  /** Two sorted sequences with the same elements are equal. */
  lemma {:induction false} SortedUnique(x: seq<string>, y: seq<string>)
    requires Sorted(x) && Sorted(y) && multiset(x) == multiset(y)
    ensures x == y
    decreases |x|
  {
    assert |y| == |x| by {
      assert |multiset(y)| == |multiset(x)|;
    }
    if x != [] {
      SortedHeads(x, y);
      MultisetTails(x, y);
      assert Sorted(x[1..]) && Sorted(y[1..]);
      SortedUnique(x[1..], y[1..]);
      assert x == [x[0]] + x[1..] && y == [y[0]] + y[1..];
    }
  }

  /** The seeds whose keys are all distinct and not yet in `seen`, first occurrence kept. */
  function Unique(seeds: seq<string>, seen: set<string>): seq<string>
    decreases |seeds|
  {
    if seeds == [] then []
    else if Key(seeds[0]) in seen then Unique(seeds[1..], seen)
    else [seeds[0]] + Unique(seeds[1..], seen + {Key(seeds[0])})
  }

  /** The keys of a list of seeds, in order. */
  function Keys(seeds: seq<string>): (r: seq<string>)
    ensures |r| == |seeds|
  {
    seq(|seeds|, i requires 0 <= i < |seeds| => Key(seeds[i]))
  }

  /** `_deduplicate(seeds)`: walks the seeds with the set of keys seen so far. */
  method Deduplicate(seeds: seq<string>) returns (unique: seq<string>)
    ensures unique == Unique(seeds, {})
  {
    var seen: set<string> := {};
    unique := [];
    var i := 0;
    while i < |seeds|
      invariant 0 <= i <= |seeds|
      invariant Unique(seeds, {}) == unique + Unique(seeds[i..], seen)
    {
      var seed := seeds[i];
      var normalized := Join(SortWords(Words(Lower(seed))), " ");
      assert seeds[i..][1..] == seeds[i + 1..];
      if normalized !in seen {
        seen := seen + {normalized};
        unique := unique + [seed];
      }
      i := i + 1;
    }
  }

  /** What `Unique` keeps is a subsequence whose keys are distinct and avoid `seen`. */
  lemma {:induction false} UniqueShape(seeds: seq<string>, seen: set<string>)
    ensures IsSubsequence(Unique(seeds, seen), seeds)
    ensures Distinct(Keys(Unique(seeds, seen)))
    ensures forall k :: 0 <= k < |Unique(seeds, seen)| ==> Key(Unique(seeds, seen)[k]) !in seen
    decreases |seeds|
  {
    if seeds != [] {
      var x := seeds[0];
      if Key(x) in seen {
        UniqueShape(seeds[1..], seen);
        SubsequenceSkip(Unique(seeds[1..], seen), seeds[1..], x);
        assert [x] + seeds[1..] == seeds;
      } else {
        var rest := Unique(seeds[1..], seen + {Key(x)});
        UniqueShape(seeds[1..], seen + {Key(x)});
        var r := [x] + rest;
        assert r[1..] == rest;
        assert Keys(r) == [Key(x)] + Keys(rest);
        assert forall k :: 0 <= k < |rest| ==> Key(rest[k]) != Key(x);
        assert r[0] == seeds[0] && r[1..] == rest;
      }
    }
  }

  /** The first seed with key `k`, if any. */
  function FirstWithKey(seeds: seq<string>, k: string): Option<string>
    decreases |seeds|
  {
    if seeds == [] then None
    else if Key(seeds[0]) == k then Some(seeds[0])
    else FirstWithKey(seeds[1..], k)
  }

  /** Every seed whose key was not seen is represented by the first seed that has that key. */
  lemma {:induction false} UniqueKeepsFirst(seeds: seq<string>, seen: set<string>, i: int)
    requires 0 <= i < |seeds| && Key(seeds[i]) !in seen
    ensures exists j :: 0 <= j < |Unique(seeds, seen)| && Some(Unique(seeds, seen)[j]) == FirstWithKey(seeds, Key(seeds[i]))
    decreases |seeds|
  {
    var x := seeds[0];
    var k := Key(seeds[i]);
    if Key(x) in seen {
      UniqueKeepsFirst(seeds[1..], seen, i - 1);
      var j :| 0 <= j < |Unique(seeds[1..], seen)| && Some(Unique(seeds[1..], seen)[j]) == FirstWithKey(seeds[1..], k);
      assert Unique(seeds, seen)[j] == Unique(seeds[1..], seen)[j];
    } else if Key(x) == k {
      assert Unique(seeds, seen)[0] == x;
    } else {
      UniqueKeepsFirst(seeds[1..], seen + {Key(x)}, i - 1);
      var rest := Unique(seeds[1..], seen + {Key(x)});
      var j :| 0 <= j < |rest| && Some(rest[j]) == FirstWithKey(seeds[1..], k);
      assert Unique(seeds, seen)[j + 1] == rest[j];
    }
  }

  /** Seeds whose keys are already distinct and unseen come back unchanged: deduplicating twice changes nothing. */
  lemma {:induction false} UniqueOfUnique(seeds: seq<string>, seen: set<string>)
    requires Distinct(Keys(seeds))
    requires forall k :: 0 <= k < |seeds| ==> Key(seeds[k]) !in seen
    ensures Unique(seeds, seen) == seeds
    decreases |seeds|
  {
    if seeds != [] {
      var rest := seeds[1..];
      assert Keys(rest) == Keys(seeds)[1..];
      forall k | 0 <= k < |rest|
        ensures Key(rest[k]) !in seen + {Key(seeds[0])}
      {
        assert Keys(seeds)[k + 1] != Keys(seeds)[0];
      }
      UniqueOfUnique(rest, seen + {Key(seeds[0])});
      assert seeds == [seeds[0]] + rest;
    }
  }

  lemma DeduplicateIdempotent(seeds: seq<string>)
    ensures Unique(Unique(seeds, {}), {}) == Unique(seeds, {})
  {
    UniqueShape(seeds, {});
    UniqueOfUnique(Unique(seeds, {}), {});
  }

  // ---------------------------------------------------------------------------
  // Quality filter and generation
  // ---------------------------------------------------------------------------

  /** A seed of at least two words and at least ten characters. */
  predicate Quality(seed: string) {
    |Words(seed)| >= 2 && |seed| >= 10
  }

  /** `_filter_quality(seeds)`. */
  method FilterQuality(seeds: seq<string>) returns (filtered: seq<string>)
    ensures filtered == Filter(seeds, Quality)
  {
    filtered := [];
    var i := 0;
    while i < |seeds|
      invariant 0 <= i <= |seeds|
      invariant filtered == Filter(seeds[..i], Quality)
    {
      var seed := seeds[i];
      var words := Words(seed);
      assert seeds[..i + 1] == seeds[..i] + [seed];
      FilterAppend(seeds[..i], seed, Quality);
      if |words| >= 2 && |seed| >= 10 {
        filtered := filtered + [seed];
      }
      i := i + 1;
    }
    assert seeds[..|seeds|] == seeds;
  }

  /** The expansions of every base phrase, in order. */
  function ExpandAll(bases: seq<string>): seq<string>
    decreases |bases|
  {
    if bases == [] then [] else ExpandAll(bases[..|bases| - 1]) + Expansions(bases[|bases| - 1])
  }

  /** The list `generate(count)` builds before deduplicating. */
  function Candidates(g: SeedGenerator, count: int): seq<string> {
    (if g.seedTargets != [] then Prefix(g.seedTargets, count / 2) else [])
    + ExpandAll(Prefix(ExtractBasePhrases(g.niche), 5))
  }

  /** `generate(count)`, as a value. */
  function Generated(g: SeedGenerator, count: int): seq<string> {
    Prefix(Filter(Unique(Candidates(g, count), {}), Quality), count)
  }

  /** The five expanders for one base phrase. */
  method Expand(base: string) returns (seeds: seq<string>)
    ensures seeds == Expansions(base)
  {
    var t := GenerateTransactional(base);
    var l := GenerateLocalized(base);
    var c := GenerateConstrained(base);
    var q := GenerateQuestions(base);
    var s := GenerateSeasonal(base);
    seeds := t + l + c + q + s;
  }

  lemma ExpandAllStep(bases: seq<string>, i: int)
    requires 0 <= i < |bases|
    ensures ExpandAll(bases[..i + 1]) == ExpandAll(bases[..i]) + Expansions(bases[i])
  {
    assert bases[..i + 1][..i] == bases[..i];
  }

  lemma Associative(a: seq<string>, b: seq<string>, c: seq<string>)
    ensures a + (b + c) == a + b + c
  {
  }

  /** `generate(count)`. */
  method Generate(g: SeedGenerator, count: int) returns (seeds: seq<string>)
    ensures seeds == Generated(g, count)
  {
    var all: seq<string> := [];
    if g.seedTargets != [] {
      all := Prefix(g.seedTargets, count / 2);
    }
    ghost var head := all;
    var bases := ExtractBasePhrases(g.niche);
    bases := Prefix(bases, 5);
    var i := 0;
    while i < |bases|
      invariant 0 <= i <= |bases|
      invariant all == head + ExpandAll(bases[..i])
    {
      var expansion := Expand(bases[i]);
      ExpandAllStep(bases, i);
      Associative(head, ExpandAll(bases[..i]), expansion);
      all := all + expansion;
      i := i + 1;
    }
    assert bases[..|bases|] == bases;
    var unique := Deduplicate(all);
    var filtered := FilterQuality(unique);
    seeds := Prefix(filtered, count);
  }

  /** `seed` contains one of the phrases. */
  predicate HasBase(seed: string, phrases: seq<string>) {
    exists b :: b in phrases && Contains(seed, b)
  }

  /** Every template seed contains one of the base phrases it was expanded from. */
  lemma {:induction false} ExpandAllContains(bases: seq<string>)
    ensures forall s :: s in ExpandAll(bases) ==> HasBase(s, bases)
    decreases |bases|
  {
    if bases != [] {
      var init := bases[..|bases| - 1];
      var last := bases[|bases| - 1];
      ExpandAllContains(init);
      ExpansionsContainBase(last);
      forall s | s in ExpandAll(bases)
        ensures HasBase(s, bases)
      {
        if s in ExpandAll(init) {
          var b :| b in init && Contains(s, b);
          assert b in bases;
        } else {
          assert s in Expansions(last);
        }
      }
    }
  }

  /** How many seed targets `generate(count)` takes: `len(seed_targets[:count // 2])`. */
  function TargetsUsed(g: SeedGenerator, count: int): (k: nat)
    ensures k <= |g.seedTargets|
  {
    if g.seedTargets != [] then SliceLength(|g.seedTargets|, count / 2) else 0
  }

  /**
   * The list `generate` deduplicates starts with the first `count // 2` seed
   * targets (none when there are no targets) and goes on with template seeds,
   * each containing a base phrase of the niche.
   */
  lemma CandidatesOrder(g: SeedGenerator, count: int)
    ensures TargetsUsed(g, count) <= |Candidates(g, count)|
    ensures Candidates(g, count)[..TargetsUsed(g, count)] == g.seedTargets[..TargetsUsed(g, count)]
    ensures forall i :: TargetsUsed(g, count) <= i < |Candidates(g, count)| ==>
      HasBase(Candidates(g, count)[i], ExtractBasePhrases(g.niche))
  {
    var bases := Prefix(ExtractBasePhrases(g.niche), 5);
    var head := if g.seedTargets != [] then Prefix(g.seedTargets, count / 2) else [];
    ExpandAllContains(bases);
    assert Candidates(g, count) == head + ExpandAll(bases);
    assert |head| == TargetsUsed(g, count) && head == g.seedTargets[..|head|];
    assert (head + ExpandAll(bases))[..|head|] == head;
    TailContains(head, ExpandAll(bases), bases, ExtractBasePhrases(g.niche));
  }

  lemma TailContains(head: seq<string>, tail: seq<string>, bases: seq<string>, phrases: seq<string>)
    requires forall s :: s in tail ==> HasBase(s, bases)
    requires forall b :: b in bases ==> b in phrases
    ensures forall i :: |head| <= i < |head + tail| ==> HasBase((head + tail)[i], phrases)
  {
    forall i | |head| <= i < |head + tail|
      ensures HasBase((head + tail)[i], phrases)
    {
      assert (head + tail)[i] == tail[i - |head|];
      assert tail[i - |head|] in tail;
      var b :| b in bases && Contains(tail[i - |head|], b);
      assert b in phrases;
    }
  }

  /** A subsequence of seeds with distinct keys has distinct keys. */
  lemma {:induction false} SubsequenceKeepsDistinctKeys(a: seq<string>, b: seq<string>)
    requires IsSubsequence(a, b) && Distinct(Keys(b))
    ensures Distinct(Keys(a))
    decreases |b|
  {
    if a != [] && b != [] {
      assert Keys(b[1..]) == Keys(b)[1..];
      if a[0] == b[0] {
        SubsequenceKeepsDistinctKeys(a[1..], b[1..]);
        assert Keys(a[1..]) == Keys(a)[1..];
        forall k | 0 < k < |a|
          ensures Keys(a)[k] != Keys(a)[0]
        {
          assert a[k] == a[1..][k - 1];
          SubsequenceMember(a[1..], b[1..], a[k]);
          var m :| 0 <= m < |b[1..]| && b[1..][m] == a[k];
          assert Keys(b)[m + 1] != Keys(b)[0];
        }
      } else {
        SubsequenceKeepsDistinctKeys(a, b[1..]);
      }
    }
  }

  /**
   * What `generate(count)` returns: at most `count` seeds, each of at least
   * two words and ten characters, no two sharing a normalised form, taken in
   * order from the targets and the expansions.
   */
  lemma GeneratedGuarantees(g: SeedGenerator, count: int)
    ensures count >= 0 ==> |Generated(g, count)| <= count
    ensures forall s :: s in Generated(g, count) ==> Quality(s)
    ensures Distinct(Keys(Generated(g, count)))
    ensures IsSubsequence(Generated(g, count), Candidates(g, count))
  {
    var u := Unique(Candidates(g, count), {});
    var f := Filter(u, Quality);
    var r := Generated(g, count);
    UniqueShape(Candidates(g, count), {});
    FilterIsSubsequence(u, Quality);
    PrefixIsSubsequence(f, SliceLength(|f|, count));
    SubsequenceTrans(r, f, u);
    SubsequenceTrans(r, u, Candidates(g, count));
    SubsequenceKeepsDistinctKeys(r, u);
    forall s | s in r
      ensures Quality(s)
    {
      SubsequenceMember(r, f, s);
    }
  }
}
