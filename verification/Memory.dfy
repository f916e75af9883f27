/** services/memory.py: bounded lexical retrieval, packed greedily in rank order, and tag normalisation. */
module Memories {
  import opened Prelude

  /** Ids and times are opaque ordered values. */
  datatype Record = Record(id: nat, updated: int, content: string, tags: seq<string>)

  datatype Scored = Scored(record: Record, score: nat)

  datatype Match = Match(record: Record, rank: nat, score: nat)

  datatype Limits = Limits(results: nat, chars: int)

  // ---------------------------------------------------------------- scoring

  function Join(tags: seq<string>): string {
    if tags == [] then "" else if |tags| == 1 then tags[0] else tags[0] + " " + Join(tags[1..])
  }

  function CountIn(haystack: string, terms: seq<string>): nat {
    if terms == [] then 0 else (if Contains(haystack, terms[0]) then 1 else 0) + CountIn(haystack, terms[1..])
  }

  /** `_score`, where `fold` stands for `str.casefold`. */
  function Score(record: Record, terms: seq<string>, fold: string -> string): nat {
    CountIn(fold(record.content + " " + Join(record.tags)), terms)
  }

  /** The records to rank: all of them without terms, else those that contain some term. */
  function Relevant(records: seq<Record>, terms: seq<string>, fold: string -> string): seq<Scored> {
    if records == [] then []
    else
      var front, last := Relevant(records[..|records| - 1], terms, fold), records[|records| - 1];
      var score := Score(last, terms, fold);
      if terms != [] && score == 0 then front else front + [Scored(last, score)]
  }

  /** The terms, by their places, that occur in the text. */
  ghost function Found(haystack: string, terms: seq<string>): set<nat> {
    set i | 0 <= i < |terms| && Occurs(haystack, terms[i])
  }

  /** The score is the number of terms that occur in the folded content and tags; a term given twice counts twice. */
  lemma ScoreCounts(record: Record, terms: seq<string>, fold: string -> string)
    ensures Score(record, terms, fold) == |Found(fold(record.content + " " + Join(record.tags)), terms)|
  {
    CountIsFound(fold(record.content + " " + Join(record.tags)), terms);
  }

  lemma {:induction false} CountIsFound(haystack: string, terms: seq<string>)
    ensures CountIn(haystack, terms) == |Found(haystack, terms)|
  {
    hide Contains, Occurs;
    if terms != [] {
      var later := Found(haystack, terms[1..]);
      CountIsFound(haystack, terms[1..]);
      ContainsExactly(haystack, terms[0]);
      Shifted(later);
      var shifted := Shift(later);
      assert Found(haystack, terms) == (if Occurs(haystack, terms[0]) then {0} else {}) + shifted by {
        forall i: nat
          ensures i in Found(haystack, terms) <==> i in (if Occurs(haystack, terms[0]) then {0} else {}) + shifted
        {
          assert 0 < i < |terms| ==> terms[i] == terms[1..][i - 1];
          assert i > 0 && i - 1 in later ==> (i - 1) + 1 in shifted;
        }
      }
    }
  }

  ghost function Shift(places: set<nat>): set<nat> {
    set i | i in places :: i + 1
  }

  lemma {:induction false} Shifted(places: set<nat>)
    ensures |Shift(places)| == |places|
  {
    if places != {} {
      var k :| k in places;
      Shifted(places - {k});
      assert Shift(places) == Shift(places - {k}) + {k + 1} by {
        assert forall i :: i in places ==> i == k || i in places - {k};
      }
    }
  }

  /** Tags are joined with single spaces. */
  lemma {:induction false} Joined(a: seq<string>, b: seq<string>, tag: string)
    ensures Join([]) == "" && Join([tag]) == tag
    ensures a != [] && b != [] ==> Join(a + b) == Join(a) + " " + Join(b)
  {
    if a != [] && b != [] {
      assert a + b == [a[0]] + (a[1..] + b);
      if |a| == 1 {
        assert a[1..] + b == b;
      } else {
        Joined(a[1..], b, tag);
      }
    }
  }

  // ---------------------------------------------------------------- the order

  /** Higher score, then more recent, then smaller id. */
  predicate Before(a: Scored, b: Scored) {
    || a.score > b.score
    || (a.score == b.score && a.record.updated > b.record.updated)
    || (a.score == b.score && a.record.updated == b.record.updated && a.record.id < b.record.id)
  }

  ghost predicate IdsDiffer(items: seq<Scored>) {
    forall i, j :: 0 <= i < j < |items| ==> items[i].record.id != items[j].record.id
  }

  ghost predicate Ordered(items: seq<Scored>) {
    forall i, j :: 0 <= i < j < |items| ==> Before(items[i], items[j])
  }

  function Insert(x: Scored, items: seq<Scored>): seq<Scored> {
    if items == [] || Before(x, items[0]) then [x] + items else [items[0]] + Insert(x, items[1..])
  }

  function Sort(items: seq<Scored>): seq<Scored> {
    if items == [] then [] else Insert(items[0], Sort(items[1..]))
  }

  lemma {:induction false} InsertKeeps(x: Scored, items: seq<Scored>)
    ensures multiset(Insert(x, items)) == multiset{x} + multiset(items)
  {
    if items != [] && !Before(x, items[0]) {
      InsertKeeps(x, items[1..]);
      assert items == [items[0]] + items[1..];
    }
  }

  lemma {:induction false} SortKeeps(items: seq<Scored>)
    ensures multiset(Sort(items)) == multiset(items)
  {
    if items != [] {
      SortKeeps(items[1..]);
      InsertKeeps(items[0], Sort(items[1..]));
      assert items == [items[0]] + items[1..];
    }
  }

  lemma {:induction false} InsertOrders(x: Scored, items: seq<Scored>)
    requires Ordered(items) && forall y :: y in items ==> y.record.id != x.record.id
    ensures Ordered(Insert(x, items))
  {
    if items != [] {
      var rest := Insert(x, items[1..]);
      if Before(x, items[0]) {
        forall j | 0 <= j < |items|
          ensures Before(x, items[j])
        {
        }
      } else {
        InsertOrders(x, items[1..]);
        InsertKeeps(x, items[1..]);
        forall y | y in rest
          ensures Before(items[0], y)
        {
          assert y in multiset(rest);
          assert y == x || y in items[1..];
          assert items[0] in items;
        }
      }
    }
  }

  lemma {:induction false} SortOrders(items: seq<Scored>)
    requires IdsDiffer(items)
    ensures Ordered(Sort(items))
  {
    if items != [] {
      SortOrders(items[1..]);
      SortKeeps(items[1..]);
      forall y | y in Sort(items[1..])
        ensures y.record.id != items[0].record.id
      {
        assert y in multiset(Sort(items[1..]));
        assert y in items[1..];
      }
      InsertOrders(items[0], Sort(items[1..]));
    }
  }

  lemma FirstIsSmallest(a: seq<Scored>, b: seq<Scored>)
    requires Ordered(a) && Ordered(b) && multiset(a) == multiset(b) && a != []
    ensures b != [] && a[0] == b[0]
  {
    assert a[0] in multiset(a);
    assert a[0] in b;
    assert b[0] in multiset(b);
    assert b[0] in a;
  }

  /** There is only one ordered arrangement. */
  lemma {:induction false} OrderIsUnique(a: seq<Scored>, b: seq<Scored>)
    requires Ordered(a) && Ordered(b) && multiset(a) == multiset(b)
    ensures a == b
  {
    if a == [] {
      assert |a| == |multiset(a)| == |b|;
    } else {
      FirstIsSmallest(a, b);
      assert a == [a[0]] + a[1..] && b == [b[0]] + b[1..];
      assert multiset(a[1..]) == multiset(a) - multiset{a[0]};
      assert multiset(b[1..]) == multiset(b) - multiset{b[0]};
      OrderIsUnique(a[1..], b[1..]);
    }
  }

  // ---------------------------------------------------------------- packing

  function Size(item: Scored): nat {
    |item.record.content|
  }

  function TotalSize(items: seq<Scored>): nat {
    if items == [] then 0 else TotalSize(items[..|items| - 1]) + Size(items[|items| - 1])
  }

  /** What is taken of the first candidates: each one that still fits when its turn comes. */
  function Packed(items: seq<Scored>, lim: Limits): seq<Scored> {
    if items == [] then []
    else
      var before := Packed(items[..|items| - 1], lim);
      if Fits(before, items[|items| - 1], lim) then before + [items[|items| - 1]] else before
  }

  /** There is room for another result, there are characters left, and the content is no longer than those. */
  predicate Fits(taken: seq<Scored>, item: Scored, lim: Limits) {
    && |taken| < lim.results
    && TotalSize(taken) < lim.chars
    && TotalSize(taken) + Size(item) <= lim.chars
  }

  function Ranked(items: seq<Scored>): seq<Match> {
    seq(|items|, i requires 0 <= i < |items| => Match(items[i].record, i + 1, items[i].score))
  }

  /** Count and characters respect both limits. */
  lemma {:induction false} PackedWithinLimits(items: seq<Scored>, lim: Limits)
    ensures |Packed(items, lim)| <= lim.results
    ensures Packed(items, lim) != [] ==> TotalSize(Packed(items, lim)) <= lim.chars
  {
    if items != [] {
      PackedWithinLimits(items[..|items| - 1], lim);
      var before, last := Packed(items[..|items| - 1], lim), items[|items| - 1];
      assert (before + [last])[..|before|] == before;
    }
  }

  /** A candidate is taken exactly if it fitted at its turn, after what had been taken before it. */
  lemma {:induction false} TakenIfFitting(items: seq<Scored>, lim: Limits, i: nat)
    requires i < |items| && IdsDiffer(items)
    ensures items[i] in Packed(items, lim) <==> Fits(Packed(items[..i], lim), items[i], lim)
    decreases |items|
  {
    var front, last := items[..|items| - 1], items[|items| - 1];
    PackedAreCandidates(front, lim);
    if i < |front| {
      TakenIfFitting(front, lim, i);
      assert front[..i] == items[..i];
      assert items[i] != last;
    } else {
      assert items[..i] == front;
    }
  }

  lemma {:induction false} PackedAreCandidates(items: seq<Scored>, lim: Limits)
    ensures forall x :: x in Packed(items, lim) ==> x in items
  {
    if items != [] {
      PackedAreCandidates(items[..|items| - 1], lim);
      assert items == items[..|items| - 1] + [items[|items| - 1]];
    }
  }

  /** The results keep the order of the candidates. */
  lemma {:induction false} PackedInOrder(items: seq<Scored>, lim: Limits)
    requires Ordered(items)
    ensures Ordered(Packed(items, lim))
  {
    if items != [] {
      var front, last := items[..|items| - 1], items[|items| - 1];
      PackedInOrder(front, lim);
      PackedAreCandidates(front, lim);
      var before := Packed(front, lim);
      forall i | 0 <= i < |before|
        ensures Before(before[i], last)
      {
        assert before[i] in before;
        var j :| 0 <= j < |front| && front[j] == before[i];
        assert Before(items[j], items[|items| - 1]);
      }
    }
  }

  /** Once a limit is reached nothing more is taken, so the loop may stop there. */
  lemma {:induction false} NothingFitsLater(items: seq<Scored>, k: nat, lim: Limits)
    requires k <= |items|
    requires |Packed(items[..k], lim)| >= lim.results || TotalSize(Packed(items[..k], lim)) >= lim.chars
    ensures Packed(items, lim) == Packed(items[..k], lim)
    decreases |items| - k
  {
    if k == |items| {
      assert items[..k] == items;
    } else {
      assert items[..|items| - 1][..k] == items[..k];
      NothingFitsLater(items[..|items| - 1], k, lim);
    }
  }

  // ---------------------------------------------------------------- the search

  function Expected(records: seq<Record>, terms: seq<string>, fold: string -> string, lim: Limits): seq<Match> {
    Ranked(Packed(Sort(Relevant(records, terms, fold)), lim))
  }

  ghost predicate RecordIdsDiffer(records: seq<Record>) {
    forall i, j :: 0 <= i < j < |records| ==> records[i].id != records[j].id
  }

  /** `search`, from the candidates the repository returns to the packed matches. */
  method Search(records: seq<Record>, terms: seq<string>, fold: string -> string, lim: Limits)
    returns (matches: seq<Match>)
    ensures matches == Expected(records, terms, fold, lim)
  {
    hide Sort, Packed, Score, TotalSize;
    var scored: seq<Scored> := [];
    var i := 0;
    while i < |records|
      invariant i <= |records| && scored == Relevant(records[..i], terms, fold)
    {
      var score := Score(records[i], terms, fold);
      assert records[..i + 1][..i] == records[..i];
      if terms == [] || score > 0 {
        scored := scored + [Scored(records[i], score)];
      }
      i := i + 1;
    }
    assert records[..|records|] == records;
    scored := Sort(scored);
    matches := [];
    var contextChars := 0;
    ghost var taken: seq<Scored> := [];
    i := 0;
    NothingTaken(scored, lim);
    while i < |scored|
      invariant i <= |scored| && taken == Packed(scored[..i], lim)
      invariant matches == Ranked(taken) && contextChars == TotalSize(taken)
    {
      var remaining := lim.chars - contextChars;
      if |matches| >= lim.results || remaining <= 0 {
        NothingFitsLater(scored, i, lim);
        return;
      }
      PackedStep(scored, i, lim);
      if |scored[i].record.content| <= remaining {
        matches := matches + [Match(scored[i].record, |matches| + 1, scored[i].score)];
        contextChars := contextChars + |scored[i].record.content|;
        TotalStep(taken, scored[i]);
        taken := taken + [scored[i]];
      }
      i := i + 1;
    }
    assert scored[..|scored|] == scored;
  }

  lemma NothingTaken(items: seq<Scored>, lim: Limits)
    ensures Packed(items[..0], lim) == [] && TotalSize([]) == 0
  {
  }

  lemma PackedStep(items: seq<Scored>, k: nat, lim: Limits)
    requires k < |items|
    ensures Packed(items[..k + 1], lim)
            == if Fits(Packed(items[..k], lim), items[k], lim) then Packed(items[..k], lim) + [items[k]]
               else Packed(items[..k], lim)
  {
    assert items[..k + 1][..k] == items[..k];
  }

  lemma TotalStep(items: seq<Scored>, item: Scored)
    ensures TotalSize(items + [item]) == TotalSize(items) + Size(item)
  {
    assert (items + [item])[..|items|] == items;
  }

  lemma {:induction false} RelevantIdsDiffer(records: seq<Record>, terms: seq<string>, fold: string -> string)
    requires RecordIdsDiffer(records)
    ensures IdsDiffer(Relevant(records, terms, fold))
    ensures forall item :: item in Relevant(records, terms, fold) ==> item.record in records
  {
    hide Score;
    if records != [] {
      RelevantIdsDiffer(records[..|records| - 1], terms, fold);
      assert records == records[..|records| - 1] + [records[|records| - 1]];
    }
  }

  ghost predicate SomeTermIn(haystack: string, terms: seq<string>) {
    exists term :: term in terms && Contains(haystack, term)
  }

  lemma {:induction false} CountsSomeTerm(haystack: string, terms: seq<string>)
    ensures CountIn(haystack, terms) > 0 <==> SomeTermIn(haystack, terms)
  {
    hide Contains;
    if terms != [] {
      CountsSomeTerm(haystack, terms[1..]);
      assert terms == [terms[0]] + terms[1..];
      if SomeTermIn(haystack, terms) {
        var term :| term in terms && Contains(haystack, term);
        assert term == terms[0] || term in terms[1..];
      } else {
        assert terms[0] in terms;
        assert forall term :: term in terms[1..] ==> term in terms;
      }
    }
  }

  /** A record is ranked exactly if some term occurs in its folded content and tags, or if there are no terms. */
  lemma {:induction false} RelevantExactly(records: seq<Record>, terms: seq<string>, fold: string -> string, r: Record)
    ensures Scored(r, Score(r, terms, fold)) in Relevant(records, terms, fold)
            <==> r in records && (terms == [] || SomeTermIn(fold(r.content + " " + Join(r.tags)), terms))
  {
    CountsSomeTerm(fold(r.content + " " + Join(r.tags)), terms);
    hide SomeTermIn;
    if records != [] {
      RelevantExactly(records[..|records| - 1], terms, fold, r);
      assert records == records[..|records| - 1] + [records[|records| - 1]];
    }
  }

  /** A better match: a higher score, or else more recent, or else of a smaller id. */
  ghost predicate Better(a: Match, b: Match) {
    if a.score != b.score then a.score > b.score
    else if a.record.updated != b.record.updated then a.record.updated > b.record.updated
    else a.record.id < b.record.id
  }

  function Chars(items: seq<Scored>): nat {
    if items == [] then 0 else |items[0].record.content| + Chars(items[1..])
  }

  lemma {:induction false} CharsAppend(a: seq<Scored>, b: seq<Scored>)
    ensures Chars(a + b) == Chars(a) + Chars(b)
  {
    if a == [] {
      assert a + b == b;
    } else {
      CharsAppend(a[1..], b);
      assert a + b == [a[0]] + (a[1..] + b);
    }
  }

  lemma {:induction false} TotalIsChars(items: seq<Scored>)
    ensures TotalSize(items) == Chars(items)
  {
    if items != [] {
      TotalIsChars(items[..|items| - 1]);
      assert items == items[..|items| - 1] + [items[|items| - 1]];
      CharsAppend(items[..|items| - 1], [items[|items| - 1]]);
    }
  }

  /** Going down the candidates, this one was taken: there was room for another result, some characters were left, and
      its content was no longer than those. */
  ghost predicate HadRoom(candidates: seq<Scored>, i: nat, lim: Limits)
    requires i < |candidates|
  {
    var taken := Packed(candidates[..i], lim);
    && |taken| < lim.results && Chars(taken) < lim.chars
    && Chars(taken) + |candidates[i].record.content| <= lim.chars
  }

  lemma HadRoomExactly(candidates: seq<Scored>, i: nat, lim: Limits)
    requires i < |candidates| && IdsDiffer(candidates)
    ensures candidates[i] in Packed(candidates, lim) <==> HadRoom(candidates, i, lim)
  {
    hide Packed, TotalSize, Chars, IdsDiffer;
    TakenIfFitting(candidates, lim, i);
    TotalIsChars(Packed(candidates[..i], lim));
  }

  /** What the search returns: the candidates with at least one term, each with its score, best first; of them each one
      that had room when its turn came, in order, ranked 1..k, within both limits. */
  lemma SearchIsGreedy(records: seq<Record>, terms: seq<string>, fold: string -> string, lim: Limits)
    requires RecordIdsDiffer(records)
    ensures var matches := Expected(records, terms, fold, lim);
            var candidates := Sort(Relevant(records, terms, fold));
            var taken := Packed(candidates, lim);
            && multiset(candidates) == multiset(Relevant(records, terms, fold))
            && |matches| == |taken| <= lim.results
            && (matches != [] ==> Chars(taken) <= lim.chars)
            && (forall i :: 0 <= i < |matches| ==> matches[i] == Match(taken[i].record, i + 1, taken[i].score))
            && (forall i, j :: 0 <= i < j < |matches| ==> Better(matches[i], matches[j]))
            && (forall i, j :: 0 <= i < j < |candidates| ==>
                  Better(Match(candidates[i].record, i, candidates[i].score),
                         Match(candidates[j].record, j, candidates[j].score)))
            && (forall x :: x in taken ==> x in candidates)
            && (forall i :: 0 <= i < |candidates| ==> (candidates[i] in taken <==> HadRoom(candidates, i, lim)))
  {
    hide Sort, Packed, HadRoom, Relevant, TotalSize, Chars;
    var relevant := Relevant(records, terms, fold);
    var candidates := Sort(relevant);
    RelevantIdsDiffer(records, terms, fold);
    SortKeeps(relevant);
    SortOrders(relevant);
    PackedWithinLimits(candidates, lim);
    PackedInOrder(candidates, lim);
    PackedAreCandidates(candidates, lim);
    TotalIsChars(Packed(candidates, lim));
    OrderedIdsDiffer(candidates, relevant);
    forall i | 0 <= i < |candidates|
      ensures candidates[i] in Packed(candidates, lim) <==> HadRoom(candidates, i, lim)
    {
      HadRoomExactly(candidates, i, lim);
    }
  }

  /** No two ordered candidates are the same record: equal ids would have to be one entry listed twice. */
  lemma OrderedIdsDiffer(candidates: seq<Scored>, relevant: seq<Scored>)
    requires candidates == Sort(relevant) && IdsDiffer(relevant) && Ordered(candidates)
    ensures IdsDiffer(candidates)
  {
    hide Sort;
    SortKeeps(relevant);
    forall i, j | 0 <= i < j < |candidates|
      ensures candidates[i].record.id != candidates[j].record.id
    {
      assert candidates[i] in multiset(candidates) && candidates[j] in multiset(candidates);
      assert candidates[i] in relevant && candidates[j] in relevant;
      assert candidates[i] != candidates[j];
    }
  }

  lemma {:induction false} RelevantOf(records: seq<Record>, terms: seq<string>, fold: string -> string, item: Scored)
    requires RecordIdsDiffer(records)
    ensures multiset(Relevant(records, terms, fold))[item]
            == if item.record in records && item.score == Score(item.record, terms, fold)
                  && (terms == [] || item.score > 0) then 1 else 0
  {
    hide Score;
    if records != [] {
      RelevantOf(records[..|records| - 1], terms, fold, item);
      assert records == records[..|records| - 1] + [records[|records| - 1]];
    }
  }

  /** The answer does not depend on the order in which the repository returns the candidates. */
  lemma AnyOrderOfCandidates(records: seq<Record>, shuffled: seq<Record>, terms: seq<string>, fold: string -> string,
                             lim: Limits)
    requires RecordIdsDiffer(records) && RecordIdsDiffer(shuffled)
    requires forall r :: r in records <==> r in shuffled
    ensures Expected(records, terms, fold, lim) == Expected(shuffled, terms, fold, lim)
  {
    hide Sort, Packed, Relevant, Score;
    var a, b := Relevant(records, terms, fold), Relevant(shuffled, terms, fold);
    forall item
      ensures multiset(a)[item] == multiset(b)[item]
    {
      RelevantOf(records, terms, fold, item);
      RelevantOf(shuffled, terms, fold, item);
    }
    assert multiset(a) == multiset(b);
    RelevantIdsDiffer(records, terms, fold);
    RelevantIdsDiffer(shuffled, terms, fold);
    SortOrders(a);
    SortOrders(b);
    SortKeeps(a);
    SortKeeps(b);
    OrderIsUnique(Sort(a), Sort(b));
  }

  // ---------------------------------------------------------------- tags

  datatype TagLimits = TagLimits(tags: nat, chars: nat)

  datatype TagsResult = Tags(normalized: seq<string>) | TooManyTags | InvalidTag

  /** Some tag strips to `t`. */
  ghost predicate Named(tags: seq<string>, strip: string -> string, t: string) {
    exists i :: 0 <= i < |tags| && strip(tags[i]) == t
  }

  /** `t` appears before `u` does. */
  ghost predicate Precedes(tags: seq<string>, strip: string -> string, t: string, u: string) {
    exists i :: 0 <= i < |tags| && strip(tags[i]) == t && !Named(tags[..i], strip, u)
  }

  /** `_normalize_tags`, where `strip` stands for `str.strip`: every tag must be usable, and the answer names each
      stripped tag once, in the order of first appearance. */
  method NormalizeTags(tags: seq<string>, strip: string -> string, lim: TagLimits) returns (result: TagsResult)
    ensures result.TooManyTags? <==> |tags| > lim.tags
    ensures result.InvalidTag? <==>
              |tags| <= lim.tags
              && exists i :: 0 <= i < |tags| && (strip(tags[i]) == "" || |strip(tags[i])| > lim.chars)
    ensures result.Tags? ==>
              && Distinct(result.normalized)
              && (forall t :: t in result.normalized <==> Named(tags, strip, t))
              && (forall a, b :: 0 <= a < b < |result.normalized| ==>
                    Precedes(tags, strip, result.normalized[a], result.normalized[b]))
  {
    hide Named, Precedes;
    if |tags| > lim.tags {
      return TooManyTags;
    }
    var normalized: seq<string> := [];
    var k := 0;
    while k < |tags|
      invariant k <= |tags| && normalized == FirstOf(tags[..k], strip)
      invariant forall i :: 0 <= i < k ==> 0 < |strip(tags[i])| <= lim.chars
    {
      var value := strip(tags[k]);
      if value == "" || |value| > lim.chars {
        return InvalidTag;
      }
      assert tags[..k + 1][..k] == tags[..k];
      if value !in normalized {
        normalized := normalized + [value];
      }
      k := k + 1;
    }
    assert tags[..|tags|] == tags;
    FirstOfIs(tags, strip);
    result := Tags(normalized);
  }

  function FirstOf(tags: seq<string>, strip: string -> string): seq<string> {
    if tags == [] then []
    else
      var before, value := FirstOf(tags[..|tags| - 1], strip), strip(tags[|tags| - 1]);
      if value in before then before else before + [value]
  }

  lemma NamedStep(tags: seq<string>, strip: string -> string, t: string)
    requires tags != []
    ensures Named(tags, strip, t) <==> Named(tags[..|tags| - 1], strip, t) || strip(tags[|tags| - 1]) == t
  {
    var front := tags[..|tags| - 1];
    if Named(front, strip, t) {
      var i :| 0 <= i < |front| && strip(front[i]) == t;
      assert strip(tags[i]) == t;
    }
    if Named(tags, strip, t) {
      var i :| 0 <= i < |tags| && strip(tags[i]) == t;
      assert i < |front| ==> strip(front[i]) == t;
    }
  }

  lemma {:induction false} FirstOfNamed(tags: seq<string>, strip: string -> string, t: string)
    ensures t in FirstOf(tags, strip) <==> Named(tags, strip, t)
  {
    if tags != [] {
      FirstOfNamed(tags[..|tags| - 1], strip, t);
      NamedStep(tags, strip, t);
    }
  }

  lemma {:induction false} FirstOfDistinct(tags: seq<string>, strip: string -> string)
    ensures Distinct(FirstOf(tags, strip))
  {
    if tags != [] {
      FirstOfDistinct(tags[..|tags| - 1], strip);
    }
  }

  lemma {:induction false} FirstOfInOrder(tags: seq<string>, strip: string -> string, a: nat, b: nat)
    requires a < b < |FirstOf(tags, strip)|
    ensures Precedes(tags, strip, FirstOf(tags, strip)[a], FirstOf(tags, strip)[b])
  {
    hide Named;
    var front := tags[..|tags| - 1];
    var before, t, u := FirstOf(front, strip), FirstOf(tags, strip)[a], FirstOf(tags, strip)[b];
    if b < |before| {
      FirstOfInOrder(front, strip, a, b);
      var i :| 0 <= i < |front| && strip(front[i]) == t && !Named(front[..i], strip, u);
      assert front[..i] == tags[..i];
    } else {
      FirstOfNamed(front, strip, t);
      FirstOfNamed(front, strip, u);
      NamedBefore(tags, strip, t, u);
    }
  }

  lemma NamedBefore(tags: seq<string>, strip: string -> string, t: string, u: string)
    requires tags != [] && Named(tags[..|tags| - 1], strip, t) && !Named(tags[..|tags| - 1], strip, u)
    ensures Precedes(tags, strip, t, u)
  {
    var front := tags[..|tags| - 1];
    var i :| 0 <= i < |front| && strip(front[i]) == t;
    assert !Named(tags[..i], strip, u) by {
      forall j | 0 <= j < i
        ensures strip(tags[..i][j]) != u
      {
        assert front[j] == tags[j];
      }
    }
  }

  lemma FirstOfIs(tags: seq<string>, strip: string -> string)
    ensures var normalized := FirstOf(tags, strip);
            && Distinct(normalized)
            && (forall t :: t in normalized <==> Named(tags, strip, t))
            && (forall a, b :: 0 <= a < b < |normalized| ==> Precedes(tags, strip, normalized[a], normalized[b]))
  {
    hide FirstOf, Named, Precedes, Distinct;
    FirstOfDistinct(tags, strip);
    forall t
      ensures t in FirstOf(tags, strip) <==> Named(tags, strip, t)
    {
      FirstOfNamed(tags, strip, t);
    }
    forall a, b | 0 <= a < b < |FirstOf(tags, strip)|
      ensures Precedes(tags, strip, FirstOf(tags, strip)[a], FirstOf(tags, strip)[b])
    {
      FirstOfInOrder(tags, strip, a, b);
    }
  }
}
