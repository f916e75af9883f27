/** runtime/team.py: the length-bounded text handed to a worker and to the synthesis call. */
module BoundedContexts {
  import opened Prelude

  datatype Result = Result(node: string, output: string)

  const OPENING := "\n<agentgraph_upstream_results>"
  const CLOSING := "\n</agentgraph_upstream_results>"
  const FOOTER := "\n</result>"
  const MARKER := "[truncated]"

  function Header(node: string): string {
    "\n<result node=\"" + node + "\">\n"
  }

  /** Characters a section costs before any of its output. */
  function Wrapper(node: string): nat {
    |Header(node)| + |FOOTER|
  }

  function Max(a: int, b: int): int {
    if a < b then b else a
  }

  function Shown(output: string, available: nat): string {
    var cut := if |output| <= available then output else output[..available];
    if |output| > available && available >= 16 then cut[..available - 15] + MARKER else cut
  }

  function Section(r: Result, remaining: int): string {
    Header(r.node) + Shown(r.output, Max(0, remaining - Wrapper(r.node))) + FOOTER
  }

  /** The sections written with `remaining` characters left: the text stops after the first one that
      leaves nothing. */
  function Sections(results: seq<Result>, remaining: int): (sections: seq<string>)
    ensures |sections| <= |results| && (results != [] ==> sections != [])
  {
    if results == [] then []
    else
      var section := Section(results[0], remaining);
      if remaining - |section| <= 0 then [section]
      else [section] + Sections(results[1..], remaining - |section|)
  }

  function Concat(parts: seq<string>): string {
    if parts == [] then "" else parts[0] + Concat(parts[1..])
  }

  function Budget(base: string, maximum: int): nat {
    Max(0, maximum - |base + OPENING| - |CLOSING|)
  }

  function Render(base: string, results: seq<Result>, maximum: int): string {
    base + OPENING + Concat(Sections(results, Budget(base, maximum))) + CLOSING
  }

  function WorkerBase(request: string, instructions: Option<string>): string {
    "<agentgraph_request>\n" + request + "\n</agentgraph_request>" +
    if instructions.None? || instructions.value == "" then ""
    else "\n<agentgraph_node_instructions>\n" + instructions.value + "\n</agentgraph_node_instructions>"
  }

  function WorkerInput(request: string, instructions: Option<string>, results: seq<Result>, maximum: int): string {
    Render(WorkerBase(request, instructions), results, maximum)
  }

  lemma ConcatCons(part: string, rest: seq<string>)
    ensures Concat([part] + rest) == part + Concat(rest)
  {
    assert ([part] + rest)[1..] == rest;
  }

  function Total(parts: seq<string>): nat {
    if parts == [] then 0 else |parts[0]| + Total(parts[1..])
  }

  lemma {:induction false} ConcatLength(parts: seq<string>)
    ensures |Concat(parts)| == Total(parts)
  {
    if parts != [] {
      ConcatLength(parts[1..]);
    }
  }

  lemma TotalCons(part: string, rest: seq<string>)
    ensures Total([part] + rest) == |part| + Total(rest)
  {
    assert ([part] + rest)[1..] == rest;
  }

  lemma ConcatOne(part: string)
    ensures Concat([part]) == part
  {
    ConcatCons(part, []);
    assert [part] + [] == [part];
  }

  /** One turn of the loop: what is written now, and what the rest will write. */
  lemma WriteSection(results: seq<Result>, remaining: int)
    requires results != []
    ensures var section := Section(results[0], remaining);
            Concat(Sections(results, remaining)) == section + Following(results[1..], remaining - |section|)
  {
    var section := Section(results[0], remaining);
    if remaining - |section| <= 0 {
      ConcatOne(section);
    } else {
      ConcatCons(section, Sections(results[1..], remaining - |section|));
    }
  }

  lemma WriteStep(results: seq<Result>, remaining: int, joined: string)
    requires results != []
    ensures var section := Section(results[0], remaining);
            joined + Concat(Sections(results, remaining))
            == (joined + section) + Following(results[1..], remaining - |section|)
  {
    var section := Section(results[0], remaining);
    WriteSection(results, remaining);
    Associates(joined, section, Following(results[1..], remaining - |section|));
  }

  function Size(r: Result, remaining: int): nat {
    |Section(r, remaining)|
  }

  /** What is still written after a section that leaves `left`. */
  function Following(results: seq<Result>, left: int): string {
    if left <= 0 then "" else Concat(Sections(results, left))
  }

  lemma Associates(a: string, b: string, c: string)
    ensures (a + b) + c == a + (b + c)
  {
  }

  /** The loop of `_bounded_context`: `remaining` shrinks, `joined` grows. */
  method BoundedContext(base: string, results: seq<Result>, maximum: int) returns (text: string)
    ensures text == Render(base, results, maximum)
  {
    hide Concat, Sections, Section;
    var prefix, suffix := base + OPENING, CLOSING;
    var remaining: int := Max(0, maximum - |prefix| - |suffix|);
    var joined := "";
    ghost var target := Concat(Sections(results, Budget(base, maximum)));
    assert results[0..] == results;
    for i := 0 to |results|
      invariant target == joined + Concat(Sections(results[i..], remaining))
    {
      var section := WriteResult(results[i], remaining);
      WriteStep(results[i..], remaining, joined);
      assert results[i..][1..] == results[i + 1..];
      joined := joined + section;
      remaining := remaining - |section|;
      if remaining <= 0 {
        break;
      }
    }
    assert results[|results|..] == [];
    NothingWritten(remaining);
    assert target == joined;
    text := prefix + joined + suffix;
  }

  method WriteResult(r: Result, remaining: int) returns (section: string)
    ensures section == Section(r, remaining)
  {
    var header := Header(r.node);
    var available := Max(0, remaining - |header| - |FOOTER|);
    var value := r.output[..if |r.output| < available then |r.output| else available];
    if |r.output| > available && available >= 16 {
      value := value[..available - 15] + MARKER;
    }
    section := header + value + FOOTER;
  }

  // ---------------------------------------------------------------- what the text contains

  /** Every section is a result of the list, in place: its output whole, cut short, or cut short and marked. */
  lemma {:induction false} SectionsFollowResults(results: seq<Result>, remaining: int, k: nat)
    requires k < |Sections(results, remaining)|
    ensures exists shown :: IsExcerpt(shown, results[k].output)
                            && Sections(results, remaining)[k] == Header(results[k].node) + shown + FOOTER
  {
    var r := results[0];
    if k == 0 {
      var available := Max(0, remaining - Wrapper(r.node));
      ShownIsExcerpt(r.output, available);
      assert IsExcerpt(Shown(r.output, available), r.output);
    } else {
      var left := remaining - |Section(r, remaining)|;
      SectionsFollowResults(results[1..], left, k - 1);
      assert Sections(results, remaining)[k] == Sections(results[1..], left)[k - 1];
      assert results[k] == results[1..][k - 1];
    }
  }

  /** A prefix, or a strict prefix of at least one character followed by the marker. */
  ghost predicate IsExcerpt(shown: string, output: string) {
    || shown <= output
    || exists n :: 0 < n && n + 15 < |output| && shown == output[..n] + MARKER
  }

  lemma ShownIsExcerpt(output: string, available: nat)
    ensures IsExcerpt(Shown(output, available), output)
    ensures |Shown(output, available)| <= available
    ensures |output| <= available ==> Shown(output, available) == output
  {
    if |output| > available && available >= 16 {
      assert Shown(output, available) == output[..available - 15] + MARKER;
    }
  }

  // ---------------------------------------------------------------- the text word for word

  /** What is shown of an output when so many characters are left for it. */
  ghost predicate ShowsIn(output: string, room: int, shown: string) {
    if |output| <= room then shown == output
    else if room >= 16 then shown == output[..room - 15] + "[truncated]"
    else if room > 0 then shown == output[..room]
    else shown == ""
  }

  /** The section written for a result when so many characters are left in all. */
  ghost predicate SectionReads(r: Result, left: int, section: string) {
    exists shown ::
      && section == "\n<result node=\"" + r.node + "\">\n" + shown + "\n</result>"
      && ShowsIn(r.output, left - |"\n<result node=\"" + r.node + "\">\n"| - |"\n</result>"|, shown)
  }

  /** Section after section, until nothing is left; `left` says how much there is before each one and in the end. */
  ghost predicate SectionsRead(results: seq<Result>, left: seq<int>, sections: seq<string>) {
    && |sections| <= |results| && |left| == |sections| + 1
    && (forall k :: 0 <= k < |sections| ==>
          SectionReads(results[k], left[k], sections[k]) && left[k + 1] == left[k] - |sections[k]|)
    && (forall k :: 0 < k < |sections| ==> left[k] > 0)
    && (|sections| < |results| ==> sections != [] && left[|sections|] <= 0)
  }

  lemma ShownReads(output: string, room: int)
    ensures ShowsIn(output, room, Shown(output, Max(0, room)))
  {
  }

  lemma SectionIs(r: Result, left: int)
    ensures SectionReads(r, left, Section(r, left))
  {
    var room := left - Wrapper(r.node);
    var shown := Shown(r.output, Max(0, room));
    ShownReads(r.output, room);
    hide ShowsIn, Shown;
    assert Section(r, left) == "\n<result node=\"" + r.node + "\">\n" + shown + "\n</result>";
  }

  lemma SectionsReadOne(results: seq<Result>, remaining: int, section: string)
    requires results != [] && SectionReads(results[0], remaining, section) && remaining - |section| <= 0
    ensures SectionsRead(results, [remaining, remaining - |section|], [section])
  {
    hide SectionReads;
  }

  lemma SectionsReadCons(results: seq<Result>, remaining: int, section: string, rest: seq<int>, sections: seq<string>)
    requires results != [] && SectionReads(results[0], remaining, section) && remaining - |section| > 0
    requires SectionsRead(results[1..], rest, sections) && rest[0] == remaining - |section|
    ensures SectionsRead(results, [remaining] + rest, [section] + sections)
  {
    hide SectionReads;
    var left, all := [remaining] + rest, [section] + sections;
    forall k | 0 <= k < |all|
      ensures SectionReads(results[k], left[k], all[k]) && left[k + 1] == left[k] - |all[k]|
    {
      if k > 0 {
        assert SectionReads(results[1..][k - 1], rest[k - 1], sections[k - 1]);
      }
    }
    assert forall k :: 0 < k < |all| ==> left[k] == rest[k - 1];
  }

  lemma {:induction false} SectionsTrace(results: seq<Result>, remaining: int) returns (left: seq<int>)
    ensures SectionsRead(results, left, Sections(results, remaining)) && |left| > 0 && left[0] == remaining
  {
    hide Section, SectionReads, SectionsRead;
    if results == [] {
      NothingRead(remaining);
      left := [remaining];
    } else {
      var section := Section(results[0], remaining);
      SectionIs(results[0], remaining);
      if remaining - |section| <= 0 {
        SectionsReadOne(results, remaining, section);
        left := [remaining, remaining - |section|];
      } else {
        var rest := SectionsTrace(results[1..], remaining - |section|);
        SectionsReadCons(results, remaining, section, rest, Sections(results[1..], remaining - |section|));
        left := [remaining] + rest;
      }
    }
  }

  lemma NothingRead(remaining: int)
    ensures SectionsRead([], [remaining], [])
  {
  }

  /** The whole text: the base, the opening line, the sections one after another, the closing line. What is left for the
      sections in the beginning is the maximum less the frame, or nothing. */
  lemma TextReads(base: string, results: seq<Result>, maximum: int) returns (sections: seq<string>, left: seq<int>)
    ensures Render(base, results, maximum)
            == base + "\n<agentgraph_upstream_results>" + Concat(sections) + "\n</agentgraph_upstream_results>"
    ensures SectionsRead(results, left, sections)
    ensures var room := maximum - |base + "\n<agentgraph_upstream_results>"| - |"\n</agentgraph_upstream_results>"|;
            left[0] == if room < 0 then 0 else room
  {
    hide Sections, SectionsRead, Concat;
    sections := Sections(results, Budget(base, maximum));
    left := SectionsTrace(results, Budget(base, maximum));
  }

  /** The base of a worker's text: its request, and its instructions if it has any. */
  lemma WorkerInputReads(request: string, instructions: Option<string>, results: seq<Result>, maximum: int)
    ensures instructions == None || instructions == Some("") ==>
              WorkerInput(request, instructions, results, maximum)
              == Render("<agentgraph_request>\n" + request + "\n</agentgraph_request>", results, maximum)
    ensures instructions.Some? && instructions.value != "" ==>
              WorkerInput(request, instructions, results, maximum)
              == Render("<agentgraph_request>\n" + request + "\n</agentgraph_request>"
                        + "\n<agentgraph_node_instructions>\n" + instructions.value
                        + "\n</agentgraph_node_instructions>", results, maximum)
  {
    hide Render;
    if instructions.Some? && instructions.value != "" {
      var base := "<agentgraph_request>\n" + request + "\n</agentgraph_request>";
      var notes := instructions.value;
      assert WorkerBase(request, instructions)
             == base + ("\n<agentgraph_node_instructions>\n" + notes + "\n</agentgraph_node_instructions>");
      assert WorkerBase(request, instructions)
             == base + "\n<agentgraph_node_instructions>\n" + notes + "\n</agentgraph_node_instructions>";
    } else {
      assert "<agentgraph_request>\n" + request + "\n</agentgraph_request>" + ""
             == "<agentgraph_request>\n" + request + "\n</agentgraph_request>";
    }
  }

  // ---------------------------------------------------------------- how long the text is

  lemma SizeBounds(r: Result, remaining: int)
    ensures remaining >= Wrapper(r.node) ==> 0 < Size(r, remaining) <= remaining
    ensures remaining < Wrapper(r.node) ==> Size(r, remaining) == Wrapper(r.node)
  {
    ShownIsExcerpt(r.output, Max(0, remaining - Wrapper(r.node)));
  }

  /** Some section is begun with less left than its own wrapper. */
  ghost predicate Overruns(results: seq<Result>, remaining: int) {
    && results != []
    && var left := remaining - Size(results[0], remaining);
       remaining < Wrapper(results[0].node) || (left > 0 && Overruns(results[1..], left))
  }

  ghost function Written(results: seq<Result>, remaining: int): nat {
    if results == [] then 0
    else
      var size := Size(results[0], remaining);
      size + if remaining - size <= 0 then 0 else Written(results[1..], remaining - size)
  }

  lemma LengthStep(results: seq<Result>, remaining: int)
    requires results != []
    ensures |Concat(Sections(results, remaining))|
            == var size := Size(results[0], remaining);
               size + if remaining - size <= 0 then 0 else |Concat(Sections(results[1..], remaining - size))|
  {
    hide Concat, Sections, Section;
    WriteSection(results, remaining);
  }

  lemma NothingWritten(remaining: int)
    ensures Concat(Sections([], remaining)) == ""
  {
  }

  lemma {:induction false} WrittenIsLength(results: seq<Result>, remaining: int)
    ensures |Concat(Sections(results, remaining))| == Written(results, remaining)
  {
    hide Concat, Sections, Size;
    if results == [] {
      NothingWritten(remaining);
    } else {
      LengthStep(results, remaining);
      var left := remaining - Size(results[0], remaining);
      if left > 0 {
        WrittenIsLength(results[1..], left);
      }
    }
  }

  lemma {:induction false} WrittenBounds(results: seq<Result>, remaining: nat, wrapper: nat)
    requires forall r :: r in results ==> Wrapper(r.node) <= wrapper
    ensures Written(results, remaining) <= remaining <==> !Overruns(results, remaining)
    ensures Written(results, remaining) <= remaining + wrapper
  {
    if results != [] {
      var left := remaining - Size(results[0], remaining);
      SizeBounds(results[0], remaining);
      if left > 0 {
        WrittenBounds(results[1..], left, wrapper);
      }
    }
  }

  /** The whole text: at most the configured maximum, or the bare frame when that is longer, exactly when no
      section overruns; and never more than one further wrapper. */
  lemma RenderLength(base: string, results: seq<Result>, maximum: int, wrapper: nat)
    requires forall r :: r in results ==> Wrapper(r.node) <= wrapper
    ensures |Render(base, results, maximum)| <= Max(maximum, |base + OPENING| + |CLOSING|)
            <==> !Overruns(results, Budget(base, maximum))
    ensures |Render(base, results, maximum)| <= Max(maximum, |base + OPENING| + |CLOSING|) + wrapper
  {
    WrittenBounds(results, Budget(base, maximum), wrapper);
    WrittenIsLength(results, Budget(base, maximum));
  }

  // ---------------------------------------------------------------- when the maximum holds

  /** The length of the first `k` sections with their outputs whole. */
  function FullLength(results: seq<Result>, k: nat): nat
    requires k <= |results|
  {
    if k == 0 then 0 else Wrapper(results[0].node) + |results[0].output| + FullLength(results[1..], k - 1)
  }

  /** Result `k` is the first that does not fit whole into `room`, something is left for it unless it is the very first,
      and either not even its wrapper fits, or it is cut with a marker, which leaves four characters, and another result
      follows. */
  predicate SpillsAt(results: seq<Result>, room: nat, k: nat)
    requires k < |results|
  {
    var before, wrapper := FullLength(results, k), Wrapper(results[k].node);
    && (k == 0 || before < room)
    && before <= room < before + wrapper + |results[k].output|
    && (room < before + wrapper || (room >= before + wrapper + 16 && k + 1 < |results|))
  }

  ghost predicate Spills(results: seq<Result>, room: nat) {
    exists k :: 0 <= k < |results| && SpillsAt(results, room, k)
  }

  lemma {:induction false} FullLengthGrows(results: seq<Result>, k: nat)
    requires k <= |results|
    ensures FullLength(results, k) >= if k == 0 then 0 else Wrapper(results[0].node) + |results[0].output|
    ensures k < |results| ==>
              FullLength(results, k + 1) == FullLength(results, k) + Wrapper(results[k].node) + |results[k].output|
  {
    hide Wrapper;
    if k > 0 {
      FullLengthGrows(results[1..], k - 1);
    }
  }

  lemma SizeExactly(r: Result, room: nat)
    requires room >= Wrapper(r.node)
    ensures var space := room - Wrapper(r.node);
            Size(r, room) == if |r.output| <= space then Wrapper(r.node) + |r.output|
                             else if space >= 16 then room - 4 else room
  {
    if |r.output| > room - Wrapper(r.node) >= 16 {
      assert Shown(r.output, room - Wrapper(r.node)) == r.output[..room - Wrapper(r.node) - 15] + MARKER;
    }
  }

  lemma SpillsOnlyFirst(results: seq<Result>, room: nat)
    requires results != [] && room <= Wrapper(results[0].node) + |results[0].output|
    ensures Spills(results, room) <==> SpillsAt(results, room, 0)
  {
    hide Wrapper;
    forall k | 0 < k < |results|
      ensures !SpillsAt(results, room, k)
    {
      FullLengthGrows(results, k);
    }
  }

  lemma SpillsLater(results: seq<Result>, room: nat, left: nat)
    requires results != [] && 0 < left == room - Wrapper(results[0].node) - |results[0].output|
    ensures Spills(results, room) <==> Spills(results[1..], left)
  {
    hide Wrapper;
    if k :| 0 <= k < |results| && SpillsAt(results, room, k) {
      assert SpillsAt(results[1..], left, k - 1);
    }
    if k :| 0 <= k < |results[1..]| && SpillsAt(results[1..], left, k) {
      assert SpillsAt(results, room, k + 1);
    }
  }

  lemma {:induction false} OverrunsIsSpills(results: seq<Result>, room: nat)
    ensures Overruns(results, room) <==> Spills(results, room)
  {
    hide Wrapper, Size, Spills, SpillsAt;
    if results == [] {
      NothingSpills(room);
    } else {
      var r, rest := results[0], results[1..];
      SizeBounds(r, room);
      if room < Wrapper(r.node) {
        SpillsOnlyFirst(results, room);
        SpillsFirst(results, room);
      } else {
        SizeExactly(r, room);
        var left := room - Size(r, room);
        if Wrapper(r.node) + |r.output| < room {
          SpillsLater(results, room, left);
          OverrunsIsSpills(rest, left);
        } else {
          SpillsOnlyFirst(results, room);
          SpillsFirst(results, room);
          if rest != [] {
            WrapperIsLong(rest[0].node);
          }
        }
      }
    }
  }

  lemma NothingSpills(room: nat)
    ensures !Spills([], room)
  {
  }

  lemma SpillsFirst(results: seq<Result>, room: nat)
    requires results != []
    ensures SpillsAt(results, room, 0)
            <==> var wrapper := Wrapper(results[0].node);
                 && room < wrapper + |results[0].output|
                 && (room < wrapper || (room >= wrapper + 16 && |results| > 1))
  {
    hide Wrapper;
  }

  lemma WrapperIsLong(node: string)
    ensures Wrapper(node) > 4
  {
  }

  /** In terms of lengths alone: the text is at most the configured maximum, or the bare frame when that is longer,
      exactly when no result spills. */
  lemma MaximumHoldsExactly(base: string, results: seq<Result>, maximum: int)
    ensures |Render(base, results, maximum)| <= Max(maximum, |base + OPENING| + |CLOSING|)
            <==> !Spills(results, Budget(base, maximum))
  {
    hide Spills, Overruns, Render, Wrapper;
    var wrapper := LongestWrapper(results);
    RenderLength(base, results, maximum, wrapper);
    OverrunsIsSpills(results, Budget(base, maximum));
  }

  lemma {:induction false} LongestWrapper(results: seq<Result>) returns (wrapper: nat)
    ensures forall r :: r in results ==> Wrapper(r.node) <= wrapper
  {
    hide Wrapper;
    if results == [] {
      wrapper := 0;
    } else {
      wrapper := LongestWrapper(results[1..]);
      wrapper := if wrapper < Wrapper(results[0].node) then Wrapper(results[0].node) else wrapper;
    }
  }

  /** The maximum alone is no bound: after a cut four characters stay unused, and the next empty section is
      longer than that. */
  lemma MaximumIsNoBound(base: string, long: string, first: string, second: string)
    requires |long| > 16
    ensures var results := [Result(first, long), Result(second, "")];
            var maximum := |base + OPENING| + |CLOSING| + Wrapper(first) + 16;
            |Render(base, results, maximum)| == maximum - 4 + Wrapper(second) > maximum
  {
    var results := [Result(first, long), Result(second, "")];
    var remaining := Wrapper(first) + 16;
    var section := Section(results[0], remaining);
    assert Shown(long, 16) == long[..1] + MARKER;
    assert |section| == Wrapper(first) + 12;
    assert results[1..] == [Result(second, "")];
    var tail := Section(results[1], 4);
    assert Sections(results[1..], 4) == [tail];
    assert Sections(results, remaining) == [section, tail];
    assert Concat([section, tail]) == section + tail by {
      assert [section, tail][1..] == [tail];
      assert Concat([tail]) == tail;
    }
  }

  // ---------------------------------------------------------------- when nothing is lost

  function FullSections(results: seq<Result>): (full: seq<string>)
    ensures |full| == |results|
    ensures forall k :: 0 <= k < |results| ==> full[k] == Header(results[k].node) + results[k].output + FOOTER
  {
    if results == [] then []
    else [Header(results[0].node) + results[0].output + FOOTER] + FullSections(results[1..])
  }

  lemma WholeSection(r: Result, remaining: nat)
    requires |Header(r.node) + r.output + FOOTER| <= remaining
    ensures Section(r, remaining) == Header(r.node) + r.output + FOOTER
  {
    hide Header, Shown;
    ShownIsExcerpt(r.output, Max(0, remaining - Wrapper(r.node)));
  }

  /** If the untruncated sections fit, they are what is written. */
  lemma {:induction false} FittingSectionsAreWhole(results: seq<Result>, remaining: nat)
    requires Total(FullSections(results)) <= remaining
    ensures Sections(results, remaining) == FullSections(results)
  {
    hide Section, Total;
    if results != [] {
      var r, rest := results[0], results[1..];
      var whole := Header(r.node) + r.output + FOOTER;
      TotalCons(whole, FullSections(rest));
      WholeSection(r, remaining);
      if remaining - |whole| <= 0 {
        EmptyTotal(rest);
      } else {
        FittingSectionsAreWhole(rest, remaining - |whole|);
      }
    }
  }

  lemma EmptyTotal(results: seq<Result>)
    requires Total(FullSections(results)) == 0
    ensures results == []
  {
    if results != [] {
      TotalCons(Header(results[0].node) + results[0].output + FOOTER, FullSections(results[1..]));
    }
  }

  lemma FittingTextIsExact(base: string, results: seq<Result>, maximum: int)
    requires |base + OPENING| + |Concat(FullSections(results))| + |CLOSING| <= maximum
    ensures Render(base, results, maximum) == base + OPENING + Concat(FullSections(results)) + CLOSING
  {
    ConcatLength(FullSections(results));
    FittingSectionsAreWhole(results, Budget(base, maximum));
  }
}
