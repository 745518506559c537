/**
  Framing of raw output into records (internal/logs/frame.go, internal/logs/multiline.go).

  A framer accepts writes of any size, cuts them into lines, and in multiline mode joins a
  start line with its continuation lines until another line, a timer or Close ends the record.
  The reference is the byte string written so far: which lines it has is a matter of its bytes
  alone, and the emitted records are those lines, grouped, none lost and none repeated.
 */
module LogFraming {
  import opened Common

  const MAX_RECORD := 0x1_0000
  const LF: byte := 10
  const CR: byte := 13

  predicate IsEnd(cr: bool, b: byte) { b == LF || (cr && b == CR) }

  predicate Whole(cr: bool, s: seq<byte>) { forall i :: 0 <= i < |s| ==> !IsEnd(cr, s[i]) }

  lemma Splice(a: seq<byte>, r: seq<byte>, n: nat)
    requires n <= |r|
    ensures (a + r[..n]) + r[n..] == a + r
  {
  }

  lemma Cut(a: seq<byte>, r: seq<byte>, n: nat)
    requires n < |r|
    ensures a + r[..n + 1] == a + r[..n] + [r[n]]
  {
  }

  // ---------- The lines of a byte string ----------

  // A complete line: its bytes, empty when over the limit, and the offset just after it.
  datatype Line = Line(data: seq<byte>, oversize: bool, end: int)

  function Mark(s: seq<byte>, end: int): Line {
    if |s| > MAX_RECORD then Line([], true, end) else Line(s, false, end)
  }

  /** What follows the last line end. */
  ghost function Tail(cr: bool, s: seq<byte>): seq<byte> {
    if s == [] then []
    else if IsEnd(cr, s[|s| - 1]) then []
    else Tail(cr, s[..|s| - 1]) + [s[|s| - 1]]
  }

  /** The complete lines, in order. */
  ghost function Lines(cr: bool, s: seq<byte>): seq<Line> {
    if s == [] then []
    else
      var init := s[..|s| - 1];
      Lines(cr, init) + (if IsEnd(cr, s[|s| - 1]) then [Mark(Tail(cr, init), |s|)] else [])
  }

  /** The lines once nothing more can follow: what is left over is a line too. */
  ghost function AllLines(cr: bool, s: seq<byte>, closed: bool): seq<Line> {
    Lines(cr, s) + (if closed && Tail(cr, s) != [] then [Mark(Tail(cr, s), |s|)] else [])
  }

  // What the framer remembers of an unfinished line.
  ghost predicate Buffers(tail: seq<byte>, buf: seq<byte>, oversize: bool) {
    oversize == (|tail| > MAX_RECORD) && buf == if oversize then [] else tail
  }

  lemma {:induction false} TailGrows(cr: bool, s: seq<byte>, part: seq<byte>)
    requires Whole(cr, part)
    ensures Tail(cr, s + part) == Tail(cr, s) + part && Lines(cr, s + part) == Lines(cr, s)
  {
    if part == [] {
      assert s + part == s;
    } else {
      var init, b := part[..|part| - 1], part[|part| - 1];
      TailGrows(cr, s, init);
      assert (s + part)[..|s + part| - 1] == s + init;
    }
  }

  lemma OneLineMore(cr: bool, s: seq<byte>, b: byte)
    requires IsEnd(cr, b)
    ensures Tail(cr, s + [b]) == [] && Lines(cr, s + [b]) == Lines(cr, s) + [Mark(Tail(cr, s), |s| + 1)]
  {
    assert (s + [b])[..|s|] == s;
  }

  lemma LineEnds(cr: bool, s: seq<byte>, part: seq<byte>, b: byte)
    requires Whole(cr, part) && IsEnd(cr, b)
    ensures Tail(cr, s + part + [b]) == []
    ensures Lines(cr, s + part + [b]) == Lines(cr, s) + [Mark(Tail(cr, s) + part, |s| + |part| + 1)]
  {
    TailGrows(cr, s, part);
    OneLineMore(cr, s + part, b);
  }

  // The inverse of cutting: segments, each followed by its line end.
  ghost function Joined(segments: seq<seq<byte>>, ends: seq<byte>): seq<byte>
    requires |segments| == |ends|
  {
    if segments == [] then []
    else
      var n := |segments| - 1;
      Joined(segments[..n], ends[..n]) + segments[n] + [ends[n]]
  }

  ghost function MarkAll(segments: seq<seq<byte>>, ends: seq<byte>): seq<Line>
    requires |segments| == |ends|
  {
    if segments == [] then []
    else
      var n := |segments| - 1;
      MarkAll(segments[..n], ends[..n]) + [Mark(segments[n], |Joined(segments, ends)|)]
  }

  lemma JoinedNext(segments: seq<seq<byte>>, ends: seq<byte>)
    requires |segments| == |ends| > 0
    ensures var n := |segments| - 1;
            && Joined(segments, ends) == Joined(segments[..n], ends[..n]) + segments[n] + [ends[n]]
            && MarkAll(segments, ends) == MarkAll(segments[..n], ends[..n]) + [Mark(segments[n], |Joined(segments, ends)|)]
  {
  }

  lemma {:induction false} JoinedLines(cr: bool, segments: seq<seq<byte>>, ends: seq<byte>)
    requires |segments| == |ends|
    requires forall i :: 0 <= i < |segments| ==> Whole(cr, segments[i]) && IsEnd(cr, ends[i])
    ensures Tail(cr, Joined(segments, ends)) == [] && Lines(cr, Joined(segments, ends)) == MarkAll(segments, ends)
  {
    if segments != [] {
      hide Lines, Tail, Whole, IsEnd, Joined, MarkAll, Mark;
      var n := |segments| - 1;
      JoinedNext(segments, ends);
      JoinedLines(cr, segments[..n], ends[..n]);
      LineEnds(cr, Joined(segments[..n], ends[..n]), segments[n], ends[n]);
      assert [] + segments[n] == segments[n];
    }
  }

  /** Cutting undoes joining: the lines of a joined string are exactly the joined segments. */
  lemma LinesOfJoined(cr: bool, segments: seq<seq<byte>>, ends: seq<byte>, tail: seq<byte>)
    requires |segments| == |ends| && Whole(cr, tail)
    requires forall i :: 0 <= i < |segments| ==> Whole(cr, segments[i]) && IsEnd(cr, ends[i])
    ensures Tail(cr, Joined(segments, ends) + tail) == tail
    ensures Lines(cr, Joined(segments, ends) + tail) == MarkAll(segments, ends)
  {
    JoinedLines(cr, segments, ends);
    TailGrows(cr, Joined(segments, ends), tail);
  }

  // ---------- Grouping lines into records ----------

  datatype Mode =
    | Plain
    | Multiline(start: seq<byte> -> bool, continuation: seq<byte> -> bool, maxLines: nat)

  // A record handed to the collector, and the offset it completes.
  datatype Out = Out(data: seq<byte>, invalid: bool, end: int)

  type Group = seq<Line>

  ghost function Text(g: Group): seq<byte> {
    if g == [] then [] else if |g| == 1 then g[0].data else Text(g[..|g| - 1]) + [LF] + g[|g| - 1].data
  }

  ghost predicate Oversized(g: Group) { exists i :: 0 <= i < |g| && g[i].oversize }

  /** A group that must be reported invalid: an oversized line, too many lines or too many bytes. */
  ghost predicate Bad(mode: Mode, g: Group) {
    Oversized(g) || (mode.Multiline? && |g| > mode.maxLines) || |Text(g)| > MAX_RECORD
  }

  /** The longest beginning of a group that is not bad; its text is what a bad record still carries. */
  ghost function GoodPart(mode: Mode, g: Group): Group {
    if g == [] || !Bad(mode, g) then g else GoodPart(mode, g[..|g| - 1])
  }

  predicate Starts(mode: Mode, l: Line) { mode.Multiline? && !l.oversize && mode.start(l.data) }

  // Lines that belong to a record already open.
  predicate Joins(mode: Mode, l: Line) {
    mode.Multiline? && (l.oversize || (!mode.start(l.data) && mode.continuation(l.data)))
  }

  ghost predicate Opened(mode: Mode, g: Group) {
    g != [] && Starts(mode, g[0]) && forall i :: 1 <= i < |g| ==> Joins(mode, g[i])
  }

  /** The record emitted for a group. */
  ghost predicate RecordOf(mode: Mode, g: Group, o: Out) {
    && g != []
    && (o.invalid <==> Bad(mode, g))
    && (!o.invalid ==> o.data == Text(g))
    && o.data == Text(GoodPart(mode, g)) && |o.data| <= MAX_RECORD
    && (o.invalid && |g| == 1 ==> o.data == [])
    && o.end == g[|g| - 1].end
  }

  ghost function Flatten(gs: seq<Group>): seq<Line> {
    if gs == [] then [] else Flatten(gs[..|gs| - 1]) + gs[|gs| - 1]
  }

  // The record being assembled (multiline.go: buf, lines, invalid, end, epoch).
  datatype Assembly = Assembly(buf: seq<byte>, lines: nat, invalid: bool, end: int, epoch: nat)

  ghost predicate AssemblyOk(mode: Mode, m: Assembly, open: Group) {
    && (m.lines == 0 <==> open == [])
    && |m.buf| <= MAX_RECORD
    && (open == [] ==> !m.invalid)
    && (open != [] ==>
          && Opened(mode, open)
          && (m.invalid <==> Bad(mode, open))
          && (m.invalid ==> |open| > 1)
          && (!m.invalid ==> m.buf == Text(open) && m.lines == |open|)
          && m.buf == Text(GoodPart(mode, open))
          && m.end == open[|open| - 1].end)
  }

  // Everything emitted so far: its groups, and which of them a timer or Close ended.
  datatype Story = Story(input: seq<Line>, groups: seq<Group>, open: Group, cut: seq<bool>, armed: map<nat, nat>)

  // The line after group k.
  ghost predicate NextLineJoins(mode: Mode, s: Story, k: nat)
    requires k < |s.groups|
  {
    if k + 1 < |s.groups| then s.groups[k + 1] != [] && Joins(mode, s.groups[k + 1][0])
    else s.open != [] && Joins(mode, s.open[0])
  }

  ghost predicate GroupsOk(mode: Mode, s: Story, out: seq<Out>) {
    && |out| == |s.groups| == |s.cut|
    && (forall k :: 0 <= k < |out| ==> RecordOf(mode, s.groups[k], out[k]))
    && (forall k :: 0 <= k < |out| ==> |s.groups[k]| == 1 || Opened(mode, s.groups[k]))
    && (forall k :: 0 <= k < |out| && Opened(mode, s.groups[k]) && !s.cut[k] ==> !NextLineJoins(mode, s, k))
  }

  // No armed timer can still act on a record other than its own.
  ghost predicate TimersOk(s: Story, epoch: nat) {
    forall e :: e in s.armed ==> e <= epoch && (e == epoch ==> s.open != [] && s.armed[e] == |s.groups|)
  }

  ghost predicate StoryOk(mode: Mode, s: Story, m: Assembly, out: seq<Out>) {
    && Flatten(s.groups) + s.open == s.input
    && GroupsOk(mode, s, out)
    && AssemblyOk(mode, m, s.open)
    && TimersOk(s, m.epoch)
    && (mode.Multiline? ==> mode.maxLines >= 2)
  }

  // Outside a step, a record that was not cut short is followed by the line that ended it.
  ghost predicate Settled(mode: Mode, s: Story) {
    s.groups != [] && |s.cut| == |s.groups| && Opened(mode, s.groups[|s.groups| - 1]) && !s.cut[|s.cut| - 1] ==> s.open != []
  }

  // The timer of the current epoch was armed for the record that is open.
  lemma ArmedForOpen(mode: Mode, s: Story, m: Assembly, out: seq<Out>, e: nat)
    requires StoryOk(mode, s, m, out) && e in s.armed && e == m.epoch
    ensures s.open != [] && s.armed[e] == |out| == |s.groups| == |s.cut|
  {
    hide RecordOf, Opened, Text, Bad;
  }

  lemma NothingYet(mode: Mode)
    requires mode.Multiline? ==> mode.maxLines >= 2
    ensures StoryOk(mode, Story([], [], [], [], map[]), Assembly([], 0, false, 0, 0), [])
  {
  }

  lemma GoodPartOfOne(mode: Mode, l: Line)
    requires (mode.Multiline? ==> mode.maxLines >= 1) && |l.data| <= MAX_RECORD && (l.oversize ==> l.data == [])
    ensures Text(GoodPart(mode, [l])) == l.data && (Bad(mode, [l]) <==> l.oversize)
  {
    TextOfOne(l);
    assert [l][0] == l && [l][..0] == [];
    if l.oversize { assert Oversized([l]) && GoodPart(mode, []) == [] && Text([]) == []; }
  }

  lemma GoodPartStays(mode: Mode, g: Group, l: Line)
    requires Bad(mode, g + [l])
    ensures GoodPart(mode, g + [l]) == GoodPart(mode, g)
  {
    assert (g + [l])[..|g|] == g;
  }

  lemma TextOfOne(l: Line)
    ensures Text([l]) == l.data
  {
  }

  lemma TextGrows(g: Group, l: Line)
    requires g != []
    ensures Text(g + [l]) == Text(g) + [LF] + l.data
  {
    assert (g + [l])[..|g|] == g;
  }

  lemma FlattenAppend(gs: seq<Group>, g: Group)
    ensures Flatten(gs + [g]) == Flatten(gs) + g
  {
    assert (gs + [g])[..|gs|] == gs;
  }

  function Flushed(m: Assembly): Assembly { Assembly([], 0, false, m.end, m.epoch + 1) }

  /** Ending the open record emits exactly its lines. */
  lemma FlushKeeps(mode: Mode, s: Story, m: Assembly, out: seq<Out>, cut: bool)
    requires StoryOk(mode, s, m, out) && s.open != []
    ensures StoryOk(mode, s.(groups := s.groups + [s.open], open := [], cut := s.cut + [cut]), Flushed(m),
                    out + [Out(m.buf, m.invalid, m.end)])
  {
    hide Text, Bad;
    var s' := s.(groups := s.groups + [s.open], open := [], cut := s.cut + [cut]);
    FlattenAppend(s.groups, s.open);
    assert Flatten(s'.groups) + [] == s.input;
    forall k | 0 <= k < |s'.groups| && Opened(mode, s'.groups[k]) && !s'.cut[k] ensures !NextLineJoins(mode, s', k) {
      if k < |s.groups| { assert s'.groups[k] == s.groups[k] && !NextLineJoins(mode, s, k); }
    }
  }

  // A line delivered as a record of its own.
  lemma SingleKeeps(mode: Mode, s: Story, m: Assembly, out: seq<Out>, l: Line)
    requires StoryOk(mode, s, m, out) && s.open == []
    requires Settled(mode, s) || !Joins(mode, l)
    requires !Starts(mode, l) && |l.data| <= MAX_RECORD && (l.oversize ==> l.data == [])
    ensures var s' := s.(input := s.input + [l], groups := s.groups + [[l]], cut := s.cut + [false]);
            StoryOk(mode, s', m, out + [Out(l.data, l.oversize, l.end)]) && Settled(mode, s')
  {
    var s' := s.(input := s.input + [l], groups := s.groups + [[l]], cut := s.cut + [false]);
    FlattenAppend(s.groups, [l]);
    TextOfOne(l);
    GoodPartOfOne(mode, l);
    assert RecordOf(mode, [l], Out(l.data, l.oversize, l.end));
    hide Text, Bad, GoodPart;
    forall k | 0 <= k < |s'.groups| && Opened(mode, s'.groups[k]) && !s'.cut[k] ensures !NextLineJoins(mode, s', k) {
      if k < |s.groups| { assert s'.groups[k] == s.groups[k] && !NextLineJoins(mode, s, k); }
    }
  }

  // A start line opens a new record and arms its timer with a fresh epoch.
  lemma OpenKeeps(mode: Mode, s: Story, m: Assembly, out: seq<Out>, l: Line)
    requires StoryOk(mode, s, m, out) && s.open == []
    requires Starts(mode, l) && |l.data| <= MAX_RECORD
    ensures var s' := s.(input := s.input + [l], open := [l], armed := s.armed[m.epoch + 1 := |s.groups|]);
            StoryOk(mode, s', Assembly(l.data, 1, m.invalid, l.end, m.epoch + 1), out) && Settled(mode, s')
  {
    var s' := s.(input := s.input + [l], open := [l], armed := s.armed[m.epoch + 1 := |s.groups|]);
    GoodPartOfOne(mode, l);
    TextOfOne(l);
    assert Flatten(s.groups) + [l] == Flatten(s.groups) + s.open + [l];
    forall k | 0 <= k < |s'.groups| && Opened(mode, s'.groups[k]) && !s'.cut[k] ensures !NextLineJoins(mode, s', k) {
      assert !NextLineJoins(mode, s, k);
    }
  }

  // The assembly after a line joins the open record.
  function Grown(mode: Mode, m: Assembly, l: Line): Assembly
    requires mode.Multiline?
  {
    if l.oversize then m.(invalid := true, end := l.end)
    else
      var invalid := m.invalid || m.lines + 1 > mode.maxLines || |m.buf| + 1 + |l.data| > MAX_RECORD;
      m.(lines := m.lines + 1, end := l.end, invalid := invalid,
         buf := if invalid then m.buf else m.buf + [LF] + l.data)
  }

  lemma GrownOk(mode: Mode, m: Assembly, open: Group, l: Line)
    requires AssemblyOk(mode, m, open) && open != [] && Joins(mode, l)
    ensures AssemblyOk(mode, Grown(mode, m, l), open + [l])
  {
    var g := open + [l];
    TextGrows(open, l);
    assert g[|open|] == l;
    if Oversized(open) {
      var i :| 0 <= i < |open| && open[i].oversize;
      assert g[i].oversize;
    }
    if Oversized(g) {
      var i :| 0 <= i < |g| && g[i].oversize;
      assert i < |open| ==> open[i].oversize;
    }
    if Bad(mode, g) { GoodPartStays(mode, open, l); }
  }

  lemma JoinKeeps(mode: Mode, s: Story, m: Assembly, out: seq<Out>, l: Line)
    requires StoryOk(mode, s, m, out) && s.open != [] && Joins(mode, l)
    ensures var s' := s.(input := s.input + [l], open := s.open + [l]);
            StoryOk(mode, s', Grown(mode, m, l), out) && Settled(mode, s')
  {
    var s' := s.(input := s.input + [l], open := s.open + [l]);
    GrownOk(mode, m, s.open, l);
    assert Flatten(s.groups) + (s.open + [l]) == Flatten(s.groups) + s.open + [l];
    forall k | 0 <= k < |s'.groups| && Opened(mode, s'.groups[k]) && !s'.cut[k] ensures !NextLineJoins(mode, s', k) {
      assert !NextLineJoins(mode, s, k);
    }
  }

  // Nothing but its next line ended a record; Close may have ended the last one.
  ghost predicate NoneCut(cut: seq<bool>, closed: bool) { forall k :: 0 <= k < |cut| - (if closed then 1 else 0) ==> !cut[k] }

  // More records, none of them cut short.
  ghost predicate OnlyWhole(cut: seq<bool>, cut': seq<bool>) { cut <= cut' && forall k :: |cut| <= k < |cut'| ==> !cut'[k] }

  // ---------- Grouping from the lines alone ----------

  /** A line joins the record before it if that is open to it, and otherwise begins one of its own. */
  ghost function Grouped(mode: Mode, ls: seq<Line>): seq<Group> {
    if ls == [] then []
    else
      var gs, l := Grouped(mode, ls[..|ls| - 1]), ls[|ls| - 1];
      if gs != [] && Opened(mode, gs[|gs| - 1]) && Joins(mode, l) then gs[..|gs| - 1] + [gs[|gs| - 1] + [l]] else gs + [[l]]
  }

  /** A record is a start line with the lines that continue it, as many as there are, or any other line alone. */
  ghost predicate Maximal(mode: Mode, gs: seq<Group>) {
    && (forall k :: 0 <= k < |gs| ==> gs[k] != [] && (|gs[k]| == 1 || Opened(mode, gs[k])))
    && (forall k :: 0 <= k < |gs| - 1 && Opened(mode, gs[k]) ==> !Joins(mode, gs[k + 1][0]))
  }

  lemma InitIsMaximal(mode: Mode, init: seq<Group>, g: Group)
    requires Maximal(mode, init + [g])
    ensures Maximal(mode, init) && g != [] && (|g| == 1 || Opened(mode, g))
    ensures init != [] && Opened(mode, init[|init| - 1]) ==> !Joins(mode, g[0])
  {
    hide Opened, Joins;
    var gs := init + [g];
    assert gs[|init|] == g;
    forall k | 0 <= k < |init| ensures init[k] != [] && (|init[k]| == 1 || Opened(mode, init[k])) { assert gs[k] == init[k]; }
    forall k | 0 <= k < |init| - 1 && Opened(mode, init[k]) ensures !Joins(mode, init[k + 1][0]) {
      assert gs[k] == init[k] && gs[k + 1] == init[k + 1];
    }
    if init != [] { assert gs[|init| - 1] == init[|init| - 1]; }
  }

  lemma AppendIsMaximal(mode: Mode, init: seq<Group>, g: Group)
    requires Maximal(mode, init) && g != [] && (|g| == 1 || Opened(mode, g))
    requires init != [] && Opened(mode, init[|init| - 1]) ==> !Joins(mode, g[0])
    ensures Maximal(mode, init + [g])
  {
    hide Opened, Joins;
  }

  // An opened group of several lines is one without its last line, which joins it.
  lemma OpenedShorter(mode: Mode, g: Group)
    requires Opened(mode, g) && |g| > 1
    ensures Opened(mode, g[..|g| - 1]) && Joins(mode, g[|g| - 1])
  {
  }

  lemma GroupedAlone(mode: Mode, init: seq<Group>, l: Line)
    requires Grouped(mode, Flatten(init)) == init && !(init != [] && Opened(mode, init[|init| - 1]) && Joins(mode, l))
    ensures Grouped(mode, Flatten(init + [[l]])) == init + [[l]]
  {
    hide Flatten, Grouped, Opened, Joins;
    FlattenAppend(init, [l]);
    var ls := Flatten(init) + [l];
    assert ls[..|ls| - 1] == Flatten(init);
    LastGrouped(mode, ls);
  }

  lemma GroupedJoins(mode: Mode, init: seq<Group>, g: Group, l: Line)
    requires Grouped(mode, Flatten(init + [g])) == init + [g] && Opened(mode, g) && Joins(mode, l)
    ensures Grouped(mode, Flatten(init + [g + [l]])) == init + [g + [l]]
  {
    hide Flatten, Grouped, Opened, Joins;
    FlattenAppend(init, g);
    FlattenAppend(init, g + [l]);
    var ls, gs := Flatten(init) + (g + [l]), init + [g];
    assert ls[..|ls| - 1] == Flatten(init) + g && ls[|ls| - 1] == l;
    LastGrouped(mode, ls);
    assert gs[..|gs| - 1] == init && gs[|gs| - 1] == g;
  }

  /** There is only one such grouping of given lines. */
  lemma {:induction false} MaximalIsGrouped(mode: Mode, gs: seq<Group>)
    requires Maximal(mode, gs)
    ensures Grouped(mode, Flatten(gs)) == gs
    decreases |gs|, if gs == [] then 0 else |gs[|gs| - 1]|
  {
    hide Flatten, Grouped, Maximal, Opened, Joins;
    if gs == [] {
      NoLinesNoGroups(mode);
    } else {
      var n := |gs| - 1;
      var init, g := gs[..n], gs[n];
      assert gs == init + [g];
      InitIsMaximal(mode, init, g);
      if |g| == 1 {
        MaximalIsGrouped(mode, init);
        assert g == [g[0]];
        GroupedAlone(mode, init, g[0]);
      } else {
        var short, l := g[..|g| - 1], g[|g| - 1];
        assert g == short + [l];
        OpenedShorter(mode, g);
        AppendIsMaximal(mode, init, short);
        MaximalIsGrouped(mode, init + [short]);
        GroupedJoins(mode, init, short, l);
      }
    }
  }

  lemma NoLinesNoGroups(mode: Mode)
    ensures Flatten([]) == [] && Grouped(mode, []) == []
  {
  }

  lemma LastGrouped(mode: Mode, ls: seq<Line>)
    requires ls != []
    ensures var gs, l := Grouped(mode, ls[..|ls| - 1]), ls[|ls| - 1];
            Grouped(mode, ls)
            == if gs != [] && Opened(mode, gs[|gs| - 1]) && Joins(mode, l) then gs[..|gs| - 1] + [gs[|gs| - 1] + [l]] else gs + [[l]]
  {
  }

  // The record of a group.
  ghost function RecordFor(mode: Mode, g: Group): Out
    requires g != []
  {
    Out(Text(GoodPart(mode, g)), Bad(mode, g), g[|g| - 1].end)
  }

  // ---------- What the records say about the input ----------

  // Position of the last line of group k.
  ghost function LastOf(gs: seq<Group>, k: nat): int
    requires k < |gs|
  {
    |Flatten(gs[..k + 1])| - 1
  }

  lemma {:induction false} FlattenAt(gs: seq<Group>, j: nat, k: nat)
    requires j <= k < |gs| && forall i :: 0 <= i < |gs| ==> gs[i] != []
    ensures 0 <= LastOf(gs, j) <= LastOf(gs, k) < |Flatten(gs)|
    ensures Flatten(gs)[LastOf(gs, k)] == gs[k][|gs[k]| - 1]
  {
    var n := |gs| - 1;
    assert gs == gs[..n] + [gs[n]];
    FlattenAppend(gs[..n], gs[n]);
    assert gs[..n + 1] == gs;
    if k < n {
      FlattenAt(gs[..n], j, k);
      assert gs[..n][..j + 1] == gs[..j + 1] && gs[..n][..k + 1] == gs[..k + 1];
    } else if j < n {
      FlattenAt(gs[..n], j, j);
      assert gs[..n][..j + 1] == gs[..j + 1];
    }
  }

  lemma {:induction false} LinesInOrder(cr: bool, s: seq<byte>)
    ensures forall i :: 0 <= i < |Lines(cr, s)| ==> 0 <= Lines(cr, s)[i].end <= |s|
    ensures forall i, j :: 0 <= i <= j < |Lines(cr, s)| ==> Lines(cr, s)[i].end <= Lines(cr, s)[j].end
  {
    if s != [] { LinesInOrder(cr, s[..|s| - 1]); }
  }

  /** Emitted records complete nondecreasing offsets, never beyond what was read. */
  lemma OffsetsInOrder(mode: Mode, s: Story, m: Assembly, out: seq<Out>, cr: bool, written: seq<byte>, closed: bool, j: nat, k: nat)
    requires StoryOk(mode, s, m, out) && s.input == AllLines(cr, written, closed)
    requires j <= k < |out|
    ensures 0 <= out[j].end <= out[k].end <= |written|
  {
    hide Lines, Tail, Text;
    FlattenAt(s.groups, j, k);
    FlattenAt(s.groups, j, j);
    LinesInOrder(cr, written);
    var a, b := LastOf(s.groups, j), LastOf(s.groups, k);
    assert s.input[a] == Flatten(s.groups)[a] && s.input[b] == Flatten(s.groups)[b];
    assert RecordOf(mode, s.groups[j], out[j]) && RecordOf(mode, s.groups[k], out[k]);
  }

  // Without multiline framing every line is a record of its own.
  ghost function LineRecords(ls: seq<Line>): seq<Out> {
    if ls == [] then [] else LineRecords(ls[..|ls| - 1]) + [Out(ls[|ls| - 1].data, ls[|ls| - 1].oversize, ls[|ls| - 1].end)]
  }

  lemma SingleRecord(l: Line, o: Out)
    requires RecordOf(Plain, [l], o) && |l.data| <= MAX_RECORD && (l.oversize ==> l.data == [])
    ensures o == Out(l.data, l.oversize, l.end)
  {
    TextOfOne(l);
    if Oversized([l]) { assert [l][0].oversize; } else { assert ![l][0].oversize; }
  }

  lemma {:induction false} PlainRecords(gs: seq<Group>, out: seq<Out>, ls: seq<Line>)
    requires |gs| == |out| && Flatten(gs) == ls
    requires forall k :: 0 <= k < |gs| ==> |gs[k]| == 1 && RecordOf(Plain, gs[k], out[k])
    requires forall i :: 0 <= i < |ls| ==> |ls[i].data| <= MAX_RECORD && (ls[i].oversize ==> ls[i].data == [])
    ensures out == LineRecords(ls)
  {
    if gs != [] {
      var n := |gs| - 1;
      assert gs == gs[..n] + [gs[n]];
      FlattenAppend(gs[..n], gs[n]);
      var rest := Flatten(gs[..n]);
      assert ls == rest + gs[n] && ls[..|ls| - 1] == rest && ls[|ls| - 1] == gs[n][0];
      PlainRecords(gs[..n], out[..n], rest);
      assert gs[n] == [gs[n][0]];
      SingleRecord(gs[n][0], out[n]);
    }
  }

  lemma {:induction false} LinesAreBounded(cr: bool, s: seq<byte>)
    ensures forall i :: 0 <= i < |Lines(cr, s)| ==>
              |Lines(cr, s)[i].data| <= MAX_RECORD && (Lines(cr, s)[i].oversize ==> Lines(cr, s)[i].data == [])
  {
    if s != [] { LinesAreBounded(cr, s[..|s| - 1]); }
  }

  // ---------- The lines an observer finds in the records ----------

  /** The pieces of `s` between line feeds. */
  ghost function SplitLF(s: seq<byte>): (pieces: seq<seq<byte>>)
    ensures pieces != []
  {
    if s == [] then [[]]
    else
      var pieces, b := SplitLF(s[..|s| - 1]), s[|s| - 1];
      if b == LF then pieces + [[]] else pieces[..|pieces| - 1] + [pieces[|pieces| - 1] + [b]]
  }

  lemma {:induction false} SplitJoined(a: seq<byte>, b: seq<byte>)
    requires LF !in b
    ensures SplitLF(a + [LF] + b) == SplitLF(a) + [b]
  {
    if b == [] {
      assert a + [LF] + b == a + [LF] && (a + [LF])[..|a|] == a;
    } else {
      var init := b[..|b| - 1];
      SplitJoined(a, init);
      var all := a + [LF] + b;
      assert all[..|all| - 1] == a + [LF] + init && all[|all| - 1] == b[|b| - 1];
      assert b == init + [b[|b| - 1]];
      var before := SplitLF(a) + [init];
      assert before[..|before| - 1] == SplitLF(a) && before[|before| - 1] == init;
    }
  }

  lemma {:induction false} SplitOne(b: seq<byte>)
    requires LF !in b
    ensures SplitLF(b) == [b]
  {
    if b != [] {
      SplitOne(b[..|b| - 1]);
      assert b == b[..|b| - 1] + [b[|b| - 1]];
      assert [b[..|b| - 1]][..0] == [];
    }
  }

  ghost function DataOf(ls: seq<Line>): seq<seq<byte>> {
    if ls == [] then [] else DataOf(ls[..|ls| - 1]) + [ls[|ls| - 1].data]
  }

  ghost predicate Unbroken(ls: seq<Line>) { forall i :: 0 <= i < |ls| ==> LF !in ls[i].data }

  lemma {:induction false} DataConcat(a: seq<Line>, b: seq<Line>)
    ensures DataOf(a + b) == DataOf(a) + DataOf(b)
  {
    if b == [] {
      assert a + b == a;
    } else {
      assert (a + b)[..|a + b| - 1] == a + b[..|b| - 1];
      DataConcat(a, b[..|b| - 1]);
    }
  }

  lemma {:induction false} SplitText(g: Group)
    requires g != [] && Unbroken(g)
    ensures SplitLF(Text(g)) == DataOf(g)
  {
    var init, l := g[..|g| - 1], g[|g| - 1];
    assert g == init + [l];
    if init == [] {
      SplitOne(l.data);
      assert DataOf([]) == [];
    } else {
      SplitText(init);
      TextGrows(init, l);
      SplitJoined(Text(init), l.data);
    }
  }

  lemma UnbrokenParts(a: seq<Line>, b: seq<Line>)
    requires Unbroken(a + b)
    ensures Unbroken(a) && Unbroken(b)
  {
    forall i | 0 <= i < |a| ensures LF !in a[i].data { assert a[i] == (a + b)[i]; }
    forall i | 0 <= i < |b| ensures LF !in b[i].data { assert b[i] == (a + b)[|a| + i]; }
  }

  // The pieces of all records, one after the other.
  ghost function SplitAll(out: seq<Out>): seq<seq<byte>> {
    if out == [] then [] else SplitAll(out[..|out| - 1]) + SplitLF(out[|out| - 1].data)
  }

  lemma SplitRecord(mode: Mode, g: Group, o: Out)
    requires RecordOf(mode, g, o) && !o.invalid && Unbroken(g)
    ensures SplitLF(o.data) == DataOf(g)
  {
    hide Bad, Text;
    SplitText(g);
  }

  ghost predicate AllValid(mode: Mode, gs: seq<Group>, out: seq<Out>)
    requires |gs| == |out|
  {
    forall k :: 0 <= k < |gs| ==> RecordOf(mode, gs[k], out[k]) && !out[k].invalid
  }

  lemma ValidAt(mode: Mode, gs: seq<Group>, out: seq<Out>, k: nat)
    requires k < |gs| == |out| && AllValid(mode, gs, out)
    ensures RecordOf(mode, gs[k], out[k]) && !out[k].invalid
  {
    hide RecordOf;
  }

  // The first `n` records.
  lemma {:induction false} SplitGroups(mode: Mode, gs: seq<Group>, out: seq<Out>, n: nat)
    requires n <= |gs| == |out| && AllValid(mode, gs, out) && Unbroken(Flatten(gs[..n]))
    ensures SplitAll(out[..n]) == DataOf(Flatten(gs[..n]))
  {
    hide AllValid, RecordOf, Unbroken, DataOf, SplitLF, Flatten, SplitAll;
    if n == 0 {
      NothingToSplit();
      assert out[..0] == [] && gs[..0] == [];
    } else {
      var g, o := gs[n - 1], out[n - 1];
      ValidAt(mode, gs, out, n - 1);
      assert gs[..n] == gs[..n - 1] + [g] && out[..n] == out[..n - 1] + [o];
      FlattenAppend(gs[..n - 1], g);
      UnbrokenParts(Flatten(gs[..n - 1]), g);
      SplitGroups(mode, gs, out, n - 1);
      SplitRecord(mode, g, o);
      SplitAppend(out[..n - 1], o);
      DataConcat(Flatten(gs[..n - 1]), g);
    }
  }

  lemma NothingToSplit()
    ensures SplitAll([]) == [] && DataOf(Flatten([])) == []
  {
    assert Flatten([]) == [];
  }

  lemma SplitAppend(out: seq<Out>, o: Out)
    ensures SplitAll(out + [o]) == SplitAll(out) + SplitLF(o.data)
  {
    assert (out + [o])[..|out|] == out;
  }

  lemma {:induction false} TailIsWhole(cr: bool, s: seq<byte>)
    ensures LF !in Tail(cr, s)
  {
    if s != [] { TailIsWhole(cr, s[..|s| - 1]); }
  }

  lemma {:induction false} LinesAreUnbroken(cr: bool, s: seq<byte>)
    ensures Unbroken(Lines(cr, s))
  {
    if s != [] {
      LinesAreUnbroken(cr, s[..|s| - 1]);
      TailIsWhole(cr, s[..|s| - 1]);
    }
  }

  // ---------- The framer ----------

  class Framer {
    const carriageReturn: bool
    const mode: Mode
    var buf: seq<byte>
    var oversize: bool
    var read: int
    var complete: int
    var closed: bool
    var multi: Assembly
    // What emit has received.
    var out: seq<Out>

    ghost var written: seq<byte>
    ghost var story: Story
    // Discard gave up the unfinished record.
    ghost var abandoned: bool
    // A timer has ended a record.
    ghost var timed: bool

    // The unfinished line.
    ghost predicate LineOk()
      reads this
    {
      read == |written| && Buffers(Tail(carriageReturn, written), buf, oversize)
    }

    ghost predicate Core()
      reads this
    {
      && StoryOk(mode, story, multi, out)
      && complete == (if out == [] then 0 else out[|out| - 1].end)
    }

    ghost predicate Valid()
      reads this
    {
      && (abandoned ==> closed && GroupsOk(mode, story, out))
      && (!abandoned ==> Core() && Settled(mode, story) && story.input == AllLines(carriageReturn, written, closed))
      && (!closed ==> LineOk())
      && (closed && !abandoned ==> story.open == [])
      && (!abandoned && !timed ==> NoneCut(story.cut, closed))
    }

    constructor (mode: Mode, carriageReturn: bool)
      requires mode.Multiline? ==> mode.maxLines >= 2 && !carriageReturn
      ensures Valid() && written == [] && out == [] && !closed
      ensures this.mode == mode && this.carriageReturn == carriageReturn && !timed && !abandoned
    {
      this.mode, this.carriageReturn := mode, carriageReturn;
      buf, oversize, read, complete, closed := [], false, 0, 0, false;
      multi, out := Assembly([], 0, false, 0, 0), [];
      written, story, abandoned, timed := [], Story([], [], [], [], map[]), false, false;
      new;
      NothingYet(mode);
    }

    method Deliver(data: seq<byte>, invalid: bool, end: int)
      modifies this`complete, this`out
      ensures complete == end && out == old(out) + [Out(data, invalid, end)]
    {
      complete := end;
      out := out + [Out(data, invalid, end)];
    }

    // `cut` says whether a timer or Close asked for it, rather than the next line.
    method Flush(ghost cut: bool)
      requires Core()
      modifies this`multi, this`out, this`complete, this`story
      ensures Core() && old(out) <= out && story.input == old(story).input && story.open == []
      ensures old(story).open == [] ==> multi == old(multi) && out == old(out) && story == old(story)
      ensures old(story).open != [] ==>
        && multi == Flushed(old(multi))
        && out == old(out) + [Out(old(multi).buf, old(multi).invalid, old(multi).end)]
        && story == old(story).(groups := old(story).groups + [old(story).open], open := [], cut := old(story).cut + [cut])
    {
      hide GroupsOk, TimersOk, RecordOf, Flatten;
      if multi.lines == 0 { return; }
      FlushKeeps(mode, story, multi, out, cut);
      story := story.(groups := story.groups + [story.open], open := [], cut := story.cut + [cut]);
      Deliver(multi.buf, multi.invalid, multi.end);
      multi := Assembly([], 0, false, multi.end, multi.epoch + 1);
    }

    // One complete line, ending at offset `read`.
    method EndLine(data: seq<byte>, invalid: bool)
      requires Core() && Settled(mode, story)
      requires |data| <= MAX_RECORD && (invalid ==> data == []) && read >= 0
      modifies this`multi, this`out, this`complete, this`story
      ensures Core() && Settled(mode, story)
      ensures story.input == old(story).input + [Line(data, invalid, read)]
      ensures old(out) <= out && OnlyWhole(old(story).cut, story.cut)
    {
      hide GroupsOk, TimersOk, Flatten, Text, Bad;
      if mode.Plain? {
        EmitSingle(data, invalid);
      } else if invalid {
        if multi.lines > 0 { Join([], true); } else { EmitSingle([], true); }
      } else if mode.start(data) {
        Flush(false);
        Open(data);
      } else if multi.lines > 0 && mode.continuation(data) {
        Join(data, false);
      } else {
        Flush(false);
        EmitSingle(data, false);
      }
    }

    // A start line: a new record with a timer of its own, armed for the new epoch.
    method Open(data: seq<byte>)
      requires Core() && story.open == [] && Starts(mode, Line(data, false, read))
      requires |data| <= MAX_RECORD && read >= 0
      modifies this`multi, this`story
      ensures Core() && Settled(mode, story)
      ensures story.input == old(story).input + [Line(data, false, read)] && story.cut == old(story).cut
      ensures multi.epoch in story.armed
    {
      ghost var l := Line(data, false, read);
      OpenKeeps(mode, story, multi, out, l);
      story := story.(input := story.input + [l], open := [l], armed := story.armed[multi.epoch + 1 := |story.groups|]);
      multi := multi.(lines := 1, end := read, buf := data, epoch := multi.epoch + 1);
    }

    // A line that belongs to the open record.
    method Join(data: seq<byte>, invalid: bool)
      requires Core() && story.open != [] && Joins(mode, Line(data, invalid, read)) && read >= 0
      modifies this`multi, this`story
      ensures Core() && Settled(mode, story)
      ensures story.input == old(story).input + [Line(data, invalid, read)] && story.cut == old(story).cut
    {
      ghost var l := Line(data, invalid, read);
      JoinKeeps(mode, story, multi, out, l);
      story := story.(input := story.input + [l], open := story.open + [l]);
      var m := multi.(end := read);
      if invalid {
        m := m.(invalid := true);
      } else {
        m := m.(lines := m.lines + 1);
        if m.lines > mode.maxLines || |m.buf| + 1 + |data| > MAX_RECORD { m := m.(invalid := true); }
        if !m.invalid { m := m.(buf := m.buf + [LF] + data); }
      }
      multi := m;
    }

    // A line that is a record of its own.
    method EmitSingle(data: seq<byte>, invalid: bool)
      requires Core() && story.open == [] && !Starts(mode, Line(data, invalid, read))
      requires Settled(mode, story) || !Joins(mode, Line(data, invalid, read))
      requires |data| <= MAX_RECORD && (invalid ==> data == []) && read >= 0
      modifies this`out, this`complete, this`story
      ensures Core() && Settled(mode, story)
      ensures story.input == old(story).input + [Line(data, invalid, read)] && story.cut == old(story).cut + [false]
      ensures old(out) <= out
    {
      ghost var l := Line(data, invalid, read);
      SingleKeeps(mode, story, multi, out, l);
      story := story.(input := story.input + [l], groups := story.groups + [[l]], cut := story.cut + [false]);
      Deliver(data, invalid, read);
    }

    // First line end in `p`, or -1.
    method FindEnd(p: seq<byte>) returns (end: int)
      ensures -1 <= end < |p|
      ensures end < 0 ==> Whole(carriageReturn, p)
      ensures end >= 0 ==> Whole(carriageReturn, p[..end]) && IsEnd(carriageReturn, p[end])
    {
      end := IndexByte(p, LF);
      if carriageReturn {
        var cr := IndexByte(p, CR);
        if cr >= 0 && (end < 0 || cr < end) { end := cr; }
      }
    }

    static method IndexByte(p: seq<byte>, b: byte) returns (i: int)
      ensures -1 <= i < |p|
      ensures i < 0 ==> b !in p
      ensures i >= 0 ==> p[i] == b && b !in p[..i]
    {
      i := 0;
      while i < |p|
        invariant 0 <= i <= |p| && b !in p[..i]
      {
        if p[i] == b { return; }
        i := i + 1;
      }
      i := -1;
    }

    // Appends a piece of a line to the buffer, or gives the line up as oversized.
    method Buffer(part: seq<byte>, ghost tail: seq<byte>)
      requires Buffers(tail, buf, oversize)
      modifies this`buf, this`oversize
      ensures Buffers(tail + part, buf, oversize)
    {
      if !oversize {
        if |buf| + |part| > MAX_RECORD {
          oversize, buf := true, [];
        } else {
          buf := buf + part;
        }
      }
    }

    // Bytes without a line end extend the unfinished line.
    method Extend(part: seq<byte>)
      requires Valid() && !closed && Whole(carriageReturn, part)
      modifies this`buf, this`oversize, this`read, this`written
      ensures Valid() && written == old(written) + part
    {
      hide Lines, Tail, StoryOk, Settled;
      TailGrows(carriageReturn, written, part);
      Buffer(part, Tail(carriageReturn, written));
      read := read + |part|;
      written := written + part;
    }

    // The unfinished line ends.
    method Finish(end: byte)
      requires Valid() && !closed && IsEnd(carriageReturn, end)
      modifies this`buf, this`oversize, this`read, this`complete, this`multi, this`out, this`written, this`story
      ensures Valid() && written == old(written) + [end]
      ensures old(out) <= out
    {
      hide Lines, Tail, StoryOk, Settled;
      OneLineMore(carriageReturn, written, end);
      read := read + 1;
      EndLine(buf, oversize);
      buf, oversize := [], false;
      written := written + [end];
    }

    // The part of a write up to its first line end, if it has one.
    method Consume(rest: seq<byte>) returns (n: int)
      requires Valid() && !closed && rest != []
      modifies this`buf, this`oversize, this`read, this`complete, this`multi, this`out, this`written, this`story
      ensures Valid() && 0 < n <= |rest| && written == old(written) + rest[..n]
      ensures old(out) <= out
    {
      var end := FindEnd(rest);
      n := if end < 0 then |rest| else end + 1;
      if end < 0 {
        assert rest[..n] == rest;
        Extend(rest);
      } else {
        Cut(written, rest, end);
        Extend(rest[..end]);
        Finish(rest[end]);
      }
    }

    /** A write of any size: only the concatenation of everything written matters. */
    method Write(p: seq<byte>) returns (n: int, ok: bool)
      requires Valid()
      modifies this`buf, this`oversize, this`read, this`complete, this`multi, this`out, this`written, this`story
      ensures Valid() && ok == !closed && n == (if ok then |p| else 0)
      ensures written == if ok then old(written) + p else old(written)
      ensures !ok ==> out == old(out)
      ensures old(out) <= out
    {
      if closed { return 0, false; }
      n, ok := |p|, true;
      var rest := p;
      while |rest| > 0
        invariant Valid() && written + rest == old(written) + p
        invariant old(out) <= out
      {
        ghost var before := written;
        var used := Consume(rest);
        Splice(before, rest, used);
        rest := rest[used..];
      }
    }

    /** Close emits the unfinished line, then the unfinished record. */
    method Close()
      requires Valid()
      modifies this
      ensures Valid() && closed && written == old(written) && old(out) <= out && abandoned == old(abandoned) && timed == old(timed)
      ensures old(closed) ==> out == old(out)
      ensures !old(closed) ==> story.open == []
    {
      hide Lines, Tail, StoryOk;
      if closed { return; }
      if |buf| > 0 || oversize { EndLine(buf, oversize); }
      Flush(true);
      buf, oversize := [], false;
      closed := true;
    }

    /** Discard gives up whatever is unfinished; nothing is emitted after it. */
    method Discard()
      requires Valid()
      modifies this`closed, this`buf, this`multi, this`abandoned
      ensures Valid() && closed && (old(closed) ==> abandoned == old(abandoned))
    {
      hide Lines, Tail, AllLines;
      if !closed { abandoned := true; }
      closed, buf, multi := true, [], multi.(buf := []);
    }

    /** A timer armed for epoch `e` fires: it ends the record it was armed for, or does nothing. */
    method TimerFires(e: nat)
      requires Valid() && e in story.armed
      modifies this`multi, this`out, this`complete, this`story, this`timed
      ensures Valid() && old(out) <= out && story.input == old(story).input
      ensures timed == (old(timed) || out != old(out))
      ensures out != old(out) <==> !closed && old(multi).epoch == e
      ensures out != old(out) ==> |out| == |old(out)| + 1 && old(story).armed[e] == |old(out)|
      ensures out != old(out) ==> story.groups == old(story).groups + [old(story).open] && story.open == []
    {
      hide Lines, Tail, StoryOk, AllLines;
      if !closed && multi.epoch == e {
        ArmedForOpen(mode, story, multi, out, e);
        Flush(true);
        timed := true;
      }
    }

    /** In line and carriage-return modes the records depend on the bytes written, not on how they were cut into writes. */
    lemma RecordsOfBytes()
      requires Valid() && !abandoned && mode.Plain?
      ensures out == LineRecords(AllLines(carriageReturn, written, closed))
      ensures complete == if out == [] then 0 else out[|out| - 1].end
    {
      hide Lines, Tail;
      assert story.open == [];
      assert Flatten(story.groups) == story.input;
      LinesAreBounded(carriageReturn, written);
      PlainRecords(story.groups, out, story.input);
    }

    /**
      Multiline records, as an observer sees them: of a closed framer on which no timer ended a
      record, the records are exactly those of the one maximal grouping of the lines of everything
      written; each carries its lines joined, or is invalid and carries the beginning that fits.
     */
    lemma RecordsAreGrouped()
      requires Valid() && !abandoned && closed && !timed
      ensures var gs := Grouped(mode, AllLines(carriageReturn, written, true));
              && |out| == |gs|
              && forall k :: 0 <= k < |gs| ==> gs[k] != [] && out[k] == RecordFor(mode, gs[k])
    {
      hide Lines, Tail, Text, Bad, GoodPart;
      var gs := story.groups;
      assert Flatten(gs) + [] == Flatten(gs) == story.input;
      assert forall k :: 0 <= k < |gs| ==> RecordOf(mode, gs[k], out[k]);
      assert Maximal(mode, gs) by {
        forall k | 0 <= k < |gs| - 1 && Opened(mode, gs[k]) ensures !Joins(mode, gs[k + 1][0]) {
          assert !story.cut[k] && !NextLineJoins(mode, story, k);
          assert RecordOf(mode, gs[k + 1], out[k + 1]);
        }
      }
      MaximalIsGrouped(mode, gs);
    }

    /**
      Conservation, as an observer sees it: when a closed framer emitted no invalid record,
      splitting its records at line feeds gives back the lines of everything written, in order,
      none lost and none repeated, whatever the mode and whenever timers fired.
     */
    lemma RecordsAreTheLines()
      requires Valid() && !abandoned && closed
      requires forall k :: 0 <= k < |out| ==> !out[k].invalid
      ensures SplitAll(out) == DataOf(AllLines(carriageReturn, written, true))
    {
      hide Lines, Tail, RecordOf;
      LinesAreUnbroken(carriageReturn, written);
      TailIsWhole(carriageReturn, written);
      assert Flatten(story.groups) + [] == Flatten(story.groups) == story.input;
      assert story.groups[..|out|] == story.groups && out[..|out|] == out;
      SplitGroups(mode, story.groups, out, |out|);
    }

    /** Whatever the mode, what the framer reports complete never exceeds what it has read. */
    lemma CompleteIsRead()
      requires Valid() && !abandoned
      ensures 0 <= complete <= |written|
    {
      hide Lines, Tail, StoryOk;
      if out != [] {
        OffsetsInOrder(mode, story, multi, out, carriageReturn, written, closed, |out| - 1, |out| - 1);
      }
    }
  }

  // Framing as configured: patterns as text, `flushAfter` in milliseconds, both optional numbers as written.
  datatype FrameConfig = FrameConfig(mode: string, start: string, continuation: string, maxLines: int, flushAfter: Option<int>)

  type Pattern = seq<byte> -> bool

  ghost predicate Configurable(c: FrameConfig, compile: string -> Option<Pattern>) {
    if c.mode == "multiline" then
      && (c.maxLines == 0 || 2 <= c.maxLines <= 1000)
      && (c.flushAfter.Some? ==> 100 <= c.flushAfter.value <= 5000)
      && 1 <= |c.start| <= 1024 && 1 <= |c.continuation| <= 1024
      && compile(c.start).Some? && compile(c.continuation).Some?
    else
      && (c.mode == "" || c.mode == "line" || c.mode == "carriage-return")
      && c.start == "" && c.continuation == "" && c.maxLines == 0 && c.flushAfter.None?
  }

  /** A framer for any configuration within the limits, and none for any other. */
  method NewConfiguredFramer(c: FrameConfig, compile: string -> Option<Pattern>) returns (f: Framer?)
    ensures f == null <==> !Configurable(c, compile)
    ensures f != null ==>
      && fresh(f) && f.Valid() && f.written == [] && f.out == [] && !f.closed
      && f.carriageReturn == (c.mode == "carriage-return")
      && f.mode == if c.mode == "multiline"
                   then Multiline(compile(c.start).value, compile(c.continuation).value, if c.maxLines == 0 then 100 else c.maxLines)
                   else Plain
  {
    if c.mode != "multiline" {
      var mode := if c.mode == "" then "line" else c.mode;
      if (mode != "line" && mode != "carriage-return") || c.start != "" || c.continuation != "" || c.maxLines != 0 || c.flushAfter.Some? {
        return null;
      }
      f := new Framer(Plain, mode == "carriage-return");
      return;
    }
    var maxLines := if c.maxLines == 0 then 100 else c.maxLines;
    var after := if c.flushAfter.None? then 1000 else c.flushAfter.value;
    if after < 100 || after > 5000 || maxLines < 2 || maxLines > 1000 { return null; }
    if |c.start| == 0 || |c.start| > 1024 || |c.continuation| == 0 || |c.continuation| > 1024 { return null; }
    var start, continuation := compile(c.start), compile(c.continuation);
    if start.None? || continuation.None? { return null; }
    f := new Framer(Multiline(start.value, continuation.value, maxLines), false);
  }
}
