/** The packer signatures: loading them from their text, and matching a file against them. */
module PackerLoader {
  import opened Prelude
  import opened PackerText

  datatype PackSignature = PackSignature(name: string, pattern: Pattern, epOnly: bool)

  // ----- The file as blocks, each from one header to the next

  /** The last pattern in some lines, and the last `ep_only`. */
  function PatternIn(ls: seq<Line>): Pattern {
    if ls == [] then [] else if ls[|ls| - 1].Signature? then ls[|ls| - 1].pattern else PatternIn(ls[..|ls| - 1])
  }

  function EpOnlyIn(ls: seq<Line>): bool {
    if ls == [] then true else if ls[|ls| - 1].EpOnly? then ls[|ls| - 1].value else EpOnlyIn(ls[..|ls| - 1])
  }

  function NextHeader(ls: seq<Line>, i: nat): (n: nat)
    requires i <= |ls|
    ensures i <= n <= |ls| && (n < |ls| ==> ls[n].Header?) && forall k :: i <= k < n ==> !ls[k].Header?
    decreases |ls| - i
  {
    if i == |ls| || ls[i].Header? then i else NextHeader(ls, i + 1)
  }

  /** A block counts only with a name and a pattern. */
  function Entry(name: string, body: seq<Line>): seq<PackSignature> {
    if name != "" && PatternIn(body) != [] then [PackSignature(name, PatternIn(body), EpOnlyIn(body))] else []
  }

  /** What the line `i` brings: its block, if it is a header. */
  function Block(ls: seq<Line>, i: nat): seq<PackSignature>
    requires i < |ls|
  {
    match ls[i]
    case Header(name) => Entry(name, ls[i + 1..NextHeader(ls, i + 1)])
    case _ => []
  }

  /** The blocks that begin before line `n`, in file order. */
  function Blocks(ls: seq<Line>, n: nat): seq<PackSignature>
    requires n <= |ls|
  {
    if n == 0 then [] else Blocks(ls, n - 1) + Block(ls, n - 1)
  }

  function LastHeader(ls: seq<Line>, n: nat): (h: int)
    requires n <= |ls|
    ensures -1 <= h < n && (h >= 0 ==> ls[h].Header?) && forall k :: h < k < n ==> !ls[k].Header?
  {
    if n == 0 then -1 else if ls[n - 1].Header? then n - 1 else LastHeader(ls, n - 1)
  }

  lemma NoBlocksBetween(ls: seq<Line>, m: nat, n: nat)
    requires m <= n <= |ls| && forall k :: m <= k < n ==> !ls[k].Header?
    ensures Blocks(ls, n) == Blocks(ls, m)
  {
  }

  // ----- The fields of a block: the last line wins

  lemma {:induction false} LastPatternWins(ls: seq<Line>, k: nat)
    requires k < |ls| && ls[k].Signature? && forall i :: k < i < |ls| ==> !ls[i].Signature?
    ensures PatternIn(ls) == ls[k].pattern
  {
    if k < |ls| - 1 {
      LastPatternWins(ls[..|ls| - 1], k);
    }
  }

  lemma {:induction false} LastEpOnlyWins(ls: seq<Line>, k: nat)
    requires k < |ls| && ls[k].EpOnly? && forall i :: k < i < |ls| ==> !ls[i].EpOnly?
    ensures EpOnlyIn(ls) == ls[k].value
  {
    if k < |ls| - 1 {
      LastEpOnlyWins(ls[..|ls| - 1], k);
    }
  }

  lemma {:induction false} Defaults(ls: seq<Line>)
    ensures (forall l :: l in ls ==> !l.Signature?) ==> PatternIn(ls) == []
    ensures (forall l :: l in ls ==> !l.EpOnly?) ==> EpOnlyIn(ls)
  {
    if ls != [] {
      Defaults(ls[..|ls| - 1]);
    }
  }

  // ----- The engine

  datatype Section = Section(virtualAddress: nat, virtualSize: nat, rawPointer: nat)

  datatype Image = Image(entry: nat, sections: seq<Section>)

  type Bytes = seq<byte>

  predicate Contains(s: Section, entry: nat) { s.virtualAddress <= entry < s.virtualAddress + s.virtualSize }

  predicate Matches(data: Bytes, pattern: Pattern) {
    |pattern| <= |data| && forall i :: 0 <= i < |pattern| && pattern[i].Some? ==> data[i] == pattern[i].value
  }

  /** A signature is looked for at the entry point, or at the very start of the file. */
  predicate Hits(sig: PackSignature, file: Bytes, entry: nat)
    requires entry <= |file|
  {
    Matches(if sig.epOnly then file[entry..] else file, sig.pattern)
  }

  method MatchPattern(data: Bytes, pattern: Pattern) returns (r: bool)
    ensures r <==> Matches(data, pattern)
  {
    if |data| < |pattern| {
      return false;
    }
    for i := 0 to |pattern|
      invariant forall k :: 0 <= k < i && pattern[k].Some? ==> data[k] == pattern[k].value
    {
      if pattern[i].Some? && data[i] != pattern[i].value {
        return false;
      }
    }
    r := true;
  }

  /** Where the entry point lies in the file, by the first section that contains it. */
  method FindEntryPointOffset(pe: Image) returns (r: Option<nat>)
    ensures r.None? <==> forall i :: 0 <= i < |pe.sections| ==> !Contains(pe.sections[i], pe.entry)
    ensures r.Some? ==> exists i :: 0 <= i < |pe.sections| && FirstSection(pe, i)
                          && r.value == pe.sections[i].rawPointer + (pe.entry - pe.sections[i].virtualAddress)
  {
    for i := 0 to |pe.sections|
      invariant forall k :: 0 <= k < i ==> !Contains(pe.sections[k], pe.entry)
    {
      var section := pe.sections[i];
      if pe.entry >= section.virtualAddress && pe.entry < section.virtualAddress + section.virtualSize {
        assert FirstSection(pe, i);
        return Some(section.rawPointer + (pe.entry - section.virtualAddress));
      }
    }
    r := None;
  }

  predicate FirstSection(pe: Image, i: nat)
    requires i < |pe.sections|
  {
    Contains(pe.sections[i], pe.entry) && forall k :: 0 <= k < i ==> !Contains(pe.sections[k], pe.entry)
  }

  /** The file offset of the entry point, as a function. */
  function EntryOffset(pe: Image, i: nat): Option<nat>
    requires i <= |pe.sections|
    decreases |pe.sections| - i
  {
    if i == |pe.sections| then None
    else if Contains(pe.sections[i], pe.entry) then
      Some(pe.sections[i].rawPointer + (pe.entry - pe.sections[i].virtualAddress))
    else EntryOffset(pe, i + 1)
  }

  lemma {:induction false} EntryOffsetIsFirst(pe: Image, i: nat)
    requires i < |pe.sections| && FirstSection(pe, i)
    ensures EntryOffset(pe, 0) == Some(pe.sections[i].rawPointer + (pe.entry - pe.sections[i].virtualAddress))
  {
    var k := i;
    while k > 0
      invariant 0 <= k <= i
      invariant EntryOffset(pe, k) == Some(pe.sections[i].rawPointer + (pe.entry - pe.sections[i].virtualAddress))
    {
      k := k - 1;
    }
  }

  lemma {:induction false} NoEntryOffset(pe: Image, i: nat)
    requires i <= |pe.sections| && forall k :: i <= k < |pe.sections| ==> !Contains(pe.sections[k], pe.entry)
    ensures EntryOffset(pe, i) == None
    decreases |pe.sections| - i
  {
    if i < |pe.sections| {
      NoEntryOffset(pe, i + 1);
    }
  }

  /** The name of the first signature that hits. */
  function FirstHit(sigs: seq<PackSignature>, file: Bytes, entry: nat): Option<string>
    requires entry <= |file|
  {
    if sigs == [] then None
    else if Hits(sigs[0], file, entry) then Some(sigs[0].name)
    else FirstHit(sigs[1..], file, entry)
  }

  function ScanResult(sigs: seq<PackSignature>, pe: Image, file: Bytes): Option<string> {
    match EntryOffset(pe, 0)
    case None => None
    case Some(entry) => if entry >= |file| then None else FirstHit(sigs, file, entry)
  }

  /** Reading a line fails, or gives its text. */
  type Lines = seq<Result<string, string>>

  /** How many lines can be read before the first that cannot. */
  function Readable(lines: Lines): (n: nat)
    ensures n <= |lines| && (n < |lines| ==> lines[n].Err?) && forall i :: 0 <= i < n ==> lines[i].Ok?
  {
    if lines == [] || lines[0].Err? then 0 else 1 + Readable(lines[1..])
  }

  function Good(lines: Lines): seq<Line> {
    seq(Readable(lines), i requires 0 <= i < Readable(lines) => Classify(lines[i].value))
  }

  /** Before line `k`, with the last header at `h`: the fields are those of the block so far. */
  ghost predicate Reading(ls: seq<Line>, h: int, k: nat, name: string, pattern: Pattern, epOnly: bool) {
    && -1 <= h < k <= |ls|
    && (if h < 0 then name == "" else ls[h] == Header(name))
    && (forall i :: h < i < k ==> !ls[i].Header?)
    && pattern == PatternIn(ls[h + 1..k]) && epOnly == EpOnlyIn(ls[h + 1..k])
  }

  lemma StartReading(ls: seq<Line>)
    ensures Reading(ls, -1, 0, "", [], true) && Blocks(ls, 0) == []
  {
  }

  lemma NextLine(ls: seq<Line>, h: int, k: nat, name: string, pattern: Pattern, epOnly: bool)
    requires Reading(ls, h, k, name, pattern, epOnly) && k < |ls|
    ensures match ls[k]
            case Header(header) => Reading(ls, k, k + 1, header, [], true)
            case Signature(p) => Reading(ls, h, k + 1, name, p, epOnly)
            case EpOnly(value) => Reading(ls, h, k + 1, name, pattern, value)
            case _ => Reading(ls, h, k + 1, name, pattern, epOnly)
  {
    assert ls[h + 1..k + 1][..k - h - 1] == ls[h + 1..k];
  }

  class PackerSignatureEngine {
    var signatures: seq<PackSignature>

    constructor ()
      ensures signatures == []
    {
      signatures := [];
    }

    /** Appends the blocks of the text, in order. If a line cannot be read, only the blocks closed by
        a header before it have been appended. */
    method Load(file: Result<Lines, string>) returns (r: Result<(), string>)
      modifies this
      ensures file.Err? ==> r.Err? && signatures == old(signatures)
      ensures file.Ok? ==>
                var ls := Good(file.value);
                if |ls| == |file.value| then
                  r.Ok? && signatures == old(signatures) + Blocks(ls, |ls|)
                else
                  && r == Err(file.value[|ls|].error)
                  && signatures == old(signatures) + Blocks(ls, Closed(ls))
    {
      hide Classify, PatternIn, EpOnlyIn, Blocks;
      if file.Err? {
        return Err(file.error);
      }
      var lines := file.value;
      var name, pattern, epOnly := "", [], true;
      ghost var ls, h := Good(lines), -1;
      StartReading(ls);
      for k := 0 to |lines|
        invariant Reading(ls, h, k, name, pattern, epOnly)
        invariant signatures == old(signatures) + Blocks(ls, if h < 0 then 0 else h)
      {
        if lines[k].Err? {
          assert k == |ls| && h == LastHeader(ls, |ls|);
          return Err(lines[k].error);
        }
        NextLine(ls, h, k, name, pattern, epOnly);
        match Classify(lines[k].value) {
          case Header(header) =>
            BlockEnds(ls, h, k);
            if name != "" && pattern != [] {
              signatures := signatures + [PackSignature(name, pattern, epOnly)];
            }
            name, pattern, epOnly := header, [], true;
            h := k;
          case Signature(p) => pattern := p;
          case EpOnly(value) => epOnly := value;
          case _ =>
        }
      }
      BlockEnds(ls, h, |ls|);
      if name != "" && pattern != [] {
        signatures := signatures + [PackSignature(name, pattern, epOnly)];
      }
      r := Ok(());
    }

    /** The first signature that hits gives its name. */
    method Scan(pe: Image, buffer: Bytes) returns (r: Option<string>)
      ensures r == ScanResult(signatures, pe, buffer)
    {
      var offset := FindEntryPointOffset(pe);
      if offset.None? {
        NoEntryOffset(pe, 0);
        return None;
      }
      ghost var first :| 0 <= first < |pe.sections| && FirstSection(pe, first)
        && offset.value == pe.sections[first].rawPointer + (pe.entry - pe.sections[first].virtualAddress);
      EntryOffsetIsFirst(pe, first);
      var entry := offset.value;
      if entry >= |buffer| {
        return None;
      }
      var data := buffer[entry..];
      for i := 0 to |signatures|
        invariant FirstHit(signatures, buffer, entry) == FirstHit(signatures[i..], buffer, entry)
      {
        var sig := signatures[i];
        var target := if sig.epOnly then data else buffer;
        if |sig.pattern| <= |target| {
          var hit := MatchPattern(target, sig.pattern);
          if hit {
            return Some(sig.name);
          }
        }
      }
      r := None;
    }
  }

  /** The line of the last header, before which every block is closed. */
  function Closed(ls: seq<Line>): (n: nat)
    ensures n <= |ls|
  {
    var h := LastHeader(ls, |ls|);
    if h < 0 then 0 else h
  }

  /** The block open since the header `h` ends at line `n`; before the first header there is none. */
  lemma BlockEnds(ls: seq<Line>, h: int, n: nat)
    requires -1 <= h < n <= |ls| || h == -1
    requires n <= |ls| && (n < |ls| ==> ls[n].Header?) && forall i :: h < i < n ==> !ls[i].Header?
    requires h >= 0 ==> ls[h].Header?
    ensures Blocks(ls, n) == if h < 0 then [] else Blocks(ls, h) + Entry(ls[h].name, ls[h + 1..n])
  {
    if h < 0 {
      NoBlocksBetween(ls, 0, n);
    } else {
      NoBlocksBetween(ls, h + 1, n);
      assert NextHeader(ls, h + 1) == n;
    }
  }

  // ----- What is loaded

  /** A signature is loaded exactly if some header begins a block that makes it. */
  lemma {:induction false} LoadedIffBlock(ls: seq<Line>, n: nat, sig: PackSignature)
    requires n <= |ls|
    ensures sig in Blocks(ls, n) <==> exists i :: 0 <= i < n && Block(ls, i) == [sig]
  {
    if n > 0 {
      LoadedIffBlock(ls, n - 1, sig);
    }
  }

  /** What a block is worth, from its header at `i` to the next one or the end at `j`: its last pattern, in
      line `k`, and its last word on `ep_only`, in line `e`, where `i` stands for no such line. Without a
      name or a pattern it is worth nothing. */
  lemma BlockMeans(ls: seq<Line>, i: nat, j: nat, k: nat, e: nat)
    requires i < j <= |ls| && ls[i].Header? && (j < |ls| ==> ls[j].Header?)
    requires forall n :: i < n < j ==> !ls[n].Header?
    requires i <= k < j && (k > i ==> ls[k].Signature?) && forall n :: k < n < j ==> !ls[n].Signature?
    requires i <= e < j && (e > i ==> ls[e].EpOnly?) && forall n :: e < n < j ==> !ls[n].EpOnly?
    ensures Block(ls, i) ==
            if ls[i].name != "" && k > i && ls[k].pattern != [] then
              [PackSignature(ls[i].name, ls[k].pattern, if e > i then ls[e].value else true)]
            else
              []
  {
    hide PatternIn, EpOnlyIn;
    assert NextHeader(ls, i + 1) == j;
    var body := ls[i + 1..j];
    Defaults(body);
    if k > i {
      LastPatternWins(body, k - i - 1);
    }
    if e > i {
      LastEpOnlyWins(body, e - i - 1);
    }
  }

  predicate Loadable(sig: PackSignature) { sig.name != "" && sig.pattern != [] }

  function LinesOf(sig: PackSignature): seq<Line> {
    [Header(sig.name), Signature(sig.pattern), EpOnly(sig.epOnly)]
  }

  function LinesOfAll(sigs: seq<PackSignature>): seq<Line> {
    if sigs == [] then [] else LinesOfAll(sigs[..|sigs| - 1]) + LinesOf(sigs[|sigs| - 1])
  }

  function ClassifyAll(lines: seq<string>): seq<Line> {
    seq(|lines|, i requires 0 <= i < |lines| => Classify(lines[i]))
  }

  // ----- The blocks read line by line

  /** The closed blocks, and the fields of the open one. */
  datatype Reader = Reader(closed: seq<PackSignature>, name: string, pattern: Pattern, epOnly: bool)

  function Close(r: Reader): seq<PackSignature> {
    if r.name != "" && r.pattern != [] then r.closed + [PackSignature(r.name, r.pattern, r.epOnly)] else r.closed
  }

  function ReadLine(r: Reader, l: Line): Reader {
    match l
    case Header(name) => Reader(Close(r), name, [], true)
    case Signature(pattern) => r.(pattern := pattern)
    case EpOnly(value) => r.(epOnly := value)
    case _ => r
  }

  function ReadAll(ls: seq<Line>): Reader {
    if ls == [] then Reader([], "", [], true) else ReadLine(ReadAll(ls[..|ls| - 1]), ls[|ls| - 1])
  }

  /** Lines that are passed over, left out. */
  function Significant(ls: seq<Line>): seq<Line> {
    if ls == [] then []
    else
      var l := ls[|ls| - 1];
      if l.Blank? || l.Unknown? then Significant(ls[..|ls| - 1]) else Significant(ls[..|ls| - 1]) + [l]
  }

  lemma {:induction false} SignificantIsRead(ls: seq<Line>)
    ensures ReadAll(Significant(ls)) == ReadAll(ls)
  {
    hide Close;
    if ls != [] {
      SignificantIsRead(ls[..|ls| - 1]);
      var front := Significant(ls[..|ls| - 1]);
      assert (front + [ls[|ls| - 1]])[..|front|] == front;
    }
  }

  lemma ReadNext(ls: seq<Line>, l: Line)
    ensures ReadAll(ls + [l]) == ReadLine(ReadAll(ls), l)
  {
    assert (ls + [l])[..|ls|] == ls;
  }

  lemma OneIsRead(ls: seq<Line>, sig: PackSignature)
    requires Loadable(sig)
    ensures Close(ReadAll(ls + LinesOf(sig))) == Close(ReadAll(ls)) + [sig]
  {
    hide ReadAll;
    var header, pattern, epOnly := Header(sig.name), Signature(sig.pattern), EpOnly(sig.epOnly);
    ReadNext(ls, header);
    ReadNext(ls + [header], pattern);
    ReadNext(ls + [header] + [pattern], epOnly);
    assert ls + LinesOf(sig) == ls + [header] + [pattern] + [epOnly];
    assert ReadAll(ls + LinesOf(sig)) == Reader(Close(ReadAll(ls)), sig.name, sig.pattern, sig.epOnly);
  }

  lemma {:induction false} AllAreRead(sigs: seq<PackSignature>)
    requires forall sig :: sig in sigs ==> Loadable(sig)
    ensures Close(ReadAll(LinesOfAll(sigs))) == sigs
  {
    if sigs == [] {
      assert LinesOfAll(sigs) == [] && ReadAll([]) == Reader([], "", [], true);
    } else {
      hide ReadAll, Close, LinesOf;
      var n := |sigs| - 1;
      AllAreRead(sigs[..n]);
      OneIsRead(LinesOfAll(sigs[..n]), sigs[n]);
      assert sigs == sigs[..n] + [sigs[n]];
    }
  }

  /** Lines added behind a header-started rest do not change the blocks before. */
  lemma {:induction false} BlocksOfPrefix(ls: seq<Line>, more: seq<Line>, n: nat)
    requires n <= |ls| && more != [] && more[0].Header?
    ensures Blocks(ls + more, n) == Blocks(ls, n)
  {
    hide Entry, NextHeader;
    if n > 0 {
      BlocksOfPrefix(ls, more, n - 1);
      NextHeaderOfPrefix(ls, more, n);
      assert (ls + more)[n..NextHeader(ls, n)] == ls[n..NextHeader(ls, n)];
    }
  }

  lemma {:induction false} NextHeaderOfPrefix(ls: seq<Line>, more: seq<Line>, i: nat)
    requires i <= |ls| && more != [] && more[0].Header?
    ensures NextHeader(ls + more, i) == NextHeader(ls, i)
    decreases |ls| - i
  {
    if i < |ls| {
      NextHeaderOfPrefix(ls, more, i + 1);
    }
  }

  /** The blocks up to a header depend only on the lines before it. */
  lemma BlocksBefore(ls: seq<Line>, h: nat)
    requires h < |ls| && ls[h].Header?
    ensures Blocks(ls, h) == Blocks(ls[..h], h)
  {
    hide Blocks;
    BlocksOfPrefix(ls[..h], ls[h..], h);
    assert ls == ls[..h] + ls[h..];
  }

  /** Reading line by line, the closed blocks are those before the last header, and the open one has
      the fields of the lines since. */
  ghost predicate ReadsBlocks(ls: seq<Line>, r: Reader) {
    var h := LastHeader(ls, |ls|);
    var body := ls[h + 1..|ls|];
    && r.closed == Blocks(ls, Closed(ls)) && r.name == (if h < 0 then "" else ls[h].name)
    && r.pattern == PatternIn(body) && r.epOnly == EpOnlyIn(body)
  }

  lemma ClosedBlocks(ls: seq<Line>, r: Reader)
    requires ReadsBlocks(ls, r)
    ensures Close(r) == Blocks(ls, |ls|)
  {
    hide PatternIn, EpOnlyIn, LastHeader, Entry;
    var h := LastHeader(ls, |ls|);
    if h >= 0 {
      hide Blocks;
      BlockEnds(ls, h, |ls|);
      CloseIsEntry(r, ls[h + 1..|ls|]);
      hide Close;
    } else {
      NoBlocksBetween(ls, 0, |ls|);
    }
  }

  lemma CloseIsEntry(r: Reader, body: seq<Line>)
    requires r.pattern == PatternIn(body) && r.epOnly == EpOnlyIn(body)
    ensures Close(r) == r.closed + Entry(r.name, body)
  {
    hide PatternIn, EpOnlyIn;
  }

  lemma {:induction false} ReadIsBlocks(ls: seq<Line>)
    ensures ReadsBlocks(ls, ReadAll(ls))
  {
    if ls == [] {
      assert ls[0..0] == [];
      assert Blocks(ls, 0) == [];
    } else {
      var n := |ls| - 1;
      assert ReadAll(ls) == ReadLine(ReadAll(ls[..n]), ls[n]);
      hide Blocks, Close, LastHeader, ReadsBlocks, ReadLine, ReadAll;
      ReadIsBlocks(ls[..n]);
      ReadsNext(ls[..n], ReadAll(ls[..n]), ls[n]);
      assert ls[..n] + [ls[n]] == ls;
    }
  }

  lemma ReadsNext(front: seq<Line>, r: Reader, l: Line)
    requires ReadsBlocks(front, r)
    ensures ReadsBlocks(front + [l], ReadLine(r, l))
  {
    hide ReadsBlocks, ReadLine;
    if l.Header? {
      HeaderReads(front, r, l);
    } else {
      LineReads(front, r, l);
    }
  }

  lemma HeaderReads(front: seq<Line>, r: Reader, l: Line)
    requires ReadsBlocks(front, r) && l.Header?
    ensures ReadsBlocks(front + [l], ReadLine(r, l))
  {
    var ls := front + [l];
    ClosedBlocks(front, r);
    assert LastHeader(ls, |ls|) == |front|;
    hide Blocks, Close, LastHeader;
    BlocksBefore(ls, |front|);
    assert ls[..|front|] == front && ls[|front| + 1..|ls|] == [];
    assert Blocks(front, |front|) == Blocks(ls, |front|);
  }

  lemma LineReads(front: seq<Line>, r: Reader, l: Line)
    requires ReadsBlocks(front, r) && !l.Header?
    ensures ReadsBlocks(front + [l], ReadLine(r, l))
  {
    hide Blocks, Closed, LastHeader, PatternIn, EpOnlyIn;
    NoHeaderLast(front, l);
    FieldsNext(front, LastHeader(front, |front|), l);
    ClosedStay(front, l);
  }

  lemma ClosedStay(front: seq<Line>, l: Line)
    requires !l.Header?
    ensures Blocks(front, Closed(front)) == Blocks(front + [l], Closed(front + [l]))
  {
    hide Blocks, LastHeader;
    var ls, h := front + [l], LastHeader(front, |front|);
    NoHeaderLast(front, l);
    if h >= 0 {
      BlocksBefore(ls, h);
      BlocksBefore(front, h);
      assert ls[..h] == front[..h];
    } else {
      NoBlocks(front);
      NoBlocks(ls);
    }
  }

  lemma NoBlocks(ls: seq<Line>)
    ensures Blocks(ls, 0) == []
  {
  }

  lemma NoHeaderLast(front: seq<Line>, l: Line)
    requires !l.Header?
    ensures LastHeader(front + [l], |front| + 1) == LastHeader(front, |front|)
  {
    LastHeaderNext(front, l, |front|);
  }

  lemma FieldsNext(front: seq<Line>, h: int, l: Line)
    requires -1 <= h < |front|
    ensures var (body, next) := (front[h + 1..|front|], (front + [l])[h + 1..|front| + 1]);
            && PatternIn(next) == (if l.Signature? then l.pattern else PatternIn(body))
            && EpOnlyIn(next) == (if l.EpOnly? then l.value else EpOnlyIn(body))
  {
    var (body, next) := (front[h + 1..|front|], (front + [l])[h + 1..|front| + 1]);
    assert next == body + [l];
    assert next[..|body|] == body;
  }

  lemma {:induction false} LastHeaderNext(front: seq<Line>, l: Line, n: nat)
    requires n <= |front|
    ensures LastHeader(front + [l], n) == LastHeader(front, n)
  {
    if n > 0 {
      LastHeaderNext(front, l, n - 1);
    }
  }

  // ----- What is written is loaded

  /** Every line may be written for what `ls` says of it. */
  ghost predicate Written(texts: seq<string>, ls: seq<Line>) {
    |texts| == |ls| && forall i :: 0 <= i < |ls| ==> IsLine(texts[i], ls[i])
  }

  /** A text that spells a list of signatures, with whatever blanks, letter case, comments, empty lines
      and unknown lines, falls into exactly this list's blocks. */
  lemma WrittenIsRead(texts: seq<string>, ls: seq<Line>, sigs: seq<PackSignature>)
    requires Written(texts, ls) && Significant(ls) == LinesOfAll(sigs)
    requires forall sig :: sig in sigs ==> Loadable(sig)
    ensures ClassifyAll(texts) == ls && Blocks(ls, |ls|) == sigs
  {
    forall i | 0 <= i < |ls| ensures Classify(texts[i]) == ls[i] {
      LineIsRead(texts[i], ls[i]);
    }
    SignificantIsRead(ls);
    AllAreRead(sigs);
    ReadIsBlocks(ls);
    ClosedBlocks(ls, ReadAll(ls));
    hide Classify, IsLine, Significant, LinesOfAll, Blocks, ReadAll, Close;
  }

  /** A signature as lines of text. */
  function Render(sig: PackSignature): seq<string> {
    ["[" + sig.name + "]",
     "signature=" + RenderPattern(sig.pattern),
     "ep_only=" + if sig.epOnly then "true" else "false"]
  }

  function RenderAll(sigs: seq<PackSignature>): seq<string> {
    if sigs == [] then [] else RenderAll(sigs[..|sigs| - 1]) + Render(sigs[|sigs| - 1])
  }

  lemma RenderIsWritten(sig: PackSignature)
    requires Loadable(sig)
    ensures Written(Render(sig), LinesOf(sig))
  {
    HeaderIsWritten(sig.name);
    PatternLineIsWritten(sig.pattern);
    EpOnlyIsWritten(sig.epOnly);
    hide IsLine, RenderPattern;
  }

  lemma PatternLineIsWritten(p: Pattern)
    requires p != []
    ensures IsLine("signature=" + RenderPattern(p), Signature(p))
  {
    var v := RenderPattern(p);
    RenderIsPattern(p);
    hide IsSpace, IsKeyLine, IsPattern, RenderPattern;
    EntryIsWritten("signature", v);
    assert "signature" + "=" + v == "signature=" + v;
  }

  lemma EpOnlyIsWritten(epOnly: bool)
    ensures IsLine("ep_only=" + if epOnly then "true" else "false", EpOnly(epOnly))
  {
    var v := if epOnly then "true" else "false";
    assert Tight(v) && (epOnly <==> SameButCase(v, "true"));
    hide IsSpace, IsKeyLine, SameButCase;
    EntryIsWritten("ep_only", v);
    assert "ep_only" + "=" + v == "ep_only=" + v;
  }

  lemma HeaderIsWritten(name: string)
    ensures IsLine("[" + name + "]", Header(name))
  {
    var line := "[" + name + "]";
    assert line == "" + "[" + name + "]" + "";
    assert IsHeaderLine(line, "", name, "");
  }

  lemma EntryIsWritten(key: string, v: string)
    requires Tight(v)
    ensures IsKeyLine(key + "=" + v, key, v)
  {
    hide IsSpace;
    assert key + "=" + v == "" + (key + "" + "=" + ("" + v)) + "";
    assert SameButCase(key, key) && IsEntry(key + "=" + v, Margins("", "", "", ""), key, v);
  }

  lemma {:induction false} RenderAllIsWritten(sigs: seq<PackSignature>)
    requires forall sig :: sig in sigs ==> Loadable(sig)
    ensures Written(RenderAll(sigs), LinesOfAll(sigs)) && Significant(LinesOfAll(sigs)) == LinesOfAll(sigs)
  {
    if sigs != [] {
      var n := |sigs| - 1;
      RenderAllIsWritten(sigs[..n]);
      RenderIsWritten(sigs[n]);
      hide IsLine, Render, LinesOf, Significant, Written;
      AllSignificant(LinesOfAll(sigs[..n]), sigs[n]);
      WrittenJoined(RenderAll(sigs[..n]), LinesOfAll(sigs[..n]), Render(sigs[n]), LinesOf(sigs[n]));
    }
  }

  lemma WrittenJoined(texts: seq<string>, ls: seq<Line>, more: seq<string>, ms: seq<Line>)
    requires Written(texts, ls) && Written(more, ms)
    ensures Written(texts + more, ls + ms)
  {
    hide IsLine;
  }

  lemma SignificantNext(ls: seq<Line>, l: Line)
    requires !l.Blank? && !l.Unknown?
    ensures Significant(ls + [l]) == Significant(ls) + [l]
  {
    assert (ls + [l])[..|ls|] == ls;
  }

  lemma AllSignificant(ls: seq<Line>, sig: PackSignature)
    requires Significant(ls) == ls
    ensures Significant(ls + LinesOf(sig)) == ls + LinesOf(sig)
  {
    hide Significant;
    var header, pattern, epOnly := Header(sig.name), Signature(sig.pattern), EpOnly(sig.epOnly);
    SignificantNext(ls, header);
    SignificantNext(ls + [header], pattern);
    SignificantNext(ls + [header] + [pattern], epOnly);
    assert ls + LinesOf(sig) == ls + [header] + [pattern] + [epOnly];
  }

  /** Every list of signatures with names and patterns can be written as a text that loads as exactly
      this list. */
  lemma LoadRendered(sigs: seq<PackSignature>)
    requires forall sig :: sig in sigs ==> Loadable(sig)
    ensures var ls := ClassifyAll(RenderAll(sigs)); Blocks(ls, |ls|) == sigs
  {
    RenderAllIsWritten(sigs);
    WrittenIsRead(RenderAll(sigs), LinesOfAll(sigs), sigs);
  }

  /** A text without a bad line is read whole. */
  lemma GoodText(texts: seq<string>)
    ensures Good(seq(|texts|, i requires 0 <= i < |texts| => Ok(texts[i]))) == ClassifyAll(texts)
    ensures |ClassifyAll(texts)| == |texts|
  {
    hide Classify;
    var lines: Lines := seq(|texts|, i requires 0 <= i < |texts| => Ok(texts[i]));
    assert forall i :: 0 <= i < |lines| ==> lines[i].Ok? && lines[i].value == texts[i];
    assert |Good(lines)| == |lines|;
  }

  /** Loading any text that spells a list of signatures appends exactly this list. */
  method LoadText(
      engine: PackerSignatureEngine, texts: seq<string>, ghost ls: seq<Line>, ghost sigs: seq<PackSignature>)
    returns (r: Result<(), string>)
    requires Written(texts, ls) && Significant(ls) == LinesOfAll(sigs)
    requires forall sig :: sig in sigs ==> Loadable(sig)
    modifies engine
    ensures r.Ok? && engine.signatures == old(engine.signatures) + sigs
  {
    var lines: Lines := seq(|texts|, i requires 0 <= i < |texts| => Ok(texts[i]));
    GoodText(texts);
    WrittenIsRead(texts, ls, sigs);
    hide Classify, Blocks, IsLine;
    r := engine.Load(Ok(lines));
  }

  // ----- What a scan finds

  /** From byte `at` on, the file has every byte that the pattern asks for. */
  predicate Agrees(file: Bytes, at: nat, pattern: Pattern) {
    at + |pattern| <= |file| && forall j :: 0 <= j < |pattern| && pattern[j].Some? ==> file[at + j] == pattern[j].value
  }

  /** A signature hits where it stands: at the entry point if it is for entry points only, and
      otherwise at the first byte of the file. */
  lemma HitsWhereItStands(sig: PackSignature, file: Bytes, entry: nat)
    requires entry <= |file|
    ensures Hits(sig, file, entry) <==> Agrees(file, if sig.epOnly then entry else 0, sig.pattern)
  {
    if sig.epOnly {
      assert forall j :: 0 <= j < |file| - entry ==> file[entry..][j] == file[entry + j];
    }
  }

  /** The first of the signatures that agrees with the file where it stands, for the entry point in the
      first section that contains it. */
  ghost predicate Finds(sigs: seq<PackSignature>, file: Bytes, entry: nat, i: nat) {
    && i < |sigs| && Agrees(file, if sigs[i].epOnly then entry else 0, sigs[i].pattern)
    && forall k :: 0 <= k < i ==> !Agrees(file, if sigs[k].epOnly then entry else 0, sigs[k].pattern)
  }

  /** The scan's answer is the first hit in file order, and none only if nothing hits. */
  lemma {:induction false} FirstHitIsFirst(sigs: seq<PackSignature>, file: Bytes, entry: nat, i: nat)
    requires entry <= |file| && Finds(sigs, file, entry, i)
    ensures FirstHit(sigs, file, entry) == Some(sigs[i].name)
  {
    hide Hits, Agrees;
    HitsWhereItStands(sigs[0], file, entry);
    if i > 0 {
      FirstHitIsFirst(sigs[1..], file, entry, i - 1);
    }
  }

  lemma {:induction false} NoHitMeansNone(sigs: seq<PackSignature>, file: Bytes, entry: nat)
    requires entry <= |file|
    ensures FirstHit(sigs, file, entry).None? <==>
            forall k :: 0 <= k < |sigs| ==> !Agrees(file, if sigs[k].epOnly then entry else 0, sigs[k].pattern)
  {
    hide Hits, Agrees;
    if sigs != [] {
      HitsWhereItStands(sigs[0], file, entry);
      NoHitMeansNone(sigs[1..], file, entry);
      assert forall k :: 1 <= k < |sigs| ==> sigs[k] == sigs[1..][k - 1];
    }
  }

  /** The place of the entry point by the section `i`, which is the first to contain it. */
  ghost predicate EntryAt(pe: Image, i: nat, entry: int) {
    && i < |pe.sections| && pe.sections[i].virtualAddress <= pe.entry
    && pe.entry < pe.sections[i].virtualAddress + pe.sections[i].virtualSize
    && (forall k :: 0 <= k < i ==>
          pe.entry < pe.sections[k].virtualAddress
          || pe.sections[k].virtualAddress + pe.sections[k].virtualSize <= pe.entry)
    && entry == pe.sections[i].rawPointer + (pe.entry - pe.sections[i].virtualAddress)
  }

  /** A scan answers with the first signature that the file agrees with, and with none exactly if there
      is no such signature, or no section has the entry point, or it lies behind the end of the file. */
  lemma ScanMeans(sigs: seq<PackSignature>, pe: Image, file: Bytes)
    ensures forall s: nat, entry: nat, i: nat ::
              EntryAt(pe, s, entry) && entry < |file| && Finds(sigs, file, entry, i) ==>
                ScanResult(sigs, pe, file) == Some(sigs[i].name)
    ensures ScanResult(sigs, pe, file).None? ==>
              forall s: nat, entry: nat, i: nat ::
                EntryAt(pe, s, entry) && Finds(sigs, file, entry, i) ==> entry >= |file|
    ensures ScanResult(sigs, pe, file).Some? ==>
              exists s: nat, entry: nat, i: nat ::
                EntryAt(pe, s, entry) && entry < |file| && Finds(sigs, file, entry, i)
  {
    forall s: nat, entry: nat, i: nat | EntryAt(pe, s, entry) && entry < |file| && Finds(sigs, file, entry, i)
      ensures ScanResult(sigs, pe, file) == Some(sigs[i].name)
    {
      EntryOffsetIsFirst(pe, s);
      FirstHitIsFirst(sigs, file, entry, i);
    }
    if ScanResult(sigs, pe, file).Some? {
      var s := SomeSection(pe, 0);
      var entry := EntryOffset(pe, 0).value;
      EntryOffsetIsFirst(pe, s);
      NoHitMeansNone(sigs, file, entry);
      var i := SomeHit(sigs, file, entry);
      assert EntryAt(pe, s, entry) && Finds(sigs, file, entry, i);
    }
  }

  lemma {:induction false} SomeSection(pe: Image, i: nat) returns (s: nat)
    requires i <= |pe.sections| && EntryOffset(pe, i).Some?
    requires forall k :: 0 <= k < i ==> !Contains(pe.sections[k], pe.entry)
    ensures s < |pe.sections| && FirstSection(pe, s)
    decreases |pe.sections| - i
  {
    if Contains(pe.sections[i], pe.entry) {
      s := i;
    } else {
      s := SomeSection(pe, i + 1);
    }
  }

  lemma {:induction false} SomeHit(sigs: seq<PackSignature>, file: Bytes, entry: nat) returns (i: nat)
    requires entry <= |file| && FirstHit(sigs, file, entry).Some?
    ensures Finds(sigs, file, entry, i)
  {
    hide Hits, Agrees;
    HitsWhereItStands(sigs[0], file, entry);
    if Hits(sigs[0], file, entry) {
      i := 0;
    } else {
      var k := SomeHit(sigs[1..], file, entry);
      i := k + 1;
    }
  }
}
