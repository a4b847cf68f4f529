/**
 The streaming event parser of the browser client and the printer of the backend.

 The parser keeps a buffer, cuts it at every blank-line separator that is already complete, and hands
 each finished block to `Dispatch`.  Its meaning is given without any buffer: cut the whole text into
 lines once and keep the data of each `data:` line.
 */
module Sse {
  import opened Wrappers

  // ----- The built-in string functions the parser relies on -----

  /** The characters removed by `String.prototype.trim`. */
  predicate IsSpace(c: char) {
    var n := c as int;
    9 <= n <= 13 || n == 0x20 || n == 0xA0 || n == 0x1680 || 0x2000 <= n <= 0x200A
    || n == 0x2028 || n == 0x2029 || n == 0x202F || n == 0x205F || n == 0x3000 || n == 0xFEFF
  }

  function TrimStart(s: string): (r: string) {
    if s != [] && IsSpace(s[0]) then TrimStart(s[1..]) else s
  }

  function TrimEnd(s: string): (r: string) {
    if s != [] && IsSpace(s[|s| - 1]) then TrimEnd(s[..|s| - 1]) else s
  }

  function Trim(s: string): string {
    TrimEnd(TrimStart(s))
  }

  /** Length of the match of `\r?\n` at position `k`, or 0. */
  function BreakAt(s: string, k: nat): (n: nat)
    requires k <= |s|
    ensures k + n <= |s|
  {
    if k < |s| && s[k] == '\n' then 1
    else if k + 1 < |s| && s[k] == '\r' && s[k + 1] == '\n' then 2
    else 0
  }

  /** Where the leftmost match of `\r?\n` at or after `k` starts, or `|s|`. */
  function FirstBreak(s: string, k: nat): (i: nat)
    requires k <= |s|
    ensures k <= i <= |s|
    ensures i < |s| ==> BreakAt(s, i) > 0
    decreases |s| - k
  {
    if k == |s| || BreakAt(s, k) > 0 then k else FirstBreak(s, k + 1)
  }

  lemma {:induction false} FirstBreakIs(s: string, k: nat, i: nat)
    requires k <= i <= |s| && (i < |s| ==> BreakAt(s, i) > 0)
    requires forall j :: k <= j < i ==> BreakAt(s, j) == 0
    ensures FirstBreak(s, k) == i
    decreases i - k
  {
    if k < i {
      FirstBreakIs(s, k + 1, i);
    }
  }

  lemma {:induction false} NoEarlierBreak(s: string, k: nat)
    requires k <= |s|
    ensures forall j :: k <= j < FirstBreak(s, k) ==> BreakAt(s, j) == 0
    decreases |s| - k
  {
    if k < |s| && BreakAt(s, k) == 0 {
      NoEarlierBreak(s, k + 1);
    }
  }

  /** `s.split(/\r?\n/)`. */
  function SplitLines(s: string): (lines: seq<string>)
    decreases |s|
  {
    var i := FirstBreak(s, 0);
    if i == |s| then [s] else [s[..i]] + SplitLines(s[i + BreakAt(s, i)..])
  }

  /** How many line breaks in a row start at `k`, and where they end. */
  function BreakRun(s: string, k: nat): (r: (nat, nat))
    requires k <= |s|
    ensures k <= r.1 <= |s|
    ensures r.0 > 0 <==> BreakAt(s, k) > 0
    ensures r.0 > 0 ==> k < r.1
    decreases |s| - k
  {
    var b := BreakAt(s, k);
    if b == 0 then (0, k)
    else
      var r := BreakRun(s, k + b);
      (r.0 + 1, r.1)
  }

  /** Where the leftmost match of `(?:\r?\n){2,}` at or after `k` starts, or `|s|`. */
  function SeparatorIndex(s: string, k: nat): (i: nat)
    requires k <= |s|
    ensures k <= i <= |s|
    ensures i < |s| ==> BreakRun(s, i).0 >= 2
    decreases |s| - k
  {
    if k == |s| || BreakRun(s, k).0 >= 2 then k else SeparatorIndex(s, k + 1)
  }

  /** `s.split(/(?:\r?\n){2,}/)`. */
  function SplitBlocks(s: string): (blocks: seq<string>)
    ensures |blocks| >= 1
    decreases |s|
  {
    var i := SeparatorIndex(s, 0);
    if i == |s| then [s] else [s[..i]] + SplitBlocks(s[BreakRun(s, i).1..])
  }

  // ----- What the parser means -----

  /** The text one line hands to the JSON parser, if any. */
  function DataOf(line: string): Option<string> {
    var trimmed := Trim(line);
    if "data:" <= trimmed && Trim(trimmed[5..]) != "" then Some(Trim(trimmed[5..])) else None
  }

  function ToSeq<T>(o: Option<T>): seq<T> {
    match o case Some(v) => [v] case None => []
  }

  function LineData(line: string): seq<string> {
    ToSeq(DataOf(line))
  }

  /** What `f` makes of each line of a text, in order. */
  function EachLine(text: string, f: string -> seq<string>): seq<string>
    decreases |text|
  {
    var i := FirstBreak(text, 0);
    if i == |text| then f(text) else f(text[..i]) + EachLine(text[i + BreakAt(text, i)..], f)
  }

  /** One-shot meaning of a text: every `data:` line of it, in order, ignoring blocks altogether. */
  function DataLines(text: string): seq<string> {
    EachLine(text, LineData)
  }

  /** The events delivered for a list of data texts; `parse` is `None` for malformed or falsy JSON. */
  function Delivered<Event>(data: seq<string>, parse: string -> Option<Event>): seq<Event> {
    if data == [] then [] else ToSeq(parse(data[0])) + Delivered(data[1..], parse)
  }

  /** `picks` are, in order, the positions of exactly those data that parse, and the events what they parse to. */
  ghost predicate PickedBy<Event>(data: seq<string>, parse: string -> Option<Event>, events: seq<Event>,
                                  picks: seq<nat>) {
    && |picks| == |events|
    && (forall k :: 0 <= k < |picks| ==> picks[k] < |data| && parse(data[picks[k]]) == Some(events[k]))
    && (forall k, m :: 0 <= k < m < |picks| ==> picks[k] < picks[m])
    && (forall i :: 0 <= i < |data| && parse(data[i]).Some? ==> i in picks)
  }

  /** The events are the parses of exactly those data that parse, each once and in order. */
  ghost predicate AreParses<Event>(data: seq<string>, parse: string -> Option<Event>, events: seq<Event>) {
    exists picks :: PickedBy(data, parse, events, picks)
  }

  ghost predicate AllParse<Event>(data: seq<string>, parse: string -> Option<Event>) {
    forall i :: 0 <= i < |data| ==> parse(data[i]).Some?
  }

  function Concat(chunks: seq<string>): string {
    if chunks == [] then "" else chunks[0] + Concat(chunks[1..])
  }

  /** `f` applied to a list of pieces. */
  function Each(pieces: seq<string>, f: string -> seq<string>): seq<string> {
    if pieces == [] then [] else f(pieces[0]) + Each(pieces[1..], f)
  }

  // ----- The parser -----

  /** The inner `dispatch`: one pass over the lines of a block. */
  method Dispatch<Event>(block: string, parse: string -> Option<Event>, delivered: seq<Event>)
    returns (events: seq<Event>)
    ensures events == delivered + Delivered(DataLines(block), parse)
  {
    events := delivered;
    var lines := SplitLines(block);
    var i := 0;
    while i < |lines|
      invariant 0 <= i <= |lines|
      invariant events == delivered + Delivered(Each(lines[..i], LineData), parse)
    {
      EachDelivered(lines, i, LineData, parse, delivered);
      events := DispatchLine(lines[i], parse, events);
      i := i + 1;
    }
    assert lines[..i] == lines;
    LinesOneByOne(block, LineData);
  }

  method DispatchLine<Event>(line: string, parse: string -> Option<Event>, delivered: seq<Event>)
    returns (events: seq<Event>)
    ensures events == delivered + Delivered(LineData(line), parse)
  {
    events := delivered;
    var trimmed := Trim(line);
    if "data:" <= trimmed {
      var data := Trim(trimmed[5..]);
      if data != "" {
        assert LineData(line) == [data];
        assert Delivered([data], parse) == ToSeq(parse(data)) + [];
        var parsed := parse(data);
        if parsed.Some? {
          events := events + [parsed.value];
        }
      }
    }
  }

  /**
   `consumeSse`: whatever the chunk boundaries, the events are those of the concatenated text, the parses of exactly
   those of its data that parse, each once and in order.
   */
  method ConsumeSse<Event>(chunks: seq<string>, parse: string -> Option<Event>) returns (events: seq<Event>)
    ensures events == Delivered(DataLines(Concat(chunks)), parse)
    ensures AreParses(DataLines(Concat(chunks)), parse, events)
    ensures var data := DataLines(Concat(chunks));
            AllParse(data, parse) ==>
              |events| == |data| && forall i :: 0 <= i < |data| ==> parse(data[i]) == Some(events[i])
  {
    hide DataLines, Each, SplitBlocks;
    events := [];
    var buffer := "";
    ghost var seen: seq<string> := [];
    var i := 0;
    assert "" + Concat(chunks[0..]) == Concat(chunks);
    while i < |chunks|
      invariant 0 <= i <= |chunks|
      invariant events == Delivered(seen, parse)
      invariant seen + DataLines(buffer + Concat(chunks[i..])) == DataLines(Concat(chunks))
    {
      ghost var before := buffer;
      buffer := buffer + chunks[i];
      var blocks := SplitBlocks(buffer);
      ReadStep(seen, before, chunks, i, parse);
      buffer := blocks[|blocks| - 1];
      blocks := blocks[..|blocks| - 1];
      events := DispatchAll(blocks, parse, events);
      seen := seen + Each(blocks, DataLines);
      i := i + 1;
    }
    assert buffer + Concat(chunks[i..]) == buffer;
    DeliveredAppend(seen, DataLines(buffer), parse);
    events := Flush(buffer, parse, events);
    DeliveredAreParses(DataLines(Concat(chunks)), parse);
    if AllParse(DataLines(Concat(chunks)), parse) {
      AllDelivered(DataLines(Concat(chunks)), parse);
    }
  }

  /** What is left when the stream ends. */
  method Flush<Event>(buffer: string, parse: string -> Option<Event>, delivered: seq<Event>)
    returns (events: seq<Event>)
    ensures events == delivered + Delivered(DataLines(buffer), parse)
  {
    events := delivered;
    if Trim(buffer) != "" {
      events := Dispatch(buffer, parse, events);
    } else {
      BlankHasNoData(buffer);
    }
  }

  /** One read: the data of the finished blocks moves from the unread text to what has been seen. */
  lemma ReadStep<Event>(seen: seq<string>, buffer: string, chunks: seq<string>, i: nat, parse: string -> Option<Event>)
    requires i < |chunks|
    ensures var blocks := SplitBlocks(buffer + chunks[i]);
            var data := Each(blocks[..|blocks| - 1], DataLines);
            && seen + DataLines(buffer + Concat(chunks[i..]))
               == seen + data + DataLines(blocks[|blocks| - 1] + Concat(chunks[i + 1..]))
            && Delivered(seen + data, parse) == Delivered(seen, parse) + Delivered(data, parse)
  {
    hide DataLines, Each, SplitBlocks;
    var rest := Concat(chunks[i + 1..]);
    assert buffer + Concat(chunks[i..]) == (buffer + chunks[i]) + rest;
    var blocks := SplitBlocks(buffer + chunks[i]);
    BufferStep(buffer + chunks[i], rest);
    DeliveredAppend(seen, Each(blocks[..|blocks| - 1], DataLines), parse);
  }

  /** The loop over the finished blocks of one read. */
  method DispatchAll<Event>(blocks: seq<string>, parse: string -> Option<Event>, delivered: seq<Event>)
    returns (events: seq<Event>)
    ensures events == delivered + Delivered(Each(blocks, DataLines), parse)
  {
    events := delivered;
    var j := 0;
    while j < |blocks|
      invariant 0 <= j <= |blocks|
      invariant events == delivered + Delivered(Each(blocks[..j], DataLines), parse)
    {
      EachDelivered(blocks, j, DataLines, parse, delivered);
      events := Dispatch(blocks[j], parse, events);
      j := j + 1;
    }
    assert blocks[..j] == blocks;
  }

  // ----- Why buffering by blocks is invisible -----

  lemma {:induction false} DeliveredAppend<Event>(a: seq<string>, b: seq<string>, parse: string -> Option<Event>)
    ensures Delivered(a + b, parse) == Delivered(a, parse) + Delivered(b, parse)
  {
    if a == [] {
      assert a + b == b;
    } else {
      assert (a + b)[1..] == a[1..] + b;
      DeliveredAppend(a[1..], b, parse);
    }
  }

  /** What is delivered, said without recursion. */
  lemma {:induction false} DeliveredAreParses<Event>(data: seq<string>, parse: string -> Option<Event>)
    ensures AreParses(data, parse, Delivered(data, parse))
  {
    if data == [] {
      assert PickedBy(data, parse, Delivered(data, parse), []);
    } else {
      hide AreParses;
      var n := |data| - 1;
      var before := data[..n];
      assert data == before + [data[n]];
      DeliveredAreParses(before, parse);
      DeliveredAppend(before, [data[n]], parse);
      assert Delivered([data[n]], parse) == ToSeq(parse(data[n])) + [];
      OnePicked(before, data[n], parse, Delivered(before, parse));
      hide Delivered;
      assert Delivered(data, parse) == Delivered(before, parse) + ToSeq(parse(data[n]));
    }
  }

  lemma OnePicked<Event>(before: seq<string>, last: string, parse: string -> Option<Event>, events: seq<Event>)
    requires AreParses(before, parse, events)
    ensures AreParses(before + [last], parse, events + ToSeq(parse(last)))
  {
    var picks :| PickedBy(before, parse, events, picks);
    hide PickedBy;
    if parse(last).Some? {
      PickLast(before, last, parse, events, picks);
    } else {
      PassLast(before, last, parse, events, picks);
      assert events + ToSeq(parse(last)) == events;
    }
  }

  lemma PassLast<Event>(before: seq<string>, last: string, parse: string -> Option<Event>, events: seq<Event>,
                        picks: seq<nat>)
    requires PickedBy(before, parse, events, picks) && parse(last).None?
    ensures PickedBy(before + [last], parse, events, picks)
  {
    var data := before + [last];
    forall i | 0 <= i < |data| && parse(data[i]).Some? ensures i in picks {
      assert i < |before| && data[i] == before[i];
    }
  }

  lemma PickLast<Event>(before: seq<string>, last: string, parse: string -> Option<Event>, events: seq<Event>,
                        picks: seq<nat>)
    requires PickedBy(before, parse, events, picks) && parse(last).Some?
    ensures PickedBy(before + [last], parse, events + ToSeq(parse(last)), picks + [|before|])
  {
    var data, picks' := before + [last], picks + [|before|];
    assert picks'[|picks|] == |before|;
    forall i | 0 <= i < |data| && parse(data[i]).Some? ensures i in picks' {
      if i < |before| {
        assert data[i] == before[i] && i in picks;
        var k :| 0 <= k < |picks| && picks[k] == i;
        assert picks'[k] == i;
      }
    }
  }

  /** If every datum parses, event `i` is the parse of datum `i`. */
  lemma {:induction false} AllDelivered<Event>(data: seq<string>, parse: string -> Option<Event>)
    requires AllParse(data, parse)
    ensures |Delivered(data, parse)| == |data|
    ensures forall i :: 0 <= i < |data| ==> parse(data[i]) == Some(Delivered(data, parse)[i])
  {
    if data != [] {
      AllDelivered(data[1..], parse);
    }
  }

  lemma {:induction false} EachAppend(a: seq<string>, b: seq<string>, f: string -> seq<string>)
    ensures Each(a + b, f) == Each(a, f) + Each(b, f)
  {
    if a == [] {
      assert a + b == b;
    } else {
      assert (a + b)[1..] == a[1..] + b;
      EachAppend(a[1..], b, f);
    }
  }

  lemma EachDelivered<Event>(pieces: seq<string>, i: nat, f: string -> seq<string>,
                             parse: string -> Option<Event>, earlier: seq<Event>)
    requires i < |pieces|
    ensures earlier + Delivered(Each(pieces[..i + 1], f), parse)
            == earlier + Delivered(Each(pieces[..i], f), parse) + Delivered(f(pieces[i]), parse)
  {
    EachSnoc(pieces, i, f);
    DeliveredAppend(Each(pieces[..i], f), f(pieces[i]), parse);
  }

  lemma EachSnoc(pieces: seq<string>, i: nat, f: string -> seq<string>)
    requires i < |pieces|
    ensures Each(pieces[..i + 1], f) == Each(pieces[..i], f) + f(pieces[i])
  {
    assert pieces[..i + 1] == pieces[..i] + [pieces[i]];
    EachAppend(pieces[..i], [pieces[i]], f);
    assert Each([pieces[i]], f) == f(pieces[i]) + [];
  }

  /** Splitting first and reading the list of lines gives the same as reading line by line. */
  lemma {:induction false} LinesOneByOne(s: string, f: string -> seq<string>)
    ensures Each(SplitLines(s), f) == EachLine(s, f)
    decreases |s|
  {
    var i := FirstBreak(s, 0);
    if i == |s| {
      assert Each([s], f) == f(s) + [];
    } else {
      var rest := s[i + BreakAt(s, i)..];
      LinesOneByOne(rest, f);
      assert ([s[..i]] + SplitLines(rest))[1..] == SplitLines(rest);
    }
  }

  function DropCr(line: string): string {
    if line != [] && line[|line| - 1] == '\r' then line[..|line| - 1] else line
  }

  /** `f` ignores a final carriage return and makes nothing of an empty line. */
  ghost predicate Lenient(f: string -> seq<string>) {
    f("") == [] && forall l: string :: f(DropCr(l)) == f(l)
  }

  lemma LineDataIsLenient()
    ensures Lenient(LineData)
  {
    forall l: string ensures LineData(DropCr(l)) == LineData(l) {
      TrimIgnoresCr(l);
    }
  }

  lemma {:induction false} TrimStartSnoc(x: string, c: char)
    requires IsSpace(c)
    ensures TrimStart(x + [c]) == (if TrimStart(x) == [] then [] else TrimStart(x) + [c])
  {
    if x == [] {
      assert x + [c] == [c];
      assert [c][1..] == [];
    } else if IsSpace(x[0]) {
      assert (x + [c])[1..] == x[1..] + [c];
      TrimStartSnoc(x[1..], c);
    }
  }

  lemma TrimIgnoresCr(line: string)
    ensures Trim(DropCr(line)) == Trim(line)
  {
    if line != [] && line[|line| - 1] == '\r' {
      var x := line[..|line| - 1];
      assert line == x + ['\r'];
      TrimStartSnoc(x, '\r');
      assert (TrimStart(x) + ['\r'])[..|TrimStart(x)|] == TrimStart(x);
    }
  }

  /** A line feed separates the lines before it from those after it, even when it completes a `\r\n`. */
  lemma {:induction false} AtFeed(p: string, x: string, f: string -> seq<string>)
    requires Lenient(f)
    ensures EachLine(p + "\n" + x, f) == EachLine(p, f) + EachLine(x, f)
    decreases |p|
  {
    LinesFrom(p, f);
    hide BreakAt, Each, EachLine, FirstBreak;
    var i := FirstBreak(p, 0);
    if i < |p| {
      var k := i + BreakAt(p, i);
      assert p + "\n" + x == p + ("\n" + x);
      AtInnerBreak(p, "\n" + x, f);
      assert p[k..] + ("\n" + x) == p[k..] + "\n" + x;
      AtFeed(p[k..], x, f);
      Regroup(f(p[..i]), EachLine(p[k..], f), EachLine(x, f));
    } else {
      AtLastFeed(p, x, f);
    }
  }

  /** Reading the first line, then the rest. */
  lemma LinesFrom(p: string, f: string -> seq<string>)
    ensures var i := FirstBreak(p, 0);
            && i <= |p|
            && (i < |p| ==> 0 < BreakAt(p, i) <= |p| - i
                            && EachLine(p, f) == f(p[..i]) + EachLine(p[i + BreakAt(p, i)..], f))
            && (i == |p| ==> EachLine(p, f) == f(p))
  {
    hide FirstBreak, BreakAt;
  }

  lemma Regroup(a: seq<string>, b: seq<string>, c: seq<string>)
    ensures a + (b + c) == (a + b) + c
  {
  }

  lemma AtLastFeed(p: string, x: string, f: string -> seq<string>)
    requires Lenient(f)
    requires FirstBreak(p, 0) == |p|
    ensures EachLine(p + "\n" + x, f) == f(p) + EachLine(x, f)
  {
    var t := p + "\n" + x;
    BreakAfter(p, x);
    var d := |DropCr(p)|;
    assert t[d + BreakAt(t, d)..] == x;
    assert f(DropCr(p)) == f(p);
  }

  lemma AtInnerBreak(p: string, y: string, f: string -> seq<string>)
    requires FirstBreak(p, 0) < |p|
    ensures var i := FirstBreak(p, 0);
            EachLine(p + y, f) == f(p[..i]) + EachLine(p[i + BreakAt(p, i)..] + y, f)
  {
    var i := FirstBreak(p, 0);
    BreaksInside(p, y);
    assert (p + y)[i + BreakAt(p, i)..] == p[i + BreakAt(p, i)..] + y;
    assert (p + y)[..i] == p[..i];
  }

  /** Line breaks that are complete in `p` are the same in any continuation of `p`. */
  lemma BreaksInside(p: string, y: string)
    requires FirstBreak(p, 0) < |p|
    ensures FirstBreak(p + y, 0) == FirstBreak(p, 0)
    ensures BreakAt(p + y, FirstBreak(p, 0)) == BreakAt(p, FirstBreak(p, 0))
  {
    var i := FirstBreak(p, 0);
    NoEarlierBreak(p, 0);
    assert forall j :: 0 <= j < i ==> BreakAt(p + y, j) == BreakAt(p, j);
    FirstBreakIs(p + y, 0, i);
  }

  lemma BreakAfter(p: string, x: string)
    requires FirstBreak(p, 0) == |p|
    ensures var t := p + "\n" + x;
            var i := |DropCr(p)|;
            FirstBreak(t, 0) == i && i + BreakAt(t, i) == |p| + 1 && t[..i] == DropCr(p)
  {
    var t := p + "\n" + x;
    var i := |DropCr(p)|;
    NoEarlierBreak(p, 0);
    assert t[|p|] == '\n' && (i < |p| ==> t[i] == '\r');
    assert forall j :: 0 <= j < i ==> BreakAt(p, j) == 0 && t[j] == p[j];
    assert forall j :: 0 <= j < i ==> BreakAt(t, j) == 0;
    FirstBreakIs(t, 0, i);
  }

  /** A final carriage return never matters: it is trimmed, or becomes part of a line break. */
  lemma {:induction false} AtCr(p: string, f: string -> seq<string>)
    requires Lenient(f)
    ensures EachLine(p + "\r", f) == EachLine(p, f)
    decreases |p|
  {
    hide BreakAt, Each;
    var i := FirstBreak(p, 0);
    if i < |p| {
      AtInnerBreak(p, "\r", f);
      AtCr(p[i + BreakAt(p, i)..], f);
    } else {
      AtLastCr(p, f);
    }
  }

  lemma AtLastCr(p: string, f: string -> seq<string>)
    requires Lenient(f)
    requires FirstBreak(p, 0) == |p|
    ensures EachLine(p + "\r", f) == f(p)
  {
    var t := p + "\r";
    NoBreakBeforeCr(p);
    assert DropCr(t) == p;
    assert f(DropCr(t)) == f(t);
  }

  lemma NoBreakBeforeCr(p: string)
    requires FirstBreak(p, 0) == |p|
    ensures FirstBreak(p + "\r", 0) == |p| + 1
  {
    var t := p + "\r";
    NoEarlierBreak(p, 0);
    assert forall j :: 0 <= j < |p| ==> BreakAt(p, j) == 0 && t[j] == p[j];
    assert forall j :: 0 <= j < |t| ==> BreakAt(t, j) == 0;
    FirstBreakIs(t, 0, |t|);
  }

  lemma AtBreak(s: string, i: nat, rest: string, f: string -> seq<string>)
    requires Lenient(f)
    requires i <= |s| && BreakAt(s, i) > 0
    ensures EachLine(s + rest, f) == EachLine(s[..i], f) + EachLine(s[i + BreakAt(s, i)..] + rest, f)
  {
    var p, t := s[..i], s[i + BreakAt(s, i)..] + rest;
    if BreakAt(s, i) == 1 {
      assert s + rest == p + "\n" + t;
      AtFeed(p, t, f);
    } else {
      assert s + rest == (p + "\r") + "\n" + t;
      AtFeed(p + "\r", t, f);
      AtCr(p, f);
    }
  }

  /** A whole run of line breaks separates the lines around it. */
  lemma {:induction false} AtRun(s: string, i: nat, rest: string, f: string -> seq<string>)
    requires Lenient(f)
    requires i <= |s| && BreakAt(s, i) > 0
    ensures EachLine(s + rest, f) == EachLine(s[..i], f) + EachLine(s[BreakRun(s, i).1..] + rest, f)
    decreases |s| - i
  {
    hide EachLine, BreakRun;
    var k := i + BreakAt(s, i);
    AtBreak(s, i, rest, f);
    RunUnfold(s, i);
    if BreakAt(s, k) > 0 {
      AtRun(s, k, rest, f);
      BreakAtEnd(s, i);
      AtBreak(s[..k], i, "", f);
      EachEmpty(f);
      assert s[..k][k..] + "" == "" && s[..k] + "" == s[..k] && s[..k][..i] == s[..i];
    }
  }

  lemma RunUnfold(s: string, i: nat)
    requires i <= |s| && BreakAt(s, i) > 0
    ensures var k := i + BreakAt(s, i);
            BreakRun(s, i).1 == if BreakAt(s, k) > 0 then BreakRun(s, k).1 else k
  {
  }

  lemma BreakAtEnd(s: string, i: nat)
    requires i <= |s|
    ensures BreakAt(s[..i + BreakAt(s, i)], i) == BreakAt(s, i)
  {
  }

  lemma EachEmpty(f: string -> seq<string>)
    requires Lenient(f)
    ensures EachLine("", f) == []
  {
  }

  /** Handing over the complete blocks and keeping the last one loses nothing, whatever comes next. */
  lemma {:induction false} BufferedStep(s: string, rest: string, f: string -> seq<string>)
    requires Lenient(f)
    ensures var blocks := SplitBlocks(s);
            EachLine(s + rest, f)
            == Each(blocks[..|blocks| - 1], ByLine(f)) + EachLine(blocks[|blocks| - 1] + rest, f)
    decreases |s|
  {
    hide BreakAt, BreakRun, EachLine, Each;
    var i := SeparatorIndex(s, 0);
    if i < |s| {
      var next := s[BreakRun(s, i).1..];
      BufferedStep(next, rest, f);
      AtRun(s, i, rest, f);
      BlocksInit(s[..i], SplitBlocks(next), ByLine(f));
      assert ByLine(f)(s[..i]) == EachLine(s[..i], f);
      var later := SplitBlocks(next);
      Regroup(EachLine(s[..i], f), Each(later[..|later| - 1], ByLine(f)), EachLine(later[|later| - 1] + rest, f));
    } else {
      assert SplitBlocks(s) == [s] && [s][..0] == [];
      EachNil(ByLine(f));
      assert EachLine(s + rest, f) == [] + EachLine(s + rest, f);
    }
  }

  /** Reading a whole piece line by line. */
  function ByLine(f: string -> seq<string>): string -> seq<string> {
    t => EachLine(t, f)
  }

  lemma EachNil(g: string -> seq<string>)
    ensures Each([], g) == []
  {
  }

  lemma BlocksInit(b: string, later: seq<string>, g: string -> seq<string>)
    requires |later| >= 1
    ensures var blocks := [b] + later;
            && Each(blocks[..|blocks| - 1], g) == g(b) + Each(later[..|later| - 1], g)
            && blocks[|blocks| - 1] == later[|later| - 1]
  {
    var blocks := [b] + later;
    assert blocks[..|blocks| - 1] == [b] + later[..|later| - 1];
    assert ([b] + later[..|later| - 1])[1..] == later[..|later| - 1];
  }

  lemma {:induction false} EachSame(pieces: seq<string>, g: string -> seq<string>, h: string -> seq<string>)
    requires forall t :: g(t) == h(t)
    ensures Each(pieces, g) == Each(pieces, h)
  {
    if pieces != [] {
      EachSame(pieces[1..], g, h);
    }
  }

  lemma BufferStep(s: string, rest: string)
    ensures var blocks := SplitBlocks(s);
            DataLines(s + rest)
            == Each(blocks[..|blocks| - 1], DataLines) + DataLines(blocks[|blocks| - 1] + rest)
  {
    hide EachLine, Each, LineData, SplitBlocks;
    var blocks := SplitBlocks(s);
    LineDataIsLenient();
    BufferedStep(s, rest, LineData);
    EachSame(blocks[..|blocks| - 1], ByLine(LineData), DataLines);
  }

  predicate Blank(s: string) {
    forall i :: 0 <= i < |s| ==> IsSpace(s[i])
  }

  lemma {:induction false} TrimBlank(s: string)
    ensures Trim(s) == "" <==> Blank(s)
  {
    TrimStartBlank(s);
    TrimEndBlank(TrimStart(s));
  }

  lemma {:induction false} TrimStartBlank(s: string)
    ensures TrimStart(s) == [] <==> Blank(s)
    ensures TrimStart(s) != [] ==> !IsSpace(TrimStart(s)[0])
  {
    if s != [] && IsSpace(s[0]) {
      TrimStartBlank(s[1..]);
      assert Blank(s) <==> Blank(s[1..]) by {
        assert forall i :: 0 <= i < |s| - 1 ==> s[1..][i] == s[i + 1];
        assert forall i :: 0 < i < |s| ==> s[i] == s[1..][i - 1];
      }
    }
  }

  lemma {:induction false} TrimEndBlank(s: string)
    ensures TrimEnd(s) == [] <==> Blank(s)
    ensures TrimEnd(s) != [] ==> !IsSpace(TrimEnd(s)[|TrimEnd(s)| - 1])
    ensures TrimEnd(s) <= s
  {
    if s != [] && IsSpace(s[|s| - 1]) {
      TrimEndBlank(s[..|s| - 1]);
    }
  }

  /** The final `if (buffer.trim())` drops nothing. */
  lemma {:induction false} BlankHasNoData(s: string)
    requires Trim(s) == ""
    ensures DataLines(s) == []
  {
    TrimBlank(s);
    BlankLines(s);
  }

  lemma {:induction false} BlankLines(s: string)
    requires Blank(s)
    ensures DataLines(s) == []
    decreases |s|
  {
    var i := FirstBreak(s, 0);
    TrimBlank(s[..i]);
    assert LineData(s[..i]) == [];
    if i < |s| {
      BlankLines(s[i + BreakAt(s, i)..]);
    } else {
      assert s[..i] == s;
    }
  }

  // ----- The printer -----

  /** `_sse_event`, for a payload already rendered as JSON. */
  function SseEvent(payload: string): string {
    "data: " + payload + "\n\n"
  }

  function Printed(payloads: seq<string>): string {
    if payloads == [] then "" else SseEvent(payloads[0]) + Printed(payloads[1..])
  }

  /** Nonempty, on one line, and with no white space at either end: true of every JSON object. */
  predicate OneLine(p: string) {
    p != "" && !IsSpace(p[0]) && !IsSpace(p[|p| - 1]) && '\n' !in p
  }

  lemma {:induction false} TrimIsPart(s: string)
    ensures forall c :: c in Trim(s) ==> c in s
    ensures Trim(s) != "" ==> !IsSpace(Trim(s)[0]) && !IsSpace(Trim(s)[|Trim(s)| - 1])
  {
    TrimStartIsPart(s);
    TrimStartBlank(s);
    TrimEndBlank(TrimStart(s));
  }

  lemma {:induction false} TrimStartIsPart(s: string)
    ensures forall c :: c in TrimStart(s) ==> c in s
  {
    if s != [] && IsSpace(s[0]) {
      TrimStartIsPart(s[1..]);
    }
  }

  lemma LineDataIsOneLine(line: string)
    requires '\n' !in line
    ensures forall d :: d in LineData(line) ==> OneLine(d)
  {
    var trimmed := Trim(line);
    TrimIsPart(line);
    if "data:" <= trimmed {
      var body := trimmed[5..];
      TrimIsPart(body);
      assert forall c :: c in body ==> c in trimmed;
    }
  }

  /** Whatever the text, the parser only ever hands over one-line data. */
  lemma {:induction false} DataIsOneLine(s: string)
    ensures forall d :: d in DataLines(s) ==> OneLine(d)
    decreases |s|
  {
    var i := FirstBreak(s, 0);
    NoEarlierBreak(s, 0);
    assert forall j :: 0 <= j < i ==> BreakAt(s, j) == 0 && s[..i][j] == s[j];
    LineDataIsOneLine(s[..i]);
    if i < |s| {
      DataIsOneLine(s[i + BreakAt(s, i)..]);
    } else {
      assert s[..i] == s;
    }
  }

  lemma TrimKeeps(p: string)
    requires OneLine(p)
    ensures Trim(p) == p && Trim(" " + p) == p
  {
    assert (" " + p)[1..] == p;
  }

  lemma PrintedLine(p: string)
    requires OneLine(p)
    ensures DataLines("data: " + p) == [p]
  {
    var line := "data: " + p;
    assert '\n' !in line;
    assert forall j :: 0 <= j < |line| ==> line[j] in line;
    FirstBreakIs(line, 0, |line|);
    PrintedData(p);
  }

  lemma PrintedData(p: string)
    requires OneLine(p)
    ensures LineData("data: " + p) == [p]
  {
    var line := "data: " + p;
    assert line[0] == 'd' && line[|line| - 1] == p[|p| - 1];
    assert line[5..] == " " + p && line[..5] == "data:";
    TrimKeeps(p);
    assert Trim(line) == line;
  }

  lemma {:induction false} PrintedReadsBack(payloads: seq<string>)
    requires forall p :: p in payloads ==> OneLine(p)
    ensures DataLines(Printed(payloads)) == payloads
  {
    hide LineData, EachLine;
    LineDataIsLenient();
    EachEmpty(LineData);
    if payloads != [] {
      var p, more := payloads[0], Printed(payloads[1..]);
      PrintedReadsBack(payloads[1..]);
      PrintedLine(p);
      assert Printed(payloads) == ("data: " + p) + "\n" + ("\n" + more);
      AtFeed("data: " + p, "\n" + more, LineData);
      assert "\n" + more == "" + "\n" + more;
      AtFeed("", more, LineData);
    }
  }

  /**
   Printing and then reading, over any chunking, gives the payloads back exactly when every payload is a
   nonempty single line without outer white space.
   */
  lemma PrintThenRead(payloads: seq<string>, chunks: seq<string>)
    requires Concat(chunks) == Printed(payloads)
    ensures DataLines(Concat(chunks)) == payloads <==> forall p :: p in payloads ==> OneLine(p)
  {
    if forall p :: p in payloads ==> OneLine(p) {
      PrintedReadsBack(payloads);
    } else {
      DataIsOneLine(Printed(payloads));
    }
  }

  /**
   A stream printed by the backend and read by the client, over any chunking: if every payload is such a line and
   parses, the client gets the payloads' events, one each and in order.
   */
  method ReadPrinted<Event>(payloads: seq<string>, chunks: seq<string>, parse: string -> Option<Event>)
    returns (events: seq<Event>)
    requires Concat(chunks) == Printed(payloads)
    ensures (forall p :: p in payloads ==> OneLine(p)) ==> AreParses(payloads, parse, events)
    ensures (forall p :: p in payloads ==> OneLine(p) && parse(p).Some?) ==>
              |events| == |payloads| && forall i :: 0 <= i < |payloads| ==> parse(payloads[i]) == Some(events[i])
  {
    PrintThenRead(payloads, chunks);
    events := ConsumeSse(chunks, parse);
  }

  // ----- Which lines there are, and which data a line holds -----

  /** A text without a line feed is one line. */
  lemma OneLineText(p: string)
    requires '\n' !in p
    ensures DataLines(p) == LineData(p)
  {
    assert forall j :: 0 <= j < |p| ==> p[j] in p;
    FirstBreakIs(p, 0, |p|);
  }

  /** Lines, each ended by a line feed. */
  function Ended(lines: seq<string>): string {
    if lines == [] then "" else lines[0] + "\n" + Ended(lines[1..])
  }

  /** Every text is some lines, each ended by a line feed, and a last one: its data are theirs, line by line. */
  lemma {:induction false} LineByLine(lines: seq<string>, last: string)
    requires '\n' !in last && forall l :: l in lines ==> '\n' !in l
    ensures DataLines(Ended(lines) + last) == Each(lines, LineData) + LineData(last)
  {
    hide LineData, EachLine;
    OneLineText(last);
    if lines == [] {
      assert Ended(lines) + last == last;
    } else {
      LineDataIsLenient();
      OneLineText(lines[0]);
      LineByLine(lines[1..], last);
      assert Ended(lines) + last == lines[0] + "\n" + (Ended(lines[1..]) + last);
      AtFeed(lines[0], Ended(lines[1..]) + last, LineData);
    }
  }

  /** `line` is `data:` and the datum `d`, with white space around and between. */
  ghost predicate Carries(line: string, d: string) {
    exists a, b, c :: Blank(a) && Blank(b) && Blank(c) && line == a + "data:" + b + d + c
  }

  /** A line holds the datum `d` exactly if it is made like that and `d` has text and no outer white space. */
  lemma DataOfExactly(line: string, d: string)
    ensures DataOf(line) == Some(d) <==> d != "" && !IsSpace(d[0]) && !IsSpace(d[|d| - 1]) && Carries(line, d)
  {
    if DataOf(line) == Some(d) {
      CarriesItsDatum(line);
    }
    if d != "" && !IsSpace(d[0]) && !IsSpace(d[|d| - 1]) && Carries(line, d) {
      CarriedIsFound(line, d);
    }
  }

  lemma CarriedIsFound(line: string, d: string)
    requires d != "" && !IsSpace(d[0]) && !IsSpace(d[|d| - 1]) && Carries(line, d)
    ensures DataOf(line) == Some(d)
  {
    var a, b, c :| Blank(a) && Blank(b) && Blank(c) && line == a + "data:" + b + d + c;
    var body := b + d;
    assert line == a + ("data:" + body) + c;
    assert ("data:" + body)[|"data:" + body| - 1] == d[|d| - 1];
    TrimOf(a, "data:" + body, c);
    assert ("data:" + body)[5..] == b + d + "";
    TrimOf(b, d, "");
    hide Trim, TrimStart, TrimEnd;
    assert Trim(line) == "data:" + body;
  }

  lemma CarriesItsDatum(line: string)
    requires DataOf(line).Some?
    ensures var d := DataOf(line).value;
            d != "" && !IsSpace(d[0]) && !IsSpace(d[|d| - 1]) && Carries(line, d)
  {
    var trimmed := Trim(line);
    var d := DataOf(line).value;
    var a, c := AroundTrim(line);
    var b, c' := AroundTrim(trimmed[5..]);
    TrimIsPart(line);
    TrimIsPart(trimmed[5..]);
    assert trimmed == "data:" + (b + d + c');
    assert line == a + "data:" + b + d + (c' + c);
    assert Blank(c' + c);
  }

  /** What trimming takes away. */
  lemma AroundTrim(s: string) returns (a: string, c: string)
    ensures Blank(a) && Blank(c) && s == a + Trim(s) + c
  {
    a := TakenAtStart(s);
    c := TakenAtEnd(TrimStart(s));
    assert s == a + (Trim(s) + c);
  }

  lemma {:induction false} TakenAtStart(s: string) returns (a: string)
    ensures Blank(a) && s == a + TrimStart(s)
  {
    a := "";
    if s != [] && IsSpace(s[0]) {
      a := TakenAtStart(s[1..]);
      a := [s[0]] + a;
      assert s == [s[0]] + s[1..];
    }
  }

  lemma {:induction false} TakenAtEnd(s: string) returns (c: string)
    ensures Blank(c) && s == TrimEnd(s) + c
  {
    c := "";
    if s != [] && IsSpace(s[|s| - 1]) {
      c := TakenAtEnd(s[..|s| - 1]);
      c := c + [s[|s| - 1]];
      assert s == s[..|s| - 1] + [s[|s| - 1]];
    }
  }

  lemma TrimOf(a: string, x: string, c: string)
    requires Blank(a) && Blank(c) && x != "" && !IsSpace(x[0]) && !IsSpace(x[|x| - 1])
    ensures Trim(a + x + c) == x
  {
    assert a + x + c == a + (x + c);
    TrimStartOf(a, x + c);
    TrimEndOf(x, c);
  }

  lemma {:induction false} TrimStartOf(a: string, y: string)
    requires Blank(a) && y != "" && !IsSpace(y[0])
    ensures TrimStart(a + y) == y
  {
    if a == "" {
      assert a + y == y;
    } else {
      assert (a + y)[1..] == a[1..] + y;
      assert Blank(a[1..]);
      TrimStartOf(a[1..], y);
    }
  }

  lemma {:induction false} TrimEndOf(x: string, c: string)
    requires Blank(c) && x != "" && !IsSpace(x[|x| - 1])
    ensures TrimEnd(x + c) == x
  {
    if c == "" {
      assert x + c == x;
    } else {
      var n := |c| - 1;
      assert (x + c)[..|x + c| - 1] == x + c[..n];
      assert Blank(c[..n]);
      TrimEndOf(x, c[..n]);
    }
  }
}
